/**
  The platform's managed block in an agent's AGENTS.md
  (internal/supervisor/supervisor.go) and the instruction limits
  (internal/instructions/policy.go). The agent edits the same file, so the block
  is spliced between whatever stands before and after its markers.
*/
module ManagedBlock {
  import opened Common
  import opened Text

  const START := "<!-- cubepilot:system-prompt:start -->"
  const END := "<!-- cubepilot:system-prompt:end -->"
  const HEADER := "## User-configured instructions"
  const MAX_CHARS := 20_000
  const PERSONA_RESERVE := 3_200

  // ---- splicing ------------------------------------------------------------

  /** One more section: trimmed, and a blank line after what is already there. */
  function Section(out: string, s: string): string {
    var t := Trim(s);
    if t == "" then out else if out == "" then t else out + "\n\n" + t
  }

  function Splice(prefix: string, block: string, suffix: string): string {
    var out := Section(Section(Section("", prefix), block), suffix);
    if out == "" then "" else out + "\n"
  }

  method Flush(out: string, s: string) returns (r: string)
    ensures r == Section(out, s)
  {
    var t := Trim(s);
    r := out;
    if t == "" {
      return;
    }
    if |r| > 0 {
      r := r + "\n\n";
    }
    r := r + t;
  }

  method SpliceSections(prefix: string, block: string, suffix: string) returns (out: string)
    ensures out == Splice(prefix, block, suffix)
  {
    out := Flush("", prefix);
    out := Flush(out, block);
    out := Flush(out, suffix);
    if |out| > 0 {
      out := out + "\n";
    }
  }

  /** What stands before the first start marker; all of the file when there is none. */
  function Before(current: string): string {
    match Index(current, START)
    case Some(i) => current[..i]
    case None => current
  }

  /** What stands from the first start marker on. */
  function FromStart(current: string): string {
    match Index(current, START)
    case Some(i) => current[i..]
    case None => ""
  }

  /** What stands after the end marker that follows the start; empty when the block is unterminated. */
  function After(current: string): string {
    var rest := FromStart(current);
    match Index(rest, END)
    case Some(j) => rest[j + |END|..]
    case None => ""
  }

  /** The text between the markers. */
  function Between(current: string): string {
    var rest := FromStart(current);
    match Index(rest, END)
    case Some(j) => if j >= |START| then rest[|START|..j] else ""
    case None => ""
  }

  function BlockOf(desired: string): string {
    if Trim(desired) == "" then "" else START + "\n" + Trim(desired) + "\n" + END
  }

  function Reconciled(current: string, desired: string): string {
    Splice(Before(current), BlockOf(desired), After(current))
  }

  method ReconcileManagedBlock(current: string, desired: string) returns (target: string)
    ensures target == Reconciled(current, desired)
  {
    var startIdx := Index(current, START);
    var prefix, suffix := current, "";
    if startIdx.Some? {
      prefix := current[..startIdx.value];
      var rel := Index(current[startIdx.value..], END);
      if rel.Some? {
        suffix := current[startIdx.value..][rel.value + |END|..];
      }
    }
    var block := "";
    if Trim(desired) != "" {
      block := START + "\n" + Trim(desired) + "\n" + END;
    }
    target := SpliceSections(prefix, block, suffix);
  }

  // ---- the shape of a reconciled file ----------------------------------------

  ghost predicate NoMarker(s: string) {
    !Contains(s, START) && !Contains(s, END)
  }

  lemma Markers()
    ensures NoNewline(START) && NoNewline(END) && START != "" && END != ""
    ensures START[0] == '<' && END[0] == '<' && START[|START| - 1] == '>' && END[|END| - 1] == '>'
    ensures |START| == 38 && |END| == 36 && !Contains(START, END)
  {
    assert START[1] == '!' && START[2] == '-' && END[0] == '<';
    assert START[0..36][29] == 's' && END[29] == 'e';
    assert START[1..37][0] == '!' && START[2..38][0] == '-';
  }

  /** Nothing before the first start marker holds one. */
  lemma BeforeHasNoStart(current: string)
    ensures !Contains(Before(current), START)
  {
    match Index(current, START) {
      case Some(i) =>
        forall k: nat ensures !OccursAt(current[..i], START, k) {
          if OccursAt(current[..i], START, k) {
            assert current == current[..i] + current[i..];
            OccursInLeft(current[..i], current[i..], START, k);
            Markers();
          }
        }
      case None =>
    }
  }

  /** A block line, its body and what follows, from the start marker on. */
  function Tail(body: string, suffix: string): string {
    START + "\n" + body + "\n" + END + Rest(suffix)
  }

  function LeadIn(p: string): string {
    if p == "" then "" else p + "\n\n"
  }

  function Rest(suffix: string): string {
    (if suffix == "" then "" else "\n\n" + suffix) + "\n"
  }

  function Shape(p: string, body: string, suffix: string): string {
    LeadIn(p) + Tail(body, suffix)
  }

  lemma BlockIsTrimmed(body: string)
    ensures Trim(START + "\n" + body + "\n" + END) == START + "\n" + body + "\n" + END
  {
    Markers();
    var b := START + "\n" + body + "\n" + END;
    assert b[0] == START[0] && b[|b| - 1] == END[|END| - 1];
    TrimCore([], b, []);
    assert [] + b + [] == b;
  }

  /** A reconciled file is the trimmed prefix, the block and the trimmed suffix. */
  lemma ReconciledShape(current: string, desired: string)
    requires Trim(desired) != ""
    ensures Reconciled(current, desired) == Shape(Trim(Before(current)), Trim(desired), Trim(After(current)))
  {
    BlockIsTrimmed(Trim(desired));
    SpliceShape(Before(current), Trim(desired), After(current));
  }

  lemma SectionIs(out: string, s: string)
    ensures Section(out, s) == if Trim(s) == "" then out else LeadIn(out) + Trim(s)
  {
  }

  lemma SpliceShape(prefix: string, body: string, suffix: string)
    requires var block := START + "\n" + body + "\n" + END; Trim(block) == block
    ensures Splice(prefix, START + "\n" + body + "\n" + END, suffix) == Shape(Trim(prefix), body, Trim(suffix))
  {
    var block, p, s := START + "\n" + body + "\n" + END, Trim(prefix), Trim(suffix);
    assert |block| > 0;
    SectionIs("", prefix);
    assert LeadIn("") + p == p;
    SectionIs(p, block);
    var lead := LeadIn(p) + block;
    SectionIs(lead, suffix);
    SpliceEnds(LeadIn(p), block, s);
  }

  lemma SpliceEnds(lead: string, block: string, s: string)
    requires block != ""
    ensures (if s == "" then lead + block else LeadIn(lead + block) + s) + "\n" == lead + (block + Rest(s))
  {
    if s != "" {
      assert lead + block + "\n\n" + s + "\n" == lead + (block + ("\n\n" + s + "\n"));
    }
  }

  lemma TailOpens(body: string, suffix: string)
    ensures OccursAt(Tail(body, suffix), START, 0) && Index(Tail(body, suffix), START) == Some(0)
  {
    var tail := Tail(body, suffix);
    assert tail[..|START|] == START;
    IndexUnique(tail, START, Some(0));
  }

  lemma NoStartInLine(p: string)
    requires !Contains(p, START)
    ensures !Contains(p + "\n", START)
  {
    Markers();
    ContainsAcrossNewline(p, "", START);
    assert p + "\n" + "" == p + "\n";
  }

  /** The first start marker of a reconciled file opens its block. */
  lemma StartIndex(p: string, body: string, suffix: string)
    requires !Contains(p, START)
    ensures Index(Shape(p, body, suffix), START) == Some(|LeadIn(p)|)
  {
    TailOpens(body, suffix);
    var tail := Tail(body, suffix);
    if p == "" {
      assert "" + tail == tail;
    } else {
      NoStartInLine(p);
      Markers();
      IndexAfterLine(p + "\n", tail, START);
      assert LeadIn(p) + tail == p + "\n" + "\n" + tail;
    }
  }

  /** The end marker that matches it closes the block, when the body holds none. */
  lemma EndIndex(body: string, suffix: string)
    requires !Contains(body, END)
    ensures Index(Tail(body, suffix), END) == Some(|START| + |body| + 2)
  {
    Markers();
    ContainsAcrossNewline(START, body, END);
    var rest := END + Rest(suffix);
    assert rest[..|END|] == END;
    IndexAfterLine(START + "\n" + body, rest, END);
    assert Tail(body, suffix) == START + "\n" + body + "\n" + rest;
  }

  lemma TrimPadded(a: string, s: string, b: string)
    requires Blank(a) && Blank(b) && Trimmed(s)
    ensures Trim(a + s + b) == s
  {
    TrimCore(a, s, b);
  }

  /** The three parts of a file of that shape. */
  lemma PartsOfShape(p: string, body: string, suffix: string)
    requires !Contains(p, START) && !Contains(body, END)
    ensures var out := Shape(p, body, suffix);
      Before(out) == LeadIn(p) && FromStart(out) == Tail(body, suffix)
      && After(out) == Rest(suffix) && Between(out) == "\n" + body + "\n"
  {
    StartIndex(p, body, suffix);
    EndIndex(body, suffix);
    Markers();
    var tail, j := Tail(body, suffix), |START| + |body| + 2;
    assert tail == START + ("\n" + body + "\n") + (END + Rest(suffix));
    assert tail[|START|..j] == "\n" + body + "\n";
    assert tail[j + |END|..] == Rest(suffix);
  }

  lemma TrimRest(s: string)
    requires Trimmed(s)
    ensures Trim(Rest(s)) == s && Trim(LeadIn(s)) == s
  {
    if s == "" {
      TrimPadded("", "", "\n");
      assert "" + "" + "\n" == Rest(s);
    } else {
      TrimPadded("\n\n", s, "\n");
      TrimPadded("", s, "\n\n");
      assert "" + s + "\n\n" == LeadIn(s);
    }
  }

  /** The three parts of a reconciled file. */
  lemma PartsOfReconciled(current: string, desired: string)
    requires Trim(desired) != "" && !Contains(Trim(desired), END)
    ensures var out := Reconciled(current, desired);
      && Trim(Before(out)) == Trim(Before(current))
      && Trim(After(out)) == Trim(After(current))
      && Between(out) == "\n" + Trim(desired) + "\n"
  {
    var p, s := Trim(Before(current)), Trim(After(current));
    ReconciledShape(current, desired);
    BeforeHasNoStart(current);
    TrimIdempotent(Before(current));
    TrimIdempotent(After(current));
    PartsOfShape(p, Trim(desired), s);
    TrimRest(p);
    TrimRest(s);
  }

  /** For any file: the agent's text around the block survives, and the block reads back as the trimmed body. */
  lemma {:induction false} ReconcilePreservesAndExtracts(current: string, desired: string)
    requires Trim(desired) != "" && NoMarker(Trim(desired))
    ensures var out := Reconciled(current, desired);
      && Trim(Before(out)) == Trim(Before(current))
      && Trim(After(out)) == Trim(After(current))
      && Trim(Between(out)) == Trim(desired)
  {
    TrimIdempotent(desired);
    PartsOfReconciled(current, desired);
    TrimPadded("\n", Trim(desired), "\n");
  }

  /** No end marker lies before the first of the body. */
  lemma NoEarlierEnd(body: string, rest: string, k: nat, i: nat)
    requires OccursAt(body, END, k) && (forall j: nat :: j < k ==> !OccursAt(body, END, j)) && i < |START| + 1 + k
    ensures !OccursAt(START + "\n" + (body + rest), END, i)
  {
    Markers();
    if OccursAt(START + "\n" + (body + rest), END, i) {
      NoStraddle(START, body + rest, END, i);
      OccursInLeft(body, rest, END, i - |START| - 1);
    }
  }

  /** The end marker matched is the first in the body, when the body itself holds one. */
  lemma EmbeddedEndIndex(body: string, suffix: string) returns (k: nat)
    requires Contains(body, END)
    ensures k + |END| <= |body| && Index(Tail(body, suffix), END) == Some(|START| + 1 + k)
  {
    k := Index(body, END).value;
    var tail, rest := Tail(body, suffix), "\n" + END + Rest(suffix);
    assert tail == START + "\n" + (body + rest);
    forall i: nat | i < |START| + 1 + k ensures !OccursAt(tail, END, i) {
      NoEarlierEnd(body, rest, k, i);
    }
    OccursInLeft(body, rest, END, k);
    OccursInRight(START + "\n", body + rest, END, |START| + 1 + k);
    IndexUnique(tail, END, Some(|START| + 1 + k));
  }

  lemma AfterEmbeddedEnd(p: string, body: string, suffix: string) returns (x: string)
    requires !Contains(p, START) && Contains(body, END)
    ensures After(Shape(p, body, suffix)) == x + END + Rest(suffix)
  {
    StartIndex(p, body, suffix);
    var k := EmbeddedEndIndex(body, suffix);
    var lead, tail, n := LeadIn(p), Tail(body, suffix), |START| + 1 + k + |END|;
    DropInto(lead, tail, |lead|);
    assert FromStart(lead + tail) == tail;
    x := BodyEnd(body, suffix, n);
  }

  /** Dropping less than the first of two strings. */
  lemma DropInto(a: string, b: string, n: nat)
    requires n <= |a|
    ensures (a + b)[n..] == a[n..] + b
  {
  }

  lemma BodyEnd(body: string, suffix: string, n: nat) returns (x: string)
    requires n <= |START| + 1 + |body|
    ensures Tail(body, suffix)[n..] == x + END + Rest(suffix)
  {
    var a, b := START + "\n" + body + "\n", END + Rest(suffix);
    assert Tail(body, suffix) == a + b;
    DropInto(a, b, n);
    x := a[n..];
  }

  /** Text that ends in an end marker and the rest is longer than the suffix, trimmed or not. */
  lemma TrimKeepsEnd(x: string, suffix: string)
    requires Trimmed(suffix)
    ensures |Trim(x + END + Rest(suffix))| > |suffix|
  {
    var all := x + END + Rest(suffix);
    var i, j := TrimSplits(all);
    Markers();
    var last := if suffix == "" then |x| + |END| - 1 else |x| + |END| + 2 + |suffix| - 1;
    assert all[|x|] == '<';
    assert all[last] == if suffix == "" then '>' else suffix[|suffix| - 1];
    BlankEnds(all, i, j, |x|);
    BlankEnds(all, i, j, last);
  }

  /** For any file: reconciling twice is reconciling once exactly when the body holds no end marker. */
  lemma {:induction false} ReconcileIsIdempotent(current: string, desired: string)
    requires Trim(desired) != ""
    ensures Reconciled(Reconciled(current, desired), desired) == Reconciled(current, desired) <==> !Contains(Trim(desired), END)
  {
    var out, p, b, s := Reconciled(current, desired), Trim(Before(current)), Trim(desired), Trim(After(current));
    ReconciledShape(current, desired);
    ReconciledShape(out, desired);
    if !Contains(b, END) {
      PartsOfReconciled(current, desired);
    } else {
      BeforeHasNoStart(current);
      TrimIdempotent(Before(current));
      TrimIdempotent(After(current));
      StartIndex(p, b, s);
      assert Before(out) == LeadIn(p);
      TrimRest(p);
      var x := AfterEmbeddedEnd(p, b, s);
      TrimKeepsEnd(x, s);
      ShapeGrows(p, b, s, Trim(After(out)));
    }
  }

  lemma ShapeGrows(p: string, body: string, s: string, s': string)
    requires |s'| > |s|
    ensures |Shape(p, body, s')| > |Shape(p, body, s)|
  {
  }

  // ---- the limits ------------------------------------------------------------

  ghost predicate Accepts(value: string, limit: nat) {
    |Trim(value)| <= limit && NoMarker(Trim(value))
  }

  ghost predicate Validate(value: string) {
    Accepts(value, MAX_CHARS - PERSONA_RESERVE)
  }

  ghost predicate ValidateRendered(body: string) {
    Accepts(body, MAX_CHARS)
  }

  function Lead(persona: string): string {
    Trim(persona) + "\n\n" + HEADER + "\n\n"
  }

  function ManagedBlockBody(persona: string, text: string): string {
    if Trim(text) == "" then Trim(persona) else Lead(persona) + Trim(text)
  }

  lemma HeaderHasNoMarker()
    ensures NoMarker(HEADER) && NoMarker("")
  {
    Markers();
    assert |HEADER| == 31;
  }

  lemma JoinNoMarker(a: string, b: string)
    requires NoMarker(a) && NoMarker(b)
    ensures NoMarker(a + "\n\n" + b)
  {
    Markers();
    HeaderHasNoMarker();
    ContainsAcrossNewline("", b, START);
    ContainsAcrossNewline("", b, END);
    ContainsAcrossNewline(a, "" + "\n" + b, START);
    ContainsAcrossNewline(a, "" + "\n" + b, END);
    assert a + "\n" + ("" + "\n" + b) == a + "\n\n" + b;
  }

  /**
    Any instruction set the API accepts composes to a body the renderer accepts,
    when the persona holds no marker and fits the reserve with its heading and
    separators.
  */
  lemma ValidateImpliesValidateRendered(persona: string, text: string)
    requires Validate(text)
    requires NoMarker(Trim(persona)) && |Lead(persona)| <= PERSONA_RESERVE
    ensures ValidateRendered(ManagedBlockBody(persona, text))
  {
    var body := ManagedBlockBody(persona, text);
    TrimIdempotent(body);
    HeaderHasNoMarker();
    if Trim(text) != "" {
      JoinNoMarker(Trim(persona), HEADER);
      JoinNoMarker(Trim(persona) + "\n\n" + HEADER, Trim(text));
      assert body == Trim(persona) + "\n\n" + HEADER + "\n\n" + Trim(text);
    }
  }

  // ---- the poll --------------------------------------------------------------

  method ValidateAgainst(value: string, limit: nat) returns (ok: bool)
    ensures ok == Accepts(value, limit)
    ensures ok <==> |Trim(value)| <= limit && forall i: nat :: !OccursAt(Trim(value), START, i) && !OccursAt(Trim(value), END, i)
  {
    var v := Trim(value);
    ok := |v| <= limit && Index(v, START).None? && Index(v, END).None?;
    assert forall p :: Index(v, p).Some? ==> OccursAt(v, p, Index(v, p).value);
  }

  /** What stands at the file's path. */
  datatype Entry = Missing | Regular(text: string) | Symlink | Special

  /** A symlink reads as absent; anything else that is no regular file is an error. */
  function ReadNoFollow(e: Entry, readable: bool): Option<string> {
    match e
    case Regular(text) => if readable then Some(text) else None
    case Special => None
    case _ => if readable then Some("") else None
  }

  /** The agent's workspace, of which only AGENTS.md matters here. */
  class Workspace {
    var file: Entry

    constructor (file: Entry)
      ensures this.file == file
    {
      this.file := file;
    }

    /**
      syncAgentsFile: a rejected body is skipped, an unchanged file is not rewritten,
      and a write replaces whatever stood there by a regular file.
    */
    method SyncAgentsFile(persona: string, text: string, readable: bool, writable: bool) returns (ok: bool)
      modifies this
      ensures var body, read := ManagedBlockBody(persona, text), if old(file).Regular? then old(file).text else "";
        if !ValidateRendered(body) then ok && file == old(file)
        else if !readable || old(file).Special? then !ok && file == old(file)
        else if Reconciled(read, body) == read then ok && file == old(file)
        else ok == writable && file == if writable then Regular(Reconciled(read, body)) else old(file)
    {
      var desired := ManagedBlockBody(persona, text);
      var valid := ValidateAgainst(desired, MAX_CHARS);
      if !valid {
        return true;
      }
      var read := ReadNoFollow(file, readable);
      if read.None? {
        return false;
      }
      var target := ReconcileManagedBlock(read.value, desired);
      if target == read.value {
        return true;
      }
      if !writable {
        return false;
      }
      file := Regular(target);
      ok := true;
    }
  }

  /** The supervisor's own check makes polling settle: whatever it accepts and writes, it does not write again. */
  lemma {:induction false} AcceptedBodiesSettle(current: string, body: string)
    requires ValidateRendered(body) && Trim(body) != ""
    ensures Reconciled(Reconciled(current, body), body) == Reconciled(current, body)
  {
    ReconcileIsIdempotent(current, body);
  }
}

/**
  The browser's reader of the chat stream (web/src/api/sse.ts) against the
  server's writer (writeSSE and the ping comment).
*/
module Sse {
  import opened Common
  import opened Text

  /** `typ` is "" when the decoded object carries none. */
  datatype Event = Event(typ: string, payload: string)

  /** JSON as both ends use it: `decode` is JSON.parse of the trimmed text, None where it throws. */
  datatype Json = Json(encode: Event -> string, decode: string -> Option<Event>)

  /** Encoding never holds a raw newline and decodes to the same event. */
  ghost predicate Faithful(json: Json) {
    forall ev: Event :: '\n' !in json.encode(ev) && json.decode(" " + json.encode(ev)) == Some(ev)
  }

  datatype End = Done | Aborted | Failed(error: string)

  datatype Response =
    | Rejected(cancelled: bool, error: string)
    | NotOk(handled: bool, error: string)
    | NoBody
    | Body(chunks: seq<string>, end: End)

  /** What the caller's handlers see: an event under its name, a synthesized terminal, or the HTTP error handler. */
  datatype Seen = Delivered(name: string, ev: Event) | Terminal(error: string) | HttpError

  const DONE := "message_done"
  const BREAK := "\n\n"

  // ---- blocks ----------------------------------------------------------------

  datatype Cut = Cut(blocks: seq<string>, rest: string)

  /** The complete blocks of a text, and what follows the last blank line. */
  function CutOf(text: string): Cut
    decreases |text|
  {
    match Index(text, BREAK)
    case None => Cut([], text)
    case Some(i) => var c := CutOf(text[i + 2..]); Cut([text[..i]] + c.blocks, c.rest)
  }

  lemma IndexOfAppend(a: string, b: string, i: nat)
    requires Index(a, BREAK) == Some(i)
    ensures Index(a + b, BREAK) == Some(i)
  {
    OccursInLeft(a, b, BREAK, i);
    forall k: nat | k < i ensures !OccursAt(a + b, BREAK, k) {
      OccursInLeft(a, b, BREAK, k);
    }
    IndexUnique(a + b, BREAK, Some(i));
  }

  function Joined(c: Cut, d: Cut): Cut {
    Cut(c.blocks + d.blocks, d.rest)
  }

  lemma {:induction false} CutStep(a: string, i: nat)
    requires Index(a, BREAK) == Some(i)
    ensures i + 2 <= |a| && CutOf(a) == Joined(Cut([a[..i]], ""), CutOf(a[i + 2..]))
  {
    assert |BREAK| == 2 && OccursAt(a, BREAK, i);
    var c := CutOf(a[i + 2..]);
    assert CutOf(a) == Cut([a[..i]] + c.blocks, c.rest);
  }

  lemma JoinedAssociates(c: Cut, d: Cut, e: Cut)
    ensures Joined(Joined(c, d), e) == Joined(c, Joined(d, e))
  {
    assert c.blocks + d.blocks + e.blocks == c.blocks + (d.blocks + e.blocks);
  }

  lemma AppendSlices(a: string, b: string, i: nat)
    requires i + 2 <= |a|
    ensures (a + b)[..i] == a[..i] && (a + b)[i + 2..] == a[i + 2..] + b
  {
  }

  /** Text that arrives later only adds to what is left over. */
  lemma {:induction false} CutOfAppend(a: string, b: string)
    ensures CutOf(a + b) == Joined(CutOf(a), CutOf(CutOf(a).rest + b))
    decreases |a|
  {
    var at := Index(a, BREAK);
    if at.None? {
      assert [] + CutOf(a + b).blocks == CutOf(a + b).blocks;
    } else {
      var i := at.value;
      CutStep(a, i);
      CutOfAppend(a[i + 2..], b);
      IndexOfAppend(a, b, i);
      AppendSlices(a, b, i);
      CutStep(a + b, i);
      JoinedAssociates(Cut([a[..i]], ""), CutOf(a[i + 2..]), CutOf(CutOf(a).rest + b));
    }
  }

  /** The rest holds no complete block. */
  lemma {:induction false} RestIsIncomplete(text: string)
    ensures Index(CutOf(text).rest, BREAK) == None
    decreases |text|
  {
    if Index(text, BREAK).Some? {
      RestIsIncomplete(text[Index(text, BREAK).value + 2..]);
    }
  }

  // ---- lines -----------------------------------------------------------------

  /** block.split('\n'). */
  function Lines(s: string): (lines: seq<string>)
    ensures lines != []
    decreases |s|
  {
    match Index(s, "\n")
    case None => [s]
    case Some(i) => [s[..i]] + Lines(s[i + 1..])
  }

  predicate IsData(line: string) {
    "data:" <= line
  }

  function FirstData(lines: seq<string>): Option<string> {
    if lines == [] then None else if IsData(lines[0]) then Some(lines[0]) else FirstData(lines[1..])
  }

  method FindData(lines: seq<string>) returns (line: Option<string>)
    ensures line == FirstData(lines)
    ensures line == None <==> forall k :: 0 <= k < |lines| ==> !("data:" <= lines[k])
    ensures line.Some? ==> exists k ::
      0 <= k < |lines| && lines[k] == line.value && "data:" <= lines[k] && forall j :: 0 <= j < k ==> !("data:" <= lines[j])
  {
    var i := 0;
    while i < |lines|
      invariant 0 <= i <= |lines| && FirstData(lines) == FirstData(lines[i..])
      invariant forall j :: 0 <= j < i ==> !("data:" <= lines[j])
    {
      if IsData(lines[i]) {
        return Some(lines[i]);
      }
      i := i + 1;
    }
    line := None;
  }

  /** The event a block carries: None for comments and malformed frames. */
  function EventOf(json: Json, block: string): Option<Event> {
    match FirstData(Lines(block))
    case None => None
    case Some(line) => if IsData(line) then json.decode(line[5..]) else None
  }

  lemma {:induction false} FirstDataIsData(lines: seq<string>)
    ensures FirstData(lines).Some? ==> IsData(FirstData(lines).value)
  {
    if lines != [] {
      FirstDataIsData(lines[1..]);
    }
  }

  function Name(ev: Event): string {
    if ev.typ == "" then "message" else ev.typ
  }

  function EventsOf(json: Json, blocks: seq<string>): seq<Event> {
    if blocks == [] then []
    else
      EventsOf(json, blocks[..|blocks| - 1]) +
      match EventOf(json, blocks[|blocks| - 1]) { case Some(ev) => [ev] case None => [] }
  }

  lemma {:induction false} EventsOfAppend(json: Json, a: seq<string>, b: seq<string>)
    ensures EventsOf(json, a + b) == EventsOf(json, a) + EventsOf(json, b)
  {
    if b == [] {
      assert a + b == a;
    } else {
      var n := |b| - 1;
      EventsOfAppend(json, a, b[..n]);
      assert (a + b)[..|a + b| - 1] == a + b[..n];
    }
  }

  function Deliveries(events: seq<Event>): seq<Seen> {
    seq(|events|, i requires 0 <= i < |events| => Delivered(Name(events[i]), events[i]))
  }

  predicate HasDone(events: seq<Event>) {
    exists i :: 0 <= i < |events| && events[i].typ == DONE
  }

  // ---- the reader ------------------------------------------------------------

  function Closing(events: seq<Event>, end: End): seq<Seen> {
    if HasDone(events) || end.Aborted? then []
    else [Terminal(if end.Failed? && end.error != "" then end.error else "connection closed before the turn finished")]
  }

  /** What a body delivers: the events of its text, then the terminal it lacks. */
  function Streamed(json: Json, text: string, end: End): seq<Seen> {
    var events := EventsOf(json, CutOf(text).blocks);
    Deliveries(events) + Closing(events, end)
  }

  function Concat(chunks: seq<string>): string {
    if chunks == [] then "" else Concat(chunks[..|chunks| - 1]) + chunks[|chunks| - 1]
  }

  /** One block: its event, if it carries one, is delivered. */
  method DeliverBlock(json: Json, block: string, seen0: seq<Seen>, sawDone0: bool) returns (seen: seq<Seen>, sawDone: bool)
    ensures var events := EventsOf(json, [block]);
      seen == seen0 + Deliveries(events) && sawDone == (sawDone0 || HasDone(events))
  {
    seen, sawDone := seen0, sawDone0;
    assert [block][..0] == [];
    var data := FindData(Lines(block));
    FirstDataIsData(Lines(block));
    if data.None? {
      return;
    }
    var parsed := json.decode(data.value[5..]);
    if parsed.None? {
      return;
    }
    var ev := parsed.value;
    DeliveriesSnoc([], ev);
    assert [] + [ev] == [ev];
    if ev.typ == DONE {
      sawDone := true;
    }
    seen := seen + [Delivered(Name(ev), ev)];
  }

  /** The block loop: everything complete in `buf` is delivered, the remainder is kept. */
  method DrainBuffer(json: Json, buf0: string, seen0: seq<Seen>, sawDone0: bool) returns (buf: string, seen: seq<Seen>, sawDone: bool)
    ensures buf == CutOf(buf0).rest
    ensures var events := EventsOf(json, CutOf(buf0).blocks);
      seen == seen0 + Deliveries(events) && sawDone == (sawDone0 || HasDone(events))
  {
    buf, seen, sawDone := buf0, seen0, sawDone0;
    ghost var done := Cut([], "");
    assert [] + CutOf(buf0).blocks == CutOf(buf0).blocks;
    while true
      invariant CutOf(buf0) == Joined(done, CutOf(buf))
      invariant seen == seen0 + Deliveries(EventsOf(json, done.blocks))
      invariant sawDone == (sawDone0 || HasDone(EventsOf(json, done.blocks)))
      decreases |buf|
    {
      var idx := Index(buf, BREAK);
      if idx.None? {
        break;
      }
      CutStep(buf, idx.value);
      var block := buf[..idx.value];
      buf := buf[idx.value + 2..];
      JoinedAssociates(done, Cut([block], ""), CutOf(buf));
      EventsOfAppend(json, done.blocks, [block]);
      DeliveriesAppend(EventsOf(json, done.blocks), EventsOf(json, [block]));
      done := Joined(done, Cut([block], ""));
      seen, sawDone := DeliverBlock(json, block, seen, sawDone);
    }
    assert done.blocks + [] == done.blocks;
  }

  lemma DeliveriesSnoc(events: seq<Event>, ev: Event)
    ensures Deliveries(events + [ev]) == Deliveries(events) + [Delivered(Name(ev), ev)]
    ensures HasDone(events + [ev]) <==> HasDone(events) || ev.typ == DONE
  {
    var all := events + [ev];
    assert all[|events|] == ev;
    assert forall i :: 0 <= i < |events| ==> all[i] == events[i];
  }

  lemma DeliveriesAppend(a: seq<Event>, b: seq<Event>)
    ensures Deliveries(a + b) == Deliveries(a) + Deliveries(b)
    ensures HasDone(a + b) <==> HasDone(a) || HasDone(b)
  {
    var all := a + b;
    assert forall i :: 0 <= i < |a| ==> all[i] == a[i];
    assert forall i :: 0 <= i < |b| ==> all[|a| + i] == b[i];
  }

  /** For every way of cutting the text into chunks, the result depends on the text alone. */
  method ReadBody(json: Json, chunks: seq<string>, end: End) returns (seen: seq<Seen>)
    ensures seen == Streamed(json, Concat(chunks), end)
  {
    seen := [];
    var buf, sawDone, i := "", false, 0;
    assert chunks[..0] == [];
    while i < |chunks|
      invariant 0 <= i <= |chunks|
      invariant var c := CutOf(Concat(chunks[..i]));
        && buf == c.rest && seen == Deliveries(EventsOf(json, c.blocks)) && sawDone == HasDone(EventsOf(json, c.blocks))
    {
      ghost var before := CutOf(Concat(chunks[..i]));
      assert chunks[..i + 1][..i] == chunks[..i];
      CutOfAppend(Concat(chunks[..i]), chunks[i]);
      ghost var more := CutOf(buf + chunks[i]).blocks;
      EventsOfAppend(json, before.blocks, more);
      DeliveriesAppend(EventsOf(json, before.blocks), EventsOf(json, more));
      buf := buf + chunks[i];
      buf, seen, sawDone := DrainBuffer(json, buf, seen, sawDone);
      i := i + 1;
    }
    assert chunks[..i] == chunks;
    if !sawDone && !end.Aborted? {
      var streamError := if end.Failed? then end.error else "";
      seen := seen + [Terminal(if streamError != "" then streamError else "connection closed before the turn finished")];
    }
  }

  function Seeing(json: Json, resp: Response): seq<Seen> {
    match resp
    case Rejected(cancelled, error) => if cancelled then [] else [Terminal(error)]
    case NotOk(handled, error) => if handled then [HttpError] else [Terminal(error)]
    case NoBody => [Terminal("streaming not supported")]
    case Body(chunks, end) => Streamed(json, Concat(chunks), end)
  }

  method StreamSSE(json: Json, resp: Response) returns (seen: seq<Seen>)
    ensures seen == Seeing(json, resp)
    ensures resp.Rejected? ==> seen == if resp.cancelled then [] else [Terminal(resp.error)]
    ensures resp.NotOk? ==> seen == [if resp.handled then HttpError else Terminal(resp.error)]
    ensures resp.NoBody? ==> seen == [Terminal("streaming not supported")]
  {
    if resp.Rejected? {
      if resp.cancelled {
        return [];
      }
      return [Terminal(resp.error)];
    }
    if resp.NotOk? {
      if resp.handled {
        return [HttpError];
      }
      return [Terminal(resp.error)];
    }
    if resp.NoBody? {
      return [Terminal("streaming not supported")];
    }
    seen := ReadBody(json, resp.chunks, resp.end);
  }

  predicate Cancelled(resp: Response) {
    (resp.Rejected? && resp.cancelled) || (resp.Body? && resp.end.Aborted?)
  }

  predicate Ends(s: Seen) {
    s.Terminal? || (s.Delivered? && s.ev.typ == DONE)
  }

  /**
    Whatever the server sends and however the stream ends, a call that was not
    cancelled and not taken by the HTTP handler shows its caller a terminal; a
    synthesized one comes last, once, and only when no message_done was parsed.
  */
  lemma EveryCallEnds(json: Json, resp: Response)
    ensures var seen := Seeing(json, resp);
      && (!Cancelled(resp) ==> exists i :: 0 <= i < |seen| && (Ends(seen[i]) || seen[i].HttpError?))
      && (forall i :: 0 <= i < |seen| && seen[i].Terminal? ==> i == |seen| - 1 && !Cancelled(resp))
      && (forall i, j :: 0 <= i < |seen| && 0 <= j < |seen| && seen[i].Terminal? ==> !seen[j].Delivered? || seen[j].ev.typ != DONE)
  {
    var seen := Seeing(json, resp);
    if resp.Body? {
      var events := EventsOf(json, CutOf(Concat(resp.chunks)).blocks);
      assert forall i :: 0 <= i < |events| ==> seen[i] == Delivered(Name(events[i]), events[i]);
      if HasDone(events) {
        var i :| 0 <= i < |events| && events[i].typ == DONE;
        assert Ends(seen[i]);
      } else if !resp.end.Aborted? {
        assert Ends(seen[|events|]);
      }
    } else if !Cancelled(resp) {
      assert Ends(seen[0]) || seen[0].HttpError?;
    }
  }

  // ---- the writer ------------------------------------------------------------

  datatype Item = Frame(ev: Event) | Ping

  function Block(json: Json, item: Item): string {
    match item
    case Frame(ev) => "event: " + ev.typ + "\n" + ("data: " + json.encode(ev))
    case Ping => ": ping"
  }

  function Wire(json: Json, items: seq<Item>): string {
    if items == [] then "" else Wire(json, items[..|items| - 1]) + (Block(json, items[|items| - 1]) + BREAK)
  }

  function Sent(items: seq<Item>): seq<Event> {
    if items == [] then []
    else Sent(items[..|items| - 1]) + if items[|items| - 1].Frame? then [items[|items| - 1].ev] else []
  }

  /** Event types are fixed words of the server, so a type holds no newline. */
  predicate OneLine(item: Item) {
    item.Frame? ==> '\n' !in item.ev.typ
  }

  lemma LinesOfTwo(a: string, b: string)
    requires '\n' !in a && '\n' !in b
    ensures Lines(a + "\n" + b) == [a, b]
  {
    var s := a + "\n" + b;
    assert s[|a|..|a| + 1] == "\n";
    forall k: nat | k < |a| ensures !OccursAt(s, "\n", k) {
      assert s[k] == a[k];
      if OccursAt(s, "\n", k) {
        CharOfOccurrence(s, "\n", k, k);
      }
    }
    IndexUnique(s, "\n", Some(|a|));
    assert s[..|a|] == a && s[|a| + 1..] == b;
    OneLineText(b);
  }

  lemma OneLineText(s: string)
    requires '\n' !in s
    ensures Lines(s) == [s]
  {
    forall k: nat ensures !OccursAt(s, "\n", k) {
      if OccursAt(s, "\n", k) {
        CharOfOccurrence(s, "\n", k, k);
      }
    }
    IndexUnique(s, "\n", None);
  }

  /** A frame reads back as its event, a ping as nothing. */
  lemma BlockReadsBack(json: Json, item: Item)
    requires Faithful(json) && OneLine(item)
    ensures EventOf(json, Block(json, item)) == if item.Frame? then Some(item.ev) else None
  {
    if item.Frame? {
      var a, b := "event: " + item.ev.typ, "data: " + json.encode(item.ev);
      LinesOfTwo(a, b);
      assert a[0] == 'e';
      assert [a, b][1..] == [b];
      assert b[5..] == " " + json.encode(item.ev);
      assert FirstData([b]) == Some(b);
    } else {
      OneLineText(": ping");
      assert ": ping"[0] == ':';
      assert [": ping"][1..] == [];
    }
  }

  /** One terminated block is one block and leaves nothing over. */
  lemma BlockCuts(json: Json, item: Item)
    requires Faithful(json) && OneLine(item)
    ensures CutOf(Block(json, item) + BREAK) == Cut([Block(json, item)], "")
  {
    var b := Block(json, item);
    var s := b + BREAK;
    assert s[|b|..|b| + 2] == BREAK;
    assert b[|b| - 1] != '\n';
    forall k: nat | k < |b| ensures !OccursAt(s, BREAK, k) {
      if OccursAt(s, BREAK, k) {
        NewlinesInBlock(json, item, k);
      }
    }
    IndexUnique(s, BREAK, Some(|b|));
    assert s[..|b|] == b && s[|b| + 2..] == "";
    IndexUnique("", BREAK, None);
  }

  /** Text whose newlines are never two together. */
  predicate NoBlankLine(b: string) {
    forall k :: 0 <= k < |b| - 1 ==> b[k] != '\n' || b[k + 1] != '\n'
  }

  lemma BlockHasNoBlankLine(json: Json, item: Item)
    requires Faithful(json) && OneLine(item)
    ensures NoBlankLine(Block(json, item))
  {
    if item.Frame? {
      var a, c := "event: " + item.ev.typ, "data: " + json.encode(item.ev);
      TwoLines(a, c);
    }
  }

  lemma TwoLines(a: string, c: string)
    requires '\n' !in a && '\n' !in c
    ensures NoBlankLine(a + "\n" + c)
  {
    var b := a + "\n" + c;
    assert forall i :: 0 <= i < |a| ==> b[i] == a[i];
    assert forall i :: 0 <= i < |c| ==> b[|a| + 1 + i] == c[i];
  }

  lemma NewlinesInBlock(json: Json, item: Item, k: nat)
    requires Faithful(json) && OneLine(item) && k < |Block(json, item)|
    requires Block(json, item)[|Block(json, item)| - 1] != '\n'
    ensures !OccursAt(Block(json, item) + BREAK, BREAK, k)
  {
    var b := Block(json, item);
    var s := b + BREAK;
    BlockHasNoBlankLine(json, item);
    assert s[k] == b[k] && (k + 1 < |b| ==> s[k + 1] == b[k + 1]);
    assert s[k..k + 2][0] == s[k] && s[k..k + 2][1] == s[k + 1];
  }

  lemma {:induction false} WireCuts(json: Json, items: seq<Item>)
    requires Faithful(json) && forall i :: 0 <= i < |items| ==> OneLine(items[i])
    ensures CutOf(Wire(json, items)).rest == "" && EventsOf(json, CutOf(Wire(json, items)).blocks) == Sent(items)
  {
    if items == [] {
      IndexUnique("", BREAK, None);
    } else {
      var n := |items| - 1;
      var before, item := Wire(json, items[..n]), items[n];
      WireCuts(json, items[..n]);
      CutOfAppend(before, Block(json, item) + BREAK);
      assert "" + (Block(json, item) + BREAK) == Block(json, item) + BREAK;
      BlockCuts(json, item);
      BlockReadsBack(json, item);
      EventsOfAppend(json, CutOf(before).blocks, [Block(json, item)]);
      assert [Block(json, item)][..0] == [];
    }
  }

  /**
    Any sequence of frames and pings, cut into chunks anywhere, is delivered as
    exactly those events in order, with one terminal added when the stream ended
    uncancelled without a message_done.
  */
  lemma {:induction false} RoundTrip(json: Json, items: seq<Item>, chunks: seq<string>, end: End)
    requires Faithful(json) && forall i :: 0 <= i < |items| ==> OneLine(items[i])
    requires Concat(chunks) == Wire(json, items)
    ensures Seeing(json, Body(chunks, end)) == Deliveries(Sent(items)) + Closing(Sent(items), end)
  {
    WireCuts(json, items);
  }

  ghost predicate SeesFirst(json: Json, items: seq<Item>, chunks: seq<string>, end: End, n: nat)
    requires n <= |Sent(items)|
  {
    Seeing(json, Body(chunks, end)) == Deliveries(Sent(items)[..n]) + Closing(Sent(items)[..n], end)
  }

  /** A connection lost at any character delivers a prefix of the events sent, never a torn one. */
  lemma TruncationKeepsAPrefix(json: Json, items: seq<Item>, chunks: seq<string>, lost: string, error: string)
    requires Faithful(json) && forall i :: 0 <= i < |items| ==> OneLine(items[i])
    requires Concat(chunks) + lost == Wire(json, items)
    ensures exists n: nat :: n <= |Sent(items)| && SeesFirst(json, items, chunks, Failed(error), n)
  {
    WireCuts(json, items);
    CutOfAppend(Concat(chunks), lost);
    var a := CutOf(Concat(chunks)).blocks;
    var b := CutOf(CutOf(Concat(chunks)).rest + lost).blocks;
    EventsOfAppend(json, a, b);
    var got := EventsOf(json, a);
    assert Sent(items)[..|got|] == got;
    assert SeesFirst(json, items, chunks, Failed(error), |got|);
  }
}

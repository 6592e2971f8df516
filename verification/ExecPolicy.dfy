/**
  The exec policy of one user's gateway (internal/server/approvals.go): PreTurn
  applies the resolved allowlist by get-modify-set with compare-and-set, remembers
  the revision it applied, and only then lets a gated turn start.
*/
module ExecPolicy {
  import opened Common

  datatype Rule = Rule(pattern: string, argPattern: string)

  /** The typed fields of the approvals file; `rest` stands for those the platform never sets. */
  datatype AgentPolicy = AgentPolicy(allowlist: seq<Rule>, rest: string)

  datatype File = File(rest: string, agents: map<string, AgentPolicy>)

  datatype Policy = NoPolicy | Allowlist | AlwaysAsk | Unrecognised

  datatype Config = Config(policy: Policy, allow: seq<Rule>, rev: string)

  const MAIN := "main"
  const ATTEMPTS := 3

  // ---- one get-modify-set round ----------------------------------------------

  function Entries(rules: seq<Rule>): seq<Rule> {
    if rules == [] then []
    else Entries(rules[..|rules| - 1]) + if rules[|rules| - 1].pattern == "" then [] else [rules[|rules| - 1]]
  }

  method ToEntries(rules: seq<Rule>) returns (out: seq<Rule>)
    ensures out == Entries(rules)
  {
    out := [];
    for i := 0 to |rules|
      invariant out == Entries(rules[..i])
    {
      assert rules[..i + 1][..i] == rules[..i];
      if rules[i].pattern != "" {
        out := out + [rules[i]];
      }
    }
    assert rules[..|rules|] == rules;
  }

  /** AlwaysAsk is a guarded session with an empty allowlist: every command misses. */
  function ListFor(cfg: Config): seq<Rule> {
    if cfg.policy.AlwaysAsk? then [] else Entries(cfg.allow)
  }

  /** `list` is the rules that have a pattern, each once, in their order: `at` says where each stands among the rules. */
  ghost predicate PatternedAt(rules: seq<Rule>, list: seq<Rule>, at: seq<nat>) {
    && |at| == |list|
    && (forall k :: 0 <= k < |at| ==> at[k] < |rules| && rules[at[k]] == list[k] && list[k].pattern != "")
    && (forall j, k :: 0 <= j < k < |at| ==> at[j] < at[k])
    && (forall i :: 0 <= i < |rules| && rules[i].pattern != "" ==> i in at)
  }

  ghost predicate Patterned(rules: seq<Rule>, list: seq<Rule>) {
    exists at :: PatternedAt(rules, list, at)
  }

  /** What a gated policy asks for: nothing pre-approved under AlwaysAsk, otherwise exactly the rules with a pattern. */
  ghost predicate Prescribes(cfg: Config, list: seq<Rule>) {
    if cfg.policy.AlwaysAsk? then list == [] else Patterned(cfg.allow, list)
  }

  lemma PatternedSnoc(rules: seq<Rule>, list: seq<Rule>, at: seq<nat>, x: Rule)
    requires PatternedAt(rules, list, at)
    ensures x.pattern == "" ==> PatternedAt(rules + [x], list, at)
    ensures x.pattern != "" ==> PatternedAt(rules + [x], list + [x], at + [|rules|])
  {
    var all, at' := rules + [x], if x.pattern == "" then at else at + [|rules|];
    forall i | 0 <= i < |all| && all[i].pattern != "" ensures i in at' {
      if i < |rules| {
        var k :| 0 <= k < |at| && at[k] == i;
        assert at'[k] == i;
      } else {
        assert at'[|at|] == i;
      }
    }
  }

  lemma {:induction false} EntriesArePatterned(rules: seq<Rule>) returns (at: seq<nat>)
    ensures PatternedAt(rules, Entries(rules), at)
  {
    if rules == [] {
      at := [];
    } else {
      var n := |rules| - 1;
      var before := EntriesArePatterned(rules[..n]);
      PatternedSnoc(rules[..n], Entries(rules[..n]), before, rules[n]);
      assert rules[..n] + [rules[n]] == rules && Entries(rules[..n]) + [] == Entries(rules[..n]);
      at := if rules[n].pattern == "" then before else before + [n];
    }
  }

  lemma {:induction false} OnePatternedList(rules: seq<Rule>, list: seq<Rule>, at: seq<nat>)
    requires PatternedAt(rules, list, at)
    ensures list == Entries(rules)
  {
    if rules == [] {
      NothingFromNothing(rules, list, at);
    } else {
      var n := |rules| - 1;
      if rules[n].pattern == "" {
        BlankIsNotLast(rules, list, at);
        OnePatternedList(rules[..n], list, at);
      } else {
        var m := LastIsLast(rules, list, at);
        OnePatternedList(rules[..n], list[..m], at[..m]);
        assert list == list[..m] + [list[m]];
      }
    }
  }

  lemma NothingFromNothing(rules: seq<Rule>, list: seq<Rule>, at: seq<nat>)
    requires PatternedAt(rules, list, at)
    ensures list != [] ==> rules != []
  {
    if list != [] {
      assert at[0] < |rules|;
    }
  }

  lemma BlankIsNotLast(rules: seq<Rule>, list: seq<Rule>, at: seq<nat>)
    requires PatternedAt(rules, list, at) && rules != [] && rules[|rules| - 1].pattern == ""
    ensures PatternedAt(rules[..|rules| - 1], list, at)
  {
    var before := rules[..|rules| - 1];
    forall k | 0 <= k < |at| ensures at[k] < |before| && before[at[k]] == list[k] {
      assert rules[at[k]] == list[k];
    }
    assert forall i :: 0 <= i < |before| ==> before[i] == rules[i];
  }

  lemma LastIsLast(rules: seq<Rule>, list: seq<Rule>, at: seq<nat>) returns (m: nat)
    requires PatternedAt(rules, list, at) && rules != [] && rules[|rules| - 1].pattern != ""
    ensures |list| == m + 1 && list[m] == rules[|rules| - 1] && PatternedAt(rules[..|rules| - 1], list[..m], at[..m])
  {
    var n, before := |rules| - 1, rules[..|rules| - 1];
    assert n in at;
    var k :| 0 <= k < |at| && at[k] == n;
    m := |list| - 1;
    forall i | 0 <= i < n && before[i].pattern != "" ensures i in at[..m] {
      assert before[i] == rules[i];
      var j :| 0 <= j < |at| && at[j] == i;
      assert at[..m][j] == i;
    }
    forall j | 0 <= j < m ensures at[..m][j] < n && before[at[..m][j]] == list[..m][j] {
      assert at[j] < at[m];
    }
  }

  /** The list written for a configuration is the one its policy asks for, and no other is. */
  lemma ListForIsPrescribed(cfg: Config, list: seq<Rule>)
    ensures list == ListFor(cfg) <==> Prescribes(cfg, list)
  {
    var at := EntriesArePatterned(cfg.allow);
    if Patterned(cfg.allow, list) {
      var at' :| PatternedAt(cfg.allow, list, at');
      OnePatternedList(cfg.allow, list, at');
    }
  }

  function MainList(f: Option<File>): Option<seq<Rule>> {
    if f.Some? && MAIN in f.value.agents then Some(f.value.agents[MAIN].allowlist) else None
  }

  /** The two files agree on everything but the main agent's allowlist. */
  ghost predicate SameButMainList(a: File, b: File) {
    && a.rest == b.rest
    && (forall k :: k != MAIN ==> (k in a.agents <==> k in b.agents) && (k in a.agents ==> a.agents[k] == b.agents[k]))
    && (MAIN in a.agents && MAIN in b.agents ==> a.agents[MAIN].rest == b.agents[MAIN].rest)
  }

  function Absent(): File {
    File("", map[])
  }

  function Rewritten(f: Option<File>, list: seq<Rule>): File {
    var file := f.GetOr(Absent());
    var agent := if MAIN in file.agents then file.agents[MAIN] else AgentPolicy([], "");
    file.(agents := file.agents[MAIN := agent.(allowlist := list)])
  }

  /** The file on the gateway; a set names the content it was based on (the hash is injective). */
  class Gateway {
    var file: Option<File>

    constructor (file: Option<File>)
      ensures this.file == file
    {
      this.file := file;
    }

    method Set(file': File, base: Option<File>) returns (ok: bool)
      modifies this
      ensures ok == (old(file) == base)
      ensures file == if ok then Some(file') else old(file)
    {
      ok := file == base;
      if ok {
        file := Some(file');
      }
    }

    /** One round with nobody in between: only the main agent's allowlist changes. */
    method ApplyPolicyOnce(cfg: Config) returns (ok: bool)
      modifies this
      ensures ok && file == Some(Rewritten(old(file), ListFor(cfg)))
      ensures cfg.policy.AlwaysAsk? ==> MainList(file) == Some([])
      ensures !cfg.policy.AlwaysAsk? ==> MainList(file).Some? && Patterned(cfg.allow, MainList(file).value)
      ensures SameButMainList(old(file).GetOr(Absent()), file.value)
    {
      var snap := file;
      var f := if snap.Some? then snap.value else Absent();
      var agent := if MAIN in f.agents then f.agents[MAIN] else AgentPolicy([], "");
      if cfg.policy.AlwaysAsk? {
        agent := agent.(allowlist := []);
      } else {
        var entries := ToEntries(cfg.allow);
        agent := agent.(allowlist := entries);
      }
      f := f.(agents := f.agents[MAIN := agent]);
      ok := Set(f, snap);
      ListForIsPrescribed(cfg, ListFor(cfg));
    }
  }

  lemma RewriteTouchesOnlyTheMainList(f: File, list: seq<Rule>)
    ensures SameButMainList(f, Rewritten(Some(f), list)) && MainList(Some(Rewritten(Some(f), list))) == Some(list)
  {
  }

  /** Blank patterns are dropped, and nothing else. */
  lemma {:induction false} EntriesKeepExactlyTheNonBlank(rules: seq<Rule>)
    ensures forall r :: r in Entries(rules) <==> r in rules && r.pattern != ""
  {
    if rules != [] {
      var n := |rules| - 1;
      EntriesKeepExactlyTheNonBlank(rules[..n]);
      assert rules == rules[..n] + [rules[n]];
    }
  }

  // ---- turns -----------------------------------------------------------------

  datatype Pc =
    | Checking(cfg: Config)
    | Getting(cfg: Config, attempt: nat)
    | Setting(cfg: Config, attempt: nat, seen: Option<File>)
    | Marking(cfg: Config)
    | Started(guarded: bool, rev: string)
    | Refused

  /** `applied` is revPol's entry ("" when none); `written` is history: revisions whose write succeeded. */
  datatype System = System(file: Option<File>, applied: string, written: set<string>, turns: map<nat, Pc>)

  datatype Step =
    | PreTurn(c: nat, resolved: Option<Config>, connected: bool)
    | CheckMark(c: nat)
    | Get(c: nat, ok: bool)
    | Set(c: nat, landed: bool, ok: bool)
    | Cancel(c: nat)
    | Mark(c: nat)
    | ForeignWrite(file: File)

  /** How PreTurn begins: resolve, classify the policy, connect. Every doubt refuses. */
  function Admit(resolved: Option<Config>, connected: bool): Pc {
    match resolved
    case None => Refused
    case Some(cfg) =>
      match cfg.policy
      case NoPolicy => Started(false, cfg.rev)
      case Unrecognised => Refused
      case _ => if connected then Checking(cfg) else Refused
  }

  predicate CasWins(s: System, pc: Pc) {
    pc.Setting? && pc.seen == s.file
  }

  /** A set lands only if the file is what its get saw, and is acknowledged only if it landed. */
  ghost predicate Enabled(s: System, st: Step) {
    match st
    case PreTurn(c, _, _) => c !in s.turns
    case CheckMark(c) => c in s.turns && s.turns[c].Checking?
    case Get(c, _) => c in s.turns && s.turns[c].Getting?
    case Set(c, landed, ok) => c in s.turns && s.turns[c].Setting? && (landed ==> CasWins(s, s.turns[c])) && (ok ==> landed)
    case Cancel(c) => c in s.turns && s.turns[c].Getting?
    case Mark(c) => c in s.turns && s.turns[c].Marking?
    case ForeignWrite(_) => true
  }

  function Retry(cfg: Config, attempt: nat): Pc {
    if attempt + 1 < ATTEMPTS then Getting(cfg, attempt + 1) else Refused
  }

  function GoTo(s: System, c: nat, pc: Pc): System {
    s.(turns := s.turns[c := pc])
  }

  ghost function Apply(s: System, st: Step): System
    requires Enabled(s, st)
  {
    match st
    case PreTurn(c, resolved, connected) => GoTo(s, c, Admit(resolved, connected))
    case CheckMark(c) =>
      var cfg := s.turns[c].cfg;
      GoTo(s, c, if cfg.rev != "" && cfg.rev != s.applied then Getting(cfg, 0) else Started(true, cfg.rev))
    case Get(c, ok) =>
      var pc := s.turns[c];
      GoTo(s, c, if ok then Setting(pc.cfg, pc.attempt, s.file) else Retry(pc.cfg, pc.attempt))
    case Set(c, landed, ok) =>
      var pc := s.turns[c];
      GoTo(s, c, if ok then Marking(pc.cfg) else Retry(pc.cfg, pc.attempt))
        .(file := if landed then Some(Rewritten(pc.seen, ListFor(pc.cfg))) else s.file,
          written := if ok then s.written + {pc.cfg.rev} else s.written)
    case Cancel(c) => GoTo(s, c, Refused)
    case Mark(c) => GoTo(s, c, Started(true, s.turns[c].cfg.rev)).(applied := s.turns[c].cfg.rev)
    case ForeignWrite(f) => s.(file := Some(f))
  }

  ghost function Init(file: Option<File>): System {
    System(file, "", {}, map[])
  }

  ghost predicate MarkInv(s: System) {
    && (s.applied == "" || s.applied in s.written)
    && (forall c :: c in s.turns && s.turns[c].Marking? ==> s.turns[c].cfg.rev in s.written)
    && (forall c :: c in s.turns && s.turns[c].Started? && s.turns[c].guarded ==> s.turns[c].rev == "" || s.turns[c].rev in s.written)
  }

  lemma MarkStep(s: System, st: Step)
    requires MarkInv(s) && Enabled(s, st)
    ensures MarkInv(Apply(s, st))
  {
  }

  ghost predicate Run(states: seq<System>, steps: seq<Step>) {
    && |states| == |steps| + 1 && states[0] == Init(states[0].file)
    && forall i :: 0 <= i < |steps| ==> Enabled(states[i], steps[i]) && states[i + 1] == Apply(states[i], steps[i])
  }

  lemma {:induction false} RunMarkInv(states: seq<System>, steps: seq<Step>, n: nat)
    requires Run(states, steps) && n < |states|
    ensures MarkInv(states[n])
  {
    if n > 0 {
      RunMarkInv(states, steps, n - 1);
      MarkStep(states[n - 1], steps[n - 1]);
    }
  }

  /**
    Every interleaving: the applied mark only names a revision whose write
    succeeded, and a gated turn starts only with such a revision, or with the empty
    revision, for which nothing is written.
  */
  lemma GatedTurnsStartOnlyAfterTheirWrite(states: seq<System>, steps: seq<Step>, n: nat, c: nat)
    requires Run(states, steps) && n < |states| && c in states[n].turns && states[n].turns[c].Started? && states[n].turns[c].guarded
    ensures var s := states[n];
      (s.applied == "" || s.applied in s.written) && (s.turns[c].rev == "" || s.turns[c].rev in s.written)
  {
    RunMarkInv(states, steps, n);
  }

  /** An unguarded start is only ever the answer to a resolved policy of none. */
  lemma OnlyNoPolicyStartsUnguarded(states: seq<System>, steps: seq<Step>, n: nat, c: nat)
    requires Run(states, steps) && n < |steps| && c in states[n + 1].turns
    requires states[n + 1].turns[c].Started? && !states[n + 1].turns[c].guarded
    requires c in states[n].turns ==> states[n].turns[c] != states[n + 1].turns[c]
    ensures steps[n].PreTurn? && steps[n].c == c && steps[n].resolved.Some? && steps[n].resolved.value.policy.NoPolicy?
  {
  }

  /** A write that lands rewrites the file as it stands: nobody's write is overwritten unseen, and only main's list changes. */
  lemma WritesSeeWhatTheyOverwrite(states: seq<System>, steps: seq<Step>, n: nat)
    requires Run(states, steps) && n < |steps| && steps[n].Set? && states[n + 1].file != states[n].file
    ensures var before, after, cfg := states[n].file, states[n + 1].file, states[n].turns[steps[n].c].cfg;
      && after.Some? && MainList(after) == Some(ListFor(cfg))
      && SameButMainList(before.GetOr(Absent()), after.value)
  {
    var pc := states[n].turns[steps[n].c];
    RewriteTouchesOnlyTheMainList(pc.seen.GetOr(Absent()), ListFor(pc.cfg));
  }

  /** Whoever's write lands, the main list is then what that turn's policy asks for. */
  lemma LandedSetsWriteThePolicy(states: seq<System>, steps: seq<Step>, n: nat)
    requires Run(states, steps) && n < |steps| && steps[n].Set? && steps[n].landed
    ensures MainList(states[n + 1].file).Some? && Prescribes(states[n].turns[steps[n].c].cfg, MainList(states[n + 1].file).value)
  {
    var pc := states[n].turns[steps[n].c];
    RewriteTouchesOnlyTheMainList(pc.seen.GetOr(Absent()), ListFor(pc.cfg));
    ListForIsPrescribed(pc.cfg, ListFor(pc.cfg));
  }

  // ---- what lets a turn start ------------------------------------------------------

  /** How the turn was asked for: its first step. */
  ghost predicate AskedWith(steps: seq<Step>, n: nat, c: nat, resolved: Option<Config>, connected: bool) {
    exists i :: 0 <= i < n <= |steps| && steps[i] == PreTurn(c, resolved, connected)
  }

  predicate Asks(policy: Policy) {
    policy.Allowlist? || policy.AlwaysAsk?
  }

  /** What is known of a turn: a configuration it was resolved to, and a connection if its policy asks. */
  ghost predicate AdmittedAs(steps: seq<Step>, n: nat, c: nat, pc: Pc) {
    match pc
    case Started(guarded, rev) =>
      exists cfg, connected ::
        AskedWith(steps, n, c, Some(cfg), connected) && rev == cfg.rev && if guarded then Asks(cfg.policy) && connected else cfg.policy.NoPolicy?
    case Refused =>
      exists resolved: Option<Config>, connected ::
        AskedWith(steps, n, c, resolved, connected) && !(resolved.Some? && resolved.value.policy.NoPolicy?)
    case _ => AskedWith(steps, n, c, Some(pc.cfg), true) && Asks(pc.cfg.policy)
  }

  lemma AskedStays(steps: seq<Step>, n: nat, c: nat, pc: Pc)
    requires n < |steps| && AdmittedAs(steps, n, c, pc)
    ensures AdmittedAs(steps, n + 1, c, pc)
  {
    assert forall resolved, connected :: AskedWith(steps, n, c, resolved, connected) ==> AskedWith(steps, n + 1, c, resolved, connected);
  }

  /**
    A turn starts only with a configuration that was resolved: unguarded only for the
    none policy, guarded only for a policy that asks and over a connection. Everything
    else is refused, and the none policy never is.
  */
  lemma {:induction false} TurnsAreAdmittedOnTheirPolicy(states: seq<System>, steps: seq<Step>, n: nat, c: nat)
    requires Run(states, steps) && n < |states| && c in states[n].turns
    ensures AdmittedAs(steps, n, c, states[n].turns[c])
  {
    var s, st := states[n - 1], steps[n - 1];
    if st.PreTurn? && st.c == c {
      assert AskedWith(steps, n, c, st.resolved, st.connected);
    } else {
      TurnsAreAdmittedOnTheirPolicy(states, steps, n - 1, c);
      AskedStays(steps, n - 1, c, s.turns[c]);
    }
  }

  /** How many rounds of the turn have failed, at the get or at the set. */
  function FailedRounds(steps: seq<Step>, n: nat, c: nat): nat
    requires n <= |steps|
  {
    if n == 0 then 0
    else
      var st := steps[n - 1];
      FailedRounds(steps, n - 1, c) + if (st.Get? || st.Set?) && st.c == c && !st.ok then 1 else 0
  }

  lemma {:induction false} AttemptsAreCounted(states: seq<System>, steps: seq<Step>, n: nat, c: nat)
    requires Run(states, steps) && n < |states|
    ensures c in states[n].turns && (states[n].turns[c].Getting? || states[n].turns[c].Setting?) ==>
      states[n].turns[c].attempt == FailedRounds(steps, n, c) < ATTEMPTS
    ensures c !in states[n].turns || states[n].turns[c].Checking? ==> FailedRounds(steps, n, c) == 0
  {
    if n > 0 {
      AttemptsAreCounted(states, steps, n - 1, c);
    }
  }

  /** A failed get or set is tried over from the get, three rounds in all, and then refuses the turn. */
  lemma FailedRoundsAreRetried(states: seq<System>, steps: seq<Step>, n: nat)
    requires Run(states, steps) && n < |steps| && (steps[n].Get? || steps[n].Set?) && !steps[n].ok
    ensures FailedRounds(steps, n + 1, steps[n].c) <= 3
    ensures if FailedRounds(steps, n + 1, steps[n].c) < 3 then states[n + 1].turns[steps[n].c].Getting?
            else states[n + 1].turns[steps[n].c] == Refused
  {
    AttemptsAreCounted(states, steps, n, steps[n].c);
  }
}

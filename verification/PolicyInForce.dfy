/**
  Does the applied mark name the policy in force (internal/server/approvals.go)?
  Exactly which disturbances let a gated turn start under another list than its
  revision's: overlapping turns, a set whose acknowledgement is lost, and writes by
  somebody else.
*/
module PolicyInForce {
  import opened Common
  import opened ExecPolicy

  predicate Busy(pc: Pc) {
    pc.Checking? || pc.Getting? || pc.Setting? || pc.Marking?
  }

  /** One PreTurn at a time. */
  ghost predicate OneBusy(s: System) {
    forall c, d :: c in s.turns && d in s.turns && Busy(s.turns[c]) && Busy(s.turns[d]) ==> c == d
  }

  /** What may go wrong: turns overlap, a landed set is not acknowledged, somebody else writes one of the files. */
  datatype Hazards = Hazards(overlap: bool, lostReply: bool, foreign: set<File>)

  predicate IsGated(policy: Policy) {
    policy.Allowlist? || policy.AlwaysAsk?
  }

  /** Gated under a revision of its own. */
  predicate Gated(cfg: Config) {
    IsGated(cfg.policy) && cfg.rev != ""
  }

  ghost predicate Allows(h: Hazards, cs: set<Config>, s': System, st: Step) {
    && (!h.overlap ==> OneBusy(s'))
    && (st.Set? && !h.lostReply ==> st.landed == st.ok)
    && (st.ForeignWrite? ==> st.file in h.foreign)
    && (st.PreTurn? && st.resolved.Some? && IsGated(st.resolved.value.policy) ==> st.resolved.value in cs)
  }

  ghost predicate Goes(h: Hazards, cs: set<Config>, s: System, st: Step, s': System) {
    Enabled(s, st) && s' == Apply(s, st) && Allows(h, cs, s', st)
  }

  /** A run of configurations from `cs` in which nothing else goes wrong. */
  ghost predicate Permitted(h: Hazards, cs: set<Config>, states: seq<System>, steps: seq<Step>) {
    && |states| == |steps| + 1 && states[0] == Init(states[0].file)
    && forall i :: 0 <= i < |steps| ==> Goes(h, cs, states[i], steps[i], states[i + 1])
  }

  lemma PermittedIsARun(h: Hazards, cs: set<Config>, states: seq<System>, steps: seq<Step>)
    requires Permitted(h, cs, states, steps)
    ensures Run(states, steps)
  {
    forall i | 0 <= i < |steps| ensures Enabled(states[i], steps[i]) && states[i + 1] == Apply(states[i], steps[i]) {
      assert Goes(h, cs, states[i], steps[i], states[i + 1]);
    }
  }

  /** If the step starts a gated turn with a revision, the file holds that turn's own list. */
  ghost predicate InForceAt(s: System, st: Step, s': System) {
    (st.CheckMark? || st.Mark?) && st.c in s.turns && Busy(s.turns[st.c])
    && st.c in s'.turns && s'.turns[st.c].Started? && s'.turns[st.c].rev != ""
    ==> Holds(s'.file, s.turns[st.c].cfg)
  }

  /** The main list is what the configuration's policy asks for. */
  ghost predicate Holds(f: Option<File>, cfg: Config) {
    MainList(f).Some? && Prescribes(cfg, MainList(f).value)
  }

  lemma HoldsItsList(f: Option<File>, cfg: Config)
    ensures Holds(f, cfg) <==> MainList(f) == Some(ListFor(cfg))
  {
    if MainList(f).Some? {
      ListForIsPrescribed(cfg, MainList(f).value);
    }
  }

  ghost predicate StartsInForce(states: seq<System>, steps: seq<Step>)
    requires |states| == |steps| + 1
  {
    forall n :: 0 <= n < |steps| ==> InForceAt(states[n], steps[n], states[n + 1])
  }

  /** A gated revision names one list. */
  ghost predicate Consistent(cs: set<Config>) {
    forall a, b :: a in cs && b in cs && Gated(a) && Gated(b) && a.rev == b.rev ==> ListFor(a) == ListFor(b)
  }

  ghost predicate Agree(cs: set<Config>) {
    forall a, b :: a in cs && b in cs && Gated(a) && Gated(b) ==> ListFor(a) == ListFor(b)
  }

  ghost predicate ForeignFits(foreign: set<File>, cs: set<Config>) {
    forall f, cfg :: f in foreign && cfg in cs && Gated(cfg) ==> MainList(Some(f)) == Some(ListFor(cfg))
  }

  // ---- when every list is the same ---------------------------------------------

  ghost predicate FromConfigs(cs: set<Config>, s: System) {
    && (forall c :: c in s.turns && Busy(s.turns[c]) ==> s.turns[c].cfg in cs && IsGated(s.turns[c].cfg.policy))
    && (forall c :: c in s.turns && (s.turns[c].Getting? || s.turns[c].Setting? || s.turns[c].Marking?) ==> s.turns[c].cfg.rev != "")
  }

  /** Once anything was marked, or is about to be, the file holds the one list. */
  ghost predicate HoldsList(list: seq<Rule>, s: System) {
    && (s.applied != "" ==> MainList(s.file) == Some(list))
    && (forall c :: c in s.turns && s.turns[c].Marking? ==> MainList(s.file) == Some(list))
  }

  lemma FromConfigsStep(h: Hazards, cs: set<Config>, s: System, st: Step)
    requires FromConfigs(cs, s) && Enabled(s, st) && Allows(h, cs, Apply(s, st), st)
    ensures FromConfigs(cs, Apply(s, st))
  {
  }

  lemma {:induction false} RunFromConfigs(h: Hazards, cs: set<Config>, states: seq<System>, steps: seq<Step>, n: nat)
    requires Permitted(h, cs, states, steps) && n < |states|
    ensures FromConfigs(cs, states[n])
  {
    if n > 0 {
      RunFromConfigs(h, cs, states, steps, n - 1);
      assert Goes(h, cs, states[n - 1], steps[n - 1], states[n]);
      FromConfigsStep(h, cs, states[n - 1], steps[n - 1]);
    }
  }

  ghost predicate OnlyList(h: Hazards, cs: set<Config>, list: seq<Rule>) {
    && (forall cfg :: cfg in cs && Gated(cfg) ==> ListFor(cfg) == list)
    && (forall f :: f in h.foreign ==> MainList(Some(f)) == Some(list))
  }

  lemma HoldsListStep(h: Hazards, cs: set<Config>, list: seq<Rule>, s: System, st: Step)
    requires OnlyList(h, cs, list) && FromConfigs(cs, s) && HoldsList(list, s)
    requires Enabled(s, st) && Allows(h, cs, Apply(s, st), st)
    ensures HoldsList(list, Apply(s, st))
  {
    if st.Set? && st.landed {
      var pc := s.turns[st.c];
      RewriteTouchesOnlyTheMainList(pc.seen.GetOr(Absent()), ListFor(pc.cfg));
      assert Gated(pc.cfg) && MainList(Apply(s, st).file) == Some(list);
    }
  }

  lemma {:induction false} RunHoldsList(h: Hazards, cs: set<Config>, list: seq<Rule>, states: seq<System>, steps: seq<Step>, n: nat)
    requires OnlyList(h, cs, list) && Permitted(h, cs, states, steps) && n < |states|
    ensures HoldsList(list, states[n])
  {
    if n > 0 {
      RunHoldsList(h, cs, list, states, steps, n - 1);
      RunFromConfigs(h, cs, states, steps, n - 1);
      assert Goes(h, cs, states[n - 1], steps[n - 1], states[n]);
      HoldsListStep(h, cs, list, states[n - 1], steps[n - 1]);
    }
  }

  lemma OneListIsInForce(h: Hazards, cs: set<Config>, list: seq<Rule>, states: seq<System>, steps: seq<Step>)
    requires OnlyList(h, cs, list) && Permitted(h, cs, states, steps)
    ensures StartsInForce(states, steps)
  {
    forall n | 0 <= n < |steps| ensures InForceAt(states[n], steps[n], states[n + 1]) {
      RunHoldsList(h, cs, list, states, steps, n);
      RunFromConfigs(h, cs, states, steps, n);
      if steps[n].CheckMark? || steps[n].Mark? {
        HoldsItsList(states[n + 1].file, states[n].turns[steps[n].c].cfg);
      }
    }
  }

  // ---- when turns are serial -----------------------------------------------------

  /** No foreign write, no set that landed without its acknowledgement, and revisions that name their list. */
  ghost predicate Orderly(of: string -> seq<Rule>, st: Step) {
    && !st.ForeignWrite?
    && (st.Set? ==> st.landed == st.ok)
    && (st.PreTurn? && st.resolved.Some? && Gated(st.resolved.value) ==> ListFor(st.resolved.value) == of(st.resolved.value.rev))
  }

  ghost predicate InForceInv(of: string -> seq<Rule>, s: System) {
    && (forall c :: c in s.turns && Busy(s.turns[c]) && s.turns[c].cfg.rev != "" ==> ListFor(s.turns[c].cfg) == of(s.turns[c].cfg.rev))
    && (forall c :: c in s.turns && (s.turns[c].Getting? || s.turns[c].Setting? || s.turns[c].Marking?) ==> s.turns[c].cfg.rev != "")
    && (forall c :: c in s.turns && s.turns[c].Marking? ==> MainList(s.file) == Some(ListFor(s.turns[c].cfg)))
    && (s.applied != "" && (forall c :: c in s.turns ==> !s.turns[c].Marking?) ==> MainList(s.file) == Some(of(s.applied)))
  }

  lemma InForceSet(of: string -> seq<Rule>, s: System, c: nat, ok: bool)
    requires InForceInv(of, s) && OneBusy(s) && Enabled(s, Set(c, ok, ok))
    ensures InForceInv(of, Apply(s, Set(c, ok, ok)))
  {
    var pc, s' := s.turns[c], Apply(s, Set(c, ok, ok));
    RewriteTouchesOnlyTheMainList(pc.seen.GetOr(Absent()), ListFor(pc.cfg));
    assert forall d :: d in s.turns && s.turns[d].Marking? ==> d == c;
    if ok {
      assert s'.turns[c].Marking?;
    } else {
      assert s'.file == s.file;
    }
  }

  lemma InForceMark(of: string -> seq<Rule>, s: System, c: nat)
    requires InForceInv(of, s) && OneBusy(s) && Enabled(s, Mark(c))
    ensures InForceInv(of, Apply(s, Mark(c)))
  {
  }

  lemma InForceStep(of: string -> seq<Rule>, s: System, st: Step)
    requires InForceInv(of, s) && OneBusy(s) && Enabled(s, st) && Orderly(of, st)
    ensures InForceInv(of, Apply(s, st))
  {
    if st.Set? {
      InForceSet(of, s, st.c, st.ok);
    } else if st.Mark? {
      InForceMark(of, s, st.c);
    } else {
      var s' := Apply(s, st);
      assert s'.turns[st.c].Marking? ==> false;
      assert forall c :: c in s.turns && s.turns[c].Marking? ==> c in s'.turns && s'.turns[c] == s.turns[c];
    }
  }

  lemma {:induction false} RunInForce(of: string -> seq<Rule>, states: seq<System>, steps: seq<Step>, n: nat)
    requires Run(states, steps) && n < |states|
    requires forall i :: 0 <= i < n ==> OneBusy(states[i]) && Orderly(of, steps[i])
    ensures InForceInv(of, states[n])
  {
    if n > 0 {
      RunInForce(of, states, steps, n - 1);
      InForceStep(of, states[n - 1], steps[n - 1]);
    }
  }

  /** With one PreTurn at a time, a gated turn starts under the very list its revision names. */
  lemma SerialTurnsRunUnderTheirOwnPolicy(of: string -> seq<Rule>, states: seq<System>, steps: seq<Step>, n: nat, c: nat)
    requires Run(states, steps) && n < |steps|
    requires forall i :: 0 <= i <= n ==> OneBusy(states[i]) && Orderly(of, steps[i])
    requires steps[n] == CheckMark(c) || steps[n] == Mark(c)
    requires states[n + 1].turns[c].Started? && states[n + 1].turns[c].rev != ""
    ensures MainList(states[n + 1].file) == Some(of(states[n + 1].turns[c].rev))
    ensures Holds(states[n + 1].file, states[n].turns[c].cfg)
    ensures states[n].turns[c].cfg.policy.AlwaysAsk? ==> MainList(states[n + 1].file) == Some([])
  {
    RunInForce(of, states, steps, n);
    var s := states[n];
    if steps[n] == CheckMark(c) {
      assert forall d :: d in s.turns && Busy(s.turns[d]) ==> d == c;
    }
    HoldsItsList(states[n + 1].file, s.turns[c].cfg);
  }

  /** The list a revision names. */
  ghost function ListOf(cs: set<Config>, rev: string): seq<Rule> {
    if exists cfg :: cfg in cs && Gated(cfg) && cfg.rev == rev then
      var cfg :| cfg in cs && Gated(cfg) && cfg.rev == rev; ListFor(cfg)
    else []
  }

  lemma SerialIsInForce(h: Hazards, cs: set<Config>, states: seq<System>, steps: seq<Step>)
    requires Consistent(cs) && !h.overlap && !h.lostReply && h.foreign == {} && Permitted(h, cs, states, steps)
    ensures StartsInForce(states, steps)
  {
    var of := rev => ListOf(cs, rev);
    PermittedIsARun(h, cs, states, steps);
    forall i | 0 <= i < |steps| ensures OneBusy(states[i]) && Orderly(of, steps[i]) {
      assert Goes(h, cs, states[i], steps[i], states[i + 1]);
      if i > 0 {
        assert Goes(h, cs, states[i - 1], steps[i - 1], states[i]);
      }
    }
    forall n | 0 <= n < |steps| ensures InForceAt(states[n], steps[n], states[n + 1]) {
      var s, st, s' := states[n], steps[n], states[n + 1];
      if (st.CheckMark? || st.Mark?) && s'.turns[st.c].Started? && s'.turns[st.c].rev != "" {
        SerialTurnsRunUnderTheirOwnPolicy(of, states, steps, n, st.c);
      }
    }
  }

  // ---- runs that go wrong --------------------------------------------------------

  /** Some permitted run ends here. */
  ghost predicate Reaches(h: Hazards, cs: set<Config>, s: System) {
    exists states, steps :: Permitted(h, cs, states, steps) && states[|steps|] == s
  }

  lemma Starts(h: Hazards, cs: set<Config>)
    ensures Reaches(h, cs, Init(None))
  {
    assert Permitted(h, cs, [Init(None)], []);
  }

  lemma Longer(h: Hazards, cs: set<Config>, states0: seq<System>, steps0: seq<Step>, st: Step, s: System)
    requires Permitted(h, cs, states0, steps0) && Goes(h, cs, states0[|steps0|], st, s)
    ensures Permitted(h, cs, states0 + [s], steps0 + [st])
  {
    var states, steps := states0 + [s], steps0 + [st];
    assert states[0] == states0[0];
    forall i | 0 <= i < |steps| ensures Goes(h, cs, states[i], steps[i], states[i + 1]) {
      assert states[i] == states0[i];
      if i < |steps0| {
        assert states[i + 1] == states0[i + 1] && steps[i] == steps0[i];
        assert Goes(h, cs, states0[i], steps0[i], states0[i + 1]);
      }
    }
  }

  lemma Then(h: Hazards, cs: set<Config>, s: System, st: Step, s': System)
    requires Reaches(h, cs, s) && Goes(h, cs, s, st, s')
    ensures Reaches(h, cs, s')
  {
    var states, steps :| Permitted(h, cs, states, steps) && states[|steps|] == s;
    Longer(h, cs, states, steps, st, s');
    assert (states + [s'])[|steps + [st]|] == s';
  }

  /** A reachable start under another list than the turn's own. */
  lemma StaleStart(h: Hazards, cs: set<Config>, s: System, st: Step, s': System)
    requires Reaches(h, cs, s) && Goes(h, cs, s, st, s') && !InForceAt(s, st, s')
    ensures !AlwaysInForce(h, cs)
  {
    var states, steps :| Permitted(h, cs, states, steps) && states[|steps|] == s;
    Longer(h, cs, states, steps, st, s');
    var n := |steps|;
    assert (states + [s'])[n] == s && (steps + [st])[n] == st && (states + [s'])[n + 1] == s';
    assert !StartsInForce(states + [s'], steps + [st]);
  }

  /** A turn that finds its revision marked starts at once, whatever the file holds. */
  lemma MarkedRevisionStarts(h: Hazards, cs: set<Config>, a: Config, s: System, c: nat) returns (s': System)
    requires Reaches(h, cs, s) && a in cs && Gated(a) && s.applied == a.rev && c !in s.turns
    requires forall d :: d in s.turns ==> !Busy(s.turns[d])
    requires MainList(s.file) != Some(ListFor(a))
    ensures Reaches(h, cs, s') && s' == s.(turns := s.turns[c := Started(true, a.rev)])
    ensures !AlwaysInForce(h, cs)
  {
    var mid := GoTo(s, c, Checking(a));
    s' := GoTo(mid, c, Started(true, a.rev));
    Then(h, cs, s, PreTurn(c, Some(a), true), mid);
    HoldsItsList(s.file, a);
    StaleStart(h, cs, mid, CheckMark(c), s');
    Then(h, cs, mid, CheckMark(c), s');
    assert s'.turns == s.turns[c := Started(true, a.rev)];
  }

  /** A turn of an unmarked revision, up to its read of the file. */
  lemma Reads(h: Hazards, cs: set<Config>, a: Config, s: System, c: nat) returns (s': System)
    requires Reaches(h, cs, s) && a in cs && Gated(a) && s.applied != a.rev && c !in s.turns
    requires !h.overlap ==> forall d :: d in s.turns ==> !Busy(s.turns[d])
    ensures Reaches(h, cs, s') && s' == GoTo(s, c, Setting(a, 0, s.file))
  {
    var checking := GoTo(s, c, Checking(a));
    var getting := GoTo(s, c, Getting(a, 0));
    s' := GoTo(s, c, Setting(a, 0, s.file));
    Then(h, cs, s, PreTurn(c, Some(a), true), checking);
    assert getting.turns == checking.turns[c := Getting(a, 0)];
    Then(h, cs, checking, CheckMark(c), getting);
    assert s'.turns == getting.turns[c := Setting(a, 0, s.file)];
    Then(h, cs, getting, Get(c, true), s');
  }

  function Over(file: Option<File>, a: Config): Option<File> {
    Some(Rewritten(file, ListFor(a)))
  }

  /** An undisturbed first turn: its list is written and its revision marked. */
  lemma FirstTurn(h: Hazards, cs: set<Config>, a: Config) returns (s: System)
    requires a in cs && Gated(a)
    ensures Reaches(h, cs, s) && s == System(Over(None, a), a.rev, {a.rev}, map[0 := Started(true, a.rev)])
  {
    Starts(h, cs);
    var read := Reads(h, cs, a, Init(None), 0);
    var marking := System(Over(None, a), "", {a.rev}, map[0 := Marking(a)]);
    assert marking.turns == read.turns[0 := Marking(a)];
    Then(h, cs, read, Set(0, true, true), marking);
    s := System(Over(None, a), a.rev, {a.rev}, map[0 := Started(true, a.rev)]);
    assert s.turns == marking.turns[0 := Started(true, a.rev)];
    Then(h, cs, marking, Mark(0), s);
  }

  /** One revision with two lists: the second is never written. */
  lemma SharedRevisionLeavesAStaleMark(h: Hazards, cs: set<Config>, a: Config, b: Config) returns (s: System)
    requires a in cs && b in cs && Gated(a) && Gated(b) && a.rev == b.rev && ListFor(a) != ListFor(b)
    ensures Reaches(h, cs, s) && MainList(s.file) == Some(ListFor(a)) && 1 in s.turns && s.turns[1] == Started(true, b.rev)
    ensures !AlwaysInForce(h, cs)
  {
    var marked := FirstTurn(h, cs, a);
    s := MarkedRevisionStarts(h, cs, b, marked, 1);
  }

  /** Somebody else writes the file: the next turn of the same revision starts under it, without a write. */
  lemma ForeignWriteLeavesAStaleMark(h: Hazards, cs: set<Config>, a: Config, f: File) returns (s: System)
    requires a in cs && Gated(a) && f in h.foreign && MainList(Some(f)) != Some(ListFor(a))
    ensures Reaches(h, cs, s) && s.file == Some(f) && 1 in s.turns && s.turns[1] == Started(true, a.rev)
    ensures !AlwaysInForce(h, cs)
  {
    var marked := FirstTurn(h, cs, a);
    var over := marked.(file := Some(f));
    Then(h, cs, marked, ForeignWrite(f), over);
    s := MarkedRevisionStarts(h, cs, a, over, 1);
  }

  /**
    A write that lands without its acknowledgement is never marked: when the
    configuration returns to the marked revision, a turn starts, without a write,
    under the unmarked list. The turns are one after the other.
  */
  lemma LostReplyLeavesAStaleMark(h: Hazards, cs: set<Config>, a: Config, b: Config) returns (s: System)
    requires a in cs && b in cs && Gated(a) && Gated(b) && a.rev != b.rev && ListFor(a) != ListFor(b) && h.lostReply
    ensures Reaches(h, cs, s) && MainList(s.file) == Some(ListFor(b)) && 2 in s.turns && s.turns[2] == Started(true, a.rev)
    ensures !AlwaysInForce(h, cs)
  {
    var marked := FirstTurn(h, cs, a);
    var read := Reads(h, cs, b, marked, 1);
    var lost := UnacknowledgedWrite(h, cs, b, read, 1);
    s := MarkedRevisionStarts(h, cs, a, lost, 2);
  }

  lemma UnacknowledgedWrite(h: Hazards, cs: set<Config>, b: Config, s: System, c: nat) returns (s': System)
    requires h.lostReply && Reaches(h, cs, s) && c in s.turns && s.turns[c] == Setting(b, 0, s.file)
    requires forall d :: d in s.turns && d != c ==> !Busy(s.turns[d])
    ensures Reaches(h, cs, s') && s' == System(Over(s.file, b), s.applied, s.written, s.turns[c := Refused])
    ensures MainList(s'.file) == Some(ListFor(b))
  {
    var retrying := GoTo(s, c, Getting(b, 1)).(file := Over(s.file, b));
    Then(h, cs, s, Set(c, true, false), retrying);
    s' := GoTo(retrying, c, Refused);
    assert s'.turns == s.turns[c := Refused];
    Then(h, cs, retrying, Cancel(c), s');
    RewriteTouchesOnlyTheMainList(s.file.GetOr(Absent()), ListFor(b));
  }

  lemma Writes(h: Hazards, cs: set<Config>, a: Config, s: System, c: nat) returns (s': System)
    requires h.overlap && Reaches(h, cs, s) && c in s.turns && s.turns[c] == Setting(a, 0, s.file)
    ensures Reaches(h, cs, s') && s' == System(Over(s.file, a), s.applied, s.written + {a.rev}, s.turns[c := Marking(a)])
    ensures MainList(s'.file) == Some(ListFor(a))
  {
    s' := System(Over(s.file, a), s.applied, s.written + {a.rev}, s.turns[c := Marking(a)]);
    Then(h, cs, s, Set(c, true, true), s');
    RewriteTouchesOnlyTheMainList(s.file.GetOr(Absent()), ListFor(a));
  }

  lemma Marks(h: Hazards, cs: set<Config>, a: Config, s: System, c: nat) returns (s': System)
    requires h.overlap && Reaches(h, cs, s) && c in s.turns && s.turns[c] == Marking(a)
    ensures Reaches(h, cs, s') && s' == System(s.file, a.rev, s.written, s.turns[c := Started(true, a.rev)])
  {
    s' := System(s.file, a.rev, s.written, s.turns[c := Started(true, a.rev)]);
    Then(h, cs, s, Mark(c), s');
  }

  /** Two overlapping turns have both written: the later write is `a`'s, and neither is marked yet. */
  lemma BothWrote(h: Hazards, cs: set<Config>, a: Config, b: Config) returns (s: System)
    requires a in cs && b in cs && Gated(a) && Gated(b) && h.overlap
    ensures Reaches(h, cs, s) && MainList(s.file) == Some(ListFor(a))
    ensures s.turns == map[0 := Marking(b), 1 := Marking(a)]
  {
    Starts(h, cs);
    s := Reads(h, cs, b, Init(None), 0);
    s := Writes(h, cs, b, s, 0);
    s := Reads(h, cs, a, s, 1);
    s := Writes(h, cs, a, s, 1);
    assert s.turns == map[0 := Marking(b), 1 := Marking(a)];
  }

  /**
    For any two gated configurations with different lists there is an interleaving of
    two turns, both acknowledged, that leaves the later writer's list under the other's
    mark: a third turn starts under the wrong list without another write.
  */
  lemma OverlappingTurnsCanLeaveAStaleMark(h: Hazards, cs: set<Config>, a: Config, b: Config) returns (s: System)
    requires a in cs && b in cs && Gated(a) && Gated(b) && ListFor(a) != ListFor(b) && h.overlap
    ensures Reaches(h, cs, s) && MainList(s.file) == Some(ListFor(a)) && 2 in s.turns && s.turns[2] == Started(true, b.rev)
    ensures !AlwaysInForce(h, cs)
  {
    var wrote := BothWrote(h, cs, a, b);
    var first := Marks(h, cs, a, wrote, 1);
    var marked := Marks(h, cs, b, first, 0);
    s := MarkedRevisionStarts(h, cs, b, marked, 2);
  }

  // ---- exactly when ----------------------------------------------------------------

  ghost predicate AlwaysInForce(h: Hazards, cs: set<Config>) {
    forall states, steps :: Permitted(h, cs, states, steps) ==> StartsInForce(states, steps)
  }

  lemma NoGatedStarts(h: Hazards, cs: set<Config>, states: seq<System>, steps: seq<Step>)
    requires Permitted(h, cs, states, steps) && forall cfg :: cfg in cs ==> !Gated(cfg)
    ensures StartsInForce(states, steps)
  {
    forall n | 0 <= n < |steps| ensures InForceAt(states[n], steps[n], states[n + 1]) {
      RunFromConfigs(h, cs, states, steps, n);
    }
  }

  lemma SafeRun(h: Hazards, cs: set<Config>, states: seq<System>, steps: seq<Step>)
    requires Permitted(h, cs, states, steps) && Consistent(cs)
    requires (h.overlap || h.lostReply ==> Agree(cs)) && ForeignFits(h.foreign, cs)
    ensures StartsInForce(states, steps)
  {
    if cfg :| cfg in cs && Gated(cfg) {
      if Agree(cs) {
        OneListIsInForce(h, cs, ListFor(cfg), states, steps);
      } else {
        forall f | f in h.foreign ensures false {
          ForeignFileAgrees(h, cs, f);
        }
        SerialIsInForce(h, cs, states, steps);
      }
    } else {
      NoGatedStarts(h, cs, states, steps);
    }
  }

  lemma ForeignFileAgrees(h: Hazards, cs: set<Config>, f: File)
    requires ForeignFits(h.foreign, cs) && f in h.foreign
    ensures Agree(cs)
  {
    forall a, b | a in cs && b in cs && Gated(a) && Gated(b) ensures ListFor(a) == ListFor(b) {
      assert MainList(Some(f)) == Some(ListFor(a)) == Some(ListFor(b));
    }
  }

  /**
    Every gated turn with a revision starts under its own list, in every run with these
    disturbances, exactly when overlapping turns and lost acknowledgements happen only
    among configurations with one list, whoever else writes leaves that list, and no
    revision names two lists.
  */
  lemma StartsAreInForceIff(h: Hazards, cs: set<Config>)
    ensures AlwaysInForce(h, cs) <==>
      Consistent(cs) && (h.overlap || h.lostReply ==> Agree(cs)) && ForeignFits(h.foreign, cs)
  {
    if Consistent(cs) && (h.overlap || h.lostReply ==> Agree(cs)) && ForeignFits(h.foreign, cs) {
      forall states, steps | Permitted(h, cs, states, steps) ensures StartsInForce(states, steps) {
        SafeRun(h, cs, states, steps);
      }
    } else if !ForeignFits(h.foreign, cs) {
      var f, cfg :| f in h.foreign && cfg in cs && Gated(cfg) && MainList(Some(f)) != Some(ListFor(cfg));
      var s := ForeignWriteLeavesAStaleMark(h, cs, cfg, f);
    } else {
      var a, b :| a in cs && b in cs && Gated(a) && Gated(b) && ListFor(a) != ListFor(b) && (a.rev == b.rev || Consistent(cs));
      if a.rev == b.rev {
        var s := SharedRevisionLeavesAStaleMark(h, cs, a, b);
      } else if h.overlap {
        var s := OverlappingTurnsCanLeaveAStaleMark(h, cs, a, b);
      } else {
        var s := LostReplyLeavesAStaleMark(h, cs, a, b);
      }
    }
  }
}

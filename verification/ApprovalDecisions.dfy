/**
  What becomes of a decision (Approvals): what the gateway is told, what the session's
  stream shows and what the ledger says all name the same verdict, and the gateway is told
  one verdict for each approval.
*/
module ApprovalDecisions {
  import opened Common
  import opened Approvals
  import opened ApprovalRuns

  /** Past its write, or at an answer that only a call past the door can have. */
  predicate AfterWrite(pc: Pc) {
    pc.Publishing? || pc.Auditing? || (pc.Releasing? && !pc.out.Invalid?) || (pc.Done? && !pc.out.Invalid?)
  }

  ghost predicate IsTold(told: seq<Told>, id: string) {
    exists i :: 0 <= i < |told| && told[i].id == id
  }

  /** A landed decision is its call's, and the approval is no longer listed. */
  ghost predicate ToldOk(s: System, t: Told) {
    && t.call in s.calls && s.calls[t.call].id == t.id && AfterWrite(s.calls[t.call].pc)
    && t.word == GatewayWord(s.calls[t.call].decision) && t.id in s.gw.bound && t.id !in s.gw.listed
  }

  ghost predicate ToldInv(s: System) {
    && (forall i :: 0 <= i < |s.told| ==> ToldOk(s, s.told[i]))
    && (forall i, j :: 0 <= i < j < |s.told| ==> s.told[i].id != s.told[j].id)
    && (forall c :: c in s.calls && s.calls[c].pc.Writing? ==> Known(s.gw, s.calls[c].owner, s.calls[c].id) && !IsTold(s.told, s.calls[c].id))
    && (forall c :: c in s.calls && Accepted(s.calls[c].pc) ==> Known(s.gw, s.calls[c].owner, s.calls[c].id) && ToldBy(s, c))
  }

  ghost predicate ToldBy(s: System, c: CallId)
    requires c in s.calls
  {
    exists i :: 0 <= i < |s.told| && s.told[i] == Told(s.calls[c].id, c, GatewayWord(s.calls[c].decision))
  }

  /** A call keeps what it is about, and what it has done stays done. */
  predicate CallAdvances(a: Call, b: Call) {
    && b.owner == a.owner && b.id == a.id && b.decision == a.decision
    && (AfterWrite(a.pc) ==> AfterWrite(b.pc)) && (Accepted(a.pc) ==> Accepted(b.pc))
    && (HasShown(a.pc) ==> HasShown(b.pc)) && (HasRecorded(a.pc) ==> HasRecorded(b.pc))
  }

  ghost predicate CallsAdvance(a: map<CallId, Call>, b: map<CallId, Call>) {
    forall c :: c in a ==> c in b && CallAdvances(a[c], b[c])
  }

  /** The gateway forgets no owner and lists no approval again. */
  ghost predicate GatewayAdvances(a: Gateway, b: Gateway) {
    forall id :: id in a.bound ==> id in b.bound && b.bound[id] == a.bound[id] && (id !in a.listed ==> id !in b.listed)
  }

  lemma CallAdvancesGoTo(s: System, c: CallId, pc: Pc)
    requires c in s.calls && CallAdvances(s.calls[c], s.calls[c].(pc := pc))
    ensures CallsAdvance(s.calls, GoTo(s, c, pc).calls)
  {
  }

  lemma StepAdvances(s: System, st: Step)
    requires Enabled(s, st)
    ensures CallsAdvance(s.calls, Apply(s, st).calls) && GatewayAdvances(s.gw, Apply(s, st).gw)
  {
    if !st.NewCall? && !st.GatewayAdds? && !st.GatewayDrops? {
      CallAdvancesGoTo(s, st.c, Apply(s, st).calls[st.c].pc);
    }
  }

  lemma ToldStays(s: System, s': System)
    requires CallsAdvance(s.calls, s'.calls) && GatewayAdvances(s.gw, s'.gw) && s.told <= s'.told
    requires forall i :: 0 <= i < |s.told| ==> ToldOk(s, s.told[i])
    ensures forall i :: 0 <= i < |s.told| ==> s'.told[i] == s.told[i] && ToldOk(s', s'.told[i])
    ensures forall c :: c in s.calls && ToldBy(s, c) ==> ToldBy(s', c)
  {
    forall i | 0 <= i < |s.told| ensures s'.told[i] == s.told[i] && ToldOk(s', s'.told[i]) {
      assert ToldOk(s, s.told[i]);
      assert CallAdvances(s.calls[s.told[i].call], s'.calls[s.told[i].call]);
    }
    forall c | c in s.calls && ToldBy(s, c) ensures ToldBy(s', c) {
      var i :| 0 <= i < |s.told| && s.told[i] == Told(s.calls[c].id, c, GatewayWord(s.calls[c].decision));
      assert s'.told[i] == s.told[i] && CallAdvances(s.calls[c], s'.calls[c]);
    }
  }

  lemma ToldKept(s: System, s': System)
    requires ToldInv(s) && CallsAdvance(s.calls, s'.calls) && GatewayAdvances(s.gw, s'.gw) && s'.told == s.told
    requires forall c :: c in s'.calls && s'.calls[c].pc.Writing? ==>
      Known(s'.gw, s'.calls[c].owner, s'.calls[c].id) && !IsTold(s.told, s'.calls[c].id)
    requires forall c :: c in s'.calls && Accepted(s'.calls[c].pc) ==> c in s.calls && Accepted(s.calls[c].pc)
    ensures ToldInv(s')
  {
    ToldStays(s, s');
    forall c | c in s'.calls && Accepted(s'.calls[c].pc)
      ensures Known(s'.gw, s'.calls[c].owner, s'.calls[c].id) && ToldBy(s', c)
    {
      assert ToldBy(s, c) && CallAdvances(s.calls[c], s'.calls[c]);
    }
  }

  lemma ToldWrite(s: System, c: CallId, landed: bool, ok: bool)
    requires Inv(s) && ToldInv(s) && Enabled(s, WriteDecision(c, landed, ok))
    ensures ToldInv(Apply(s, WriteDecision(c, landed, ok)))
  {
    var s' := Apply(s, WriteDecision(c, landed, ok));
    StepAdvances(s, WriteDecision(c, landed, ok));
    WritingTells(s, c, landed, ok);
    if landed {
      OneWriter(s, c);
      ToldAppended(s, s', c);
    } else {
      ToldKept(s, s');
    }
  }

  lemma WritingTells(s: System, c: CallId, landed: bool, ok: bool)
    requires Enabled(s, WriteDecision(c, landed, ok))
    ensures var s' := Apply(s, WriteDecision(c, landed, ok));
      && s'.told == s.told + (if landed then [Told(s.calls[c].id, c, GatewayWord(s.calls[c].decision))] else [])
      && (landed ==> s.calls[c].id !in s'.gw.listed) && s'.calls.Keys == s.calls.Keys && AfterWrite(s'.calls[c].pc)
      && (forall d :: d in s.calls && d != c ==> s'.calls[d] == s.calls[d]) && (!landed ==> !Accepted(s'.calls[c].pc))
  {
    assert s.told + [] == s.told;
  }

  lemma OneWriter(s: System, c: CallId)
    requires Inv(s) && c in s.calls && s.calls[c].pc.Writing?
    ensures forall d :: d in s.calls && s.calls[d].pc.Writing? && s.calls[d].id == s.calls[c].id ==> d == c
  {
  }

  /** The one writer of an id has its decision landed. */
  lemma ToldAppended(s: System, s': System, c: CallId)
    requires ToldInv(s) && CallsAdvance(s.calls, s'.calls) && GatewayAdvances(s.gw, s'.gw)
    requires c in s.calls && s.calls[c].pc.Writing? && (forall d :: d in s.calls && s.calls[d].pc.Writing? && s.calls[d].id == s.calls[c].id ==> d == c)
    requires s'.calls.Keys == s.calls.Keys && AfterWrite(s'.calls[c].pc) && forall d :: d in s.calls && d != c ==> s'.calls[d] == s.calls[d]
    requires s'.told == s.told + [Told(s.calls[c].id, c, GatewayWord(s.calls[c].decision))] && s.calls[c].id !in s'.gw.listed
    ensures ToldInv(s')
  {
    ToldStays(s, s');
    var n := |s.told|;
    assert CallAdvances(s.calls[c], s'.calls[c]);
    assert s'.told[n] == Told(s'.calls[c].id, c, GatewayWord(s'.calls[c].decision)) && ToldOk(s', s'.told[n]);
    assert ToldBy(s', c);
    forall i | 0 <= i < n ensures s'.told[i].id != s'.told[n].id {
      assert !IsTold(s.told, s.calls[c].id);
    }
    forall d | d in s'.calls && s'.calls[d].pc.Writing? ensures !IsTold(s'.told, s'.calls[d].id) {
      assert d != c && s.calls[d].id != s.calls[c].id && !IsTold(s.told, s.calls[d].id);
    }
  }

  lemma StillWriting(s: System, st: Step, c: CallId)
    requires Enabled(s, st) && !st.ReadPending? && c in Apply(s, st).calls && Apply(s, st).calls[c].pc.Writing?
    ensures c in s.calls && s.calls[c].pc.Writing?
  {
  }

  lemma StillAccepted(s: System, st: Step, c: CallId)
    requires Enabled(s, st) && !st.WriteDecision? && c in Apply(s, st).calls && Accepted(Apply(s, st).calls[c].pc)
    ensures c in s.calls && Accepted(s.calls[c].pc)
  {
  }

  lemma ToldStep(s: System, st: Step)
    requires Inv(s) && ToldInv(s) && Enabled(s, st)
    ensures ToldInv(Apply(s, st))
  {
    if st.WriteDecision? {
      ToldWrite(s, st.c, st.landed, st.ok);
    } else if st.ReadPending? {
      ToldRead(s, st.c, st.ok);
    } else {
      ToldOther(s, st);
    }
  }

  lemma ToldRead(s: System, c: CallId, ok: bool)
    requires ToldInv(s) && Enabled(s, ReadPending(c, ok))
    ensures ToldInv(Apply(s, ReadPending(c, ok)))
  {
    StepAdvances(s, ReadPending(c, ok));
    FoundIsNotTold(s, c);
    ToldKept(s, Apply(s, ReadPending(c, ok)));
  }

  lemma ToldOther(s: System, st: Step)
    requires ToldInv(s) && Enabled(s, st) && !st.WriteDecision? && !st.ReadPending?
    ensures ToldInv(Apply(s, st))
  {
    var s' := Apply(s, st);
    StepAdvances(s, st);
    forall c | c in s'.calls && s'.calls[c].pc.Writing?
      ensures Known(s'.gw, s'.calls[c].owner, s'.calls[c].id) && !IsTold(s.told, s'.calls[c].id)
    {
      StillWriting(s, st, c);
      assert CallAdvances(s.calls[c], s'.calls[c]);
    }
    forall c | c in s'.calls && Accepted(s'.calls[c].pc) ensures c in s.calls && Accepted(s.calls[c].pc) {
      StillAccepted(s, st, c);
    }
    ToldSame(s, st);
    ToldKept(s, s');
  }

  lemma ToldSame(s: System, st: Step)
    requires Enabled(s, st) && !st.WriteDecision?
    ensures Apply(s, st).told == s.told
  {
  }

  lemma FoundIsNotTold(s: System, c: CallId)
    requires ToldInv(s) && c in s.calls
    ensures Finds(s.gw, s.calls[c].owner, s.calls[c].id) ==> !IsTold(s.told, s.calls[c].id)
  {
    if i :| 0 <= i < |s.told| && s.told[i].id == s.calls[c].id {
      assert ToldOk(s, s.told[i]);
    }
  }

  // ---- cards and the ledger ------------------------------------------------------------

  /** The card and the ledger entry of a call. */
  function CardOf(call: Call): Shown {
    Shown(call.owner.session, call.id, Approves(call.decision))
  }

  function EntryOf(call: Call): Audit {
    Audit(call.owner.user, call.owner.session, call.id, AuditStatus(call.decision))
  }

  predicate HasShown(pc: Pc) {
    pc.Auditing? || pc == Releasing(Success) || pc == Done(Success)
  }

  predicate HasRecorded(pc: Pc) {
    pc == Releasing(Success) || pc == Done(Success)
  }

  ghost predicate ShownBySome(calls: map<CallId, Call>, card: Shown) {
    exists c :: c in calls && HasShown(calls[c].pc) && card == CardOf(calls[c])
  }

  ghost predicate RecordedBySome(calls: map<CallId, Call>, e: Audit) {
    exists c :: c in calls && HasRecorded(calls[c].pc) && e == EntryOf(calls[c])
  }

  ghost predicate FollowsInv(s: System) {
    && (forall i :: 0 <= i < |s.shown| ==> ShownBySome(s.calls, s.shown[i]))
    && (forall i :: 0 <= i < |s.ledger| ==> RecordedBySome(s.calls, s.ledger[i]))
    && (forall i, j :: 0 <= i < j < |s.ledger| ==> s.ledger[i].id != s.ledger[j].id)
  }

  lemma BySomeStays(a: map<CallId, Call>, b: map<CallId, Call>)
    requires CallsAdvance(a, b)
    ensures forall card :: ShownBySome(a, card) ==> ShownBySome(b, card)
    ensures forall e :: RecordedBySome(a, e) ==> RecordedBySome(b, e)
  {
    forall card | ShownBySome(a, card) ensures ShownBySome(b, card) {
      var c :| c in a && HasShown(a[c].pc) && card == CardOf(a[c]);
      assert CallAdvances(a[c], b[c]);
    }
    forall e | RecordedBySome(a, e) ensures RecordedBySome(b, e) {
      var c :| c in a && HasRecorded(a[c].pc) && e == EntryOf(a[c]);
      assert CallAdvances(a[c], b[c]);
    }
  }

  /** Whoever is about to record is the only call accepted for its id, and has not recorded. */
  lemma NotYetRecorded(s: System, c: CallId)
    requires Inv(s) && FollowsInv(s) && c in s.calls && s.calls[c].pc.Auditing?
    ensures forall i :: 0 <= i < |s.ledger| ==> s.ledger[i].id != s.calls[c].id
  {
    forall i | 0 <= i < |s.ledger| ensures s.ledger[i].id != s.calls[c].id {
      assert RecordedBySome(s.calls, s.ledger[i]);
      var d :| d in s.calls && HasRecorded(s.calls[d].pc) && s.ledger[i] == EntryOf(s.calls[d]);
      assert Accepted(s.calls[d].pc) && Accepted(s.calls[c].pc);
    }
  }

  lemma FollowsStep(s: System, st: Step)
    requires Inv(s) && FollowsInv(s) && Enabled(s, st)
    ensures FollowsInv(Apply(s, st))
  {
    StepAdvances(s, st);
    BySomeStays(s.calls, Apply(s, st).calls);
    if st.PublishResolved? {
      FollowsShown(s, st.c);
    } else if st.RecordDecision? {
      FollowsRecorded(s, st.c, st.stored);
    } else {
      HistoriesSame(s, st);
    }
  }

  lemma HistoriesSame(s: System, st: Step)
    requires Enabled(s, st) && !st.PublishResolved? && !st.RecordDecision?
    ensures Apply(s, st).shown == s.shown && Apply(s, st).ledger == s.ledger
  {
  }

  lemma FollowsShown(s: System, c: CallId)
    requires FollowsInv(s) && Enabled(s, PublishResolved(c))
    ensures FollowsInv(Apply(s, PublishResolved(c)))
  {
    var s' := Apply(s, PublishResolved(c));
    StepAdvances(s, PublishResolved(c));
    BySomeStays(s.calls, s'.calls);
    assert s'.calls[c].pc.Auditing? && ShownBySome(s'.calls, CardOf(s'.calls[c]));
  }

  lemma FollowsRecorded(s: System, c: CallId, stored: bool)
    requires Inv(s) && FollowsInv(s) && Enabled(s, RecordDecision(c, stored))
    ensures FollowsInv(Apply(s, RecordDecision(c, stored)))
  {
    var s' := Apply(s, RecordDecision(c, stored));
    StepAdvances(s, RecordDecision(c, stored));
    NotYetRecorded(s, c);
    RecordingWrites(s, c, stored);
    EntryAdded(s, s', if stored then [EntryOf(s'.calls[c])] else []);
  }

  lemma RecordingWrites(s: System, c: CallId, stored: bool)
    requires Enabled(s, RecordDecision(c, stored))
    ensures var s' := Apply(s, RecordDecision(c, stored));
      && s'.ledger == s.ledger + (if stored then [EntryOf(s'.calls[c])] else []) && s'.shown == s.shown
      && HasRecorded(s'.calls[c].pc) && EntryOf(s'.calls[c]).id == s.calls[c].id
  {
    assert s.ledger + [] == s.ledger;
  }

  lemma EntryAdded(s: System, s': System, added: seq<Audit>)
    requires FollowsInv(s) && CallsAdvance(s.calls, s'.calls) && s'.shown == s.shown && s'.ledger == s.ledger + added && |added| <= 1
    requires forall i, k :: 0 <= i < |s.ledger| && 0 <= k < |added| ==> s.ledger[i].id != added[k].id
    requires forall k :: 0 <= k < |added| ==> RecordedBySome(s'.calls, added[k])
    ensures FollowsInv(s')
  {
    BySomeStays(s.calls, s'.calls);
    assert forall i :: 0 <= i < |s.ledger| ==> s'.ledger[i] == s.ledger[i];
    assert forall k :: 0 <= k < |added| ==> s'.ledger[|s.ledger| + k] == added[k];
  }

  lemma {:induction false} RunDecisions(states: seq<System>, steps: seq<Step>, n: nat)
    requires Run(states, steps) && n < |states|
    ensures Inv(states[n]) && ToldInv(states[n]) && FollowsInv(states[n])
  {
    RunInv(states, steps, n);
    if n > 0 {
      RunDecisions(states, steps, n - 1);
      ToldStep(states[n - 1], steps[n - 1]);
      FollowsStep(states[n - 1], steps[n - 1]);
    }
  }

  // ---- main results ------------------------------------------------------------------

  /** The word says what was decided: approve and allow-always approve, reject rejects. */
  predicate Carries(word: string, decision: string) {
    || (word == "approve" && (decision == "approve" || decision == "allow-always"))
    || (word == "reject" && decision == "reject")
  }

  /** One verdict for each approval reaches the gateway, and it is the one the human gave. */
  lemma GatewayIsToldTheDecisionOnce(states: seq<System>, steps: seq<Step>, n: nat, i: nat)
    requires Run(states, steps) && n < |states| && i < |states[n].told|
    ensures var s, t := states[n], states[n].told[i];
      && (forall j :: 0 <= j < |s.told| && j != i ==> s.told[j].id != t.id)
      && t.call in s.calls && s.calls[t.call].id == t.id && Carries(t.word, s.calls[t.call].decision)
  {
    RunDecisions(states, steps, n);
    var s, t := states[n], states[n].told[i];
    assert ToldOk(s, t);
    InvalidAtTheDoor(states, steps, n, t.call);
  }

  /** A call is answered Invalid exactly when its decision is none of the three. */
  lemma {:induction false} InvalidAtTheDoor(states: seq<System>, steps: seq<Step>, n: nat, c: CallId)
    requires Run(states, steps) && n < |states| && c in states[n].calls
    ensures DoorOk(states[n].calls[c])
  {
    if c in states[n - 1].calls {
      InvalidAtTheDoor(states, steps, n - 1, c);
    }
    InvalidStep(states[n - 1], steps[n - 1], c);
  }

  predicate DoorOk(call: Call) {
    && call.pc != Releasing(Invalid)
    && (call.pc == Done(Invalid) <==> call.decision != "approve" && call.decision != "reject" && call.decision != "allow-always")
  }

  lemma InvalidStep(s: System, st: Step, c: CallId)
    requires Enabled(s, st) && c in Apply(s, st).calls && (c in s.calls ==> DoorOk(s.calls[c]))
    ensures DoorOk(Apply(s, st).calls[c])
  {
  }

  /** A call that succeeds told the gateway its decision, about an approval the gateway had listed for its own session. */
  lemma SuccessMeansTold(states: seq<System>, steps: seq<Step>, n: nat, c: CallId)
    requires Run(states, steps) && n < |states| && c in states[n].calls && states[n].calls[c].pc == Done(Success)
    ensures var s, call := states[n], states[n].calls[c];
      && call.id in s.gw.bound && s.gw.bound[call.id] == call.owner
      && exists i :: 0 <= i < |s.told| && s.told[i].id == call.id && s.told[i].call == c
  {
    RunDecisions(states, steps, n);
    assert ToldBy(states[n], c);
  }

  /** Every ledger entry is one of an approval's own, says what the gateway was told, and stands under the approval's user and session. */
  lemma LedgerSaysWhatTheGatewayWasTold(states: seq<System>, steps: seq<Step>, n: nat, k: nat)
    requires Run(states, steps) && n < |states| && k < |states[n].ledger|
    ensures var s, e := states[n], states[n].ledger[k];
      && e.id in s.gw.bound && s.gw.bound[e.id] == Owner(e.user, e.session)
      && (forall j :: 0 <= j < |s.ledger| && j != k ==> s.ledger[j].id != e.id)
      && exists i :: 0 <= i < |s.told| && s.told[i].id == e.id && SameVerdict(s.told[i].word, e.status)
  {
    RunDecisions(states, steps, n);
    var s, e := states[n], states[n].ledger[k];
    var c :| c in s.calls && HasRecorded(s.calls[c].pc) && e == EntryOf(s.calls[c]);
    assert ToldBy(s, c);
  }

  predicate SameVerdict(word: string, status: string) {
    (word == "approve" && status == "approved") || (word == "reject" && status == "rejected")
  }

  /** Every resolved card goes to the approval's own session and shows what the gateway was told. */
  lemma CardsShowWhatTheGatewayWasTold(states: seq<System>, steps: seq<Step>, n: nat, k: nat)
    requires Run(states, steps) && n < |states| && k < |states[n].shown|
    ensures var s, card := states[n], states[n].shown[k];
      && card.id in s.gw.bound && s.gw.bound[card.id].session == card.session
      && exists i :: 0 <= i < |s.told| && s.told[i].id == card.id && s.told[i].word == if card.approved then "approve" else "reject"
  {
    RunDecisions(states, steps, n);
    var s, card := states[n], states[n].shown[k];
    var c :| c in s.calls && HasShown(s.calls[c].pc) && card == CardOf(s.calls[c]);
    assert ToldBy(s, c);
  }

  // ---- what each answer means ------------------------------------------------------------

  /** The step that decides a call's answer. */
  ghost predicate Causes(s: System, st: Step, c: CallId, out: Outcome) {
    match out
    case Invalid => st.NewCall? && st.c == c
    case TimedOut => st == Expire(c)
    case ReadFailed => st == ReadPending(c, false)
    case NoPending(_) => st == ReadPending(c, true) && c in s.calls && !Finds(s.gw, s.calls[c].owner, s.calls[c].id)
    case WriteFailed => st == WriteDecision(c, true, false) || st == WriteDecision(c, false, false)
    case Success => st == WriteDecision(c, true, true)
  }

  ghost predicate CausedBefore(states: seq<System>, steps: seq<Step>, n: nat, c: CallId, out: Outcome) {
    exists i :: 0 <= i < n <= |steps| <= |states| && Causes(states[i], steps[i], c, out)
  }

  lemma CausedLater(states: seq<System>, steps: seq<Step>, n: nat, c: CallId, out: Outcome)
    requires |states| == |steps| + 1 && n < |steps| && (CausedBefore(states, steps, n, c, out) || Causes(states[n], steps[n], c, out))
    ensures CausedBefore(states, steps, n + 1, c, out)
  {
  }

  function AnswerOf(pc: Pc): Option<Outcome> {
    match pc
    case Releasing(out) => Some(out)
    case Done(out) => Some(out)
    case Publishing => Some(Success)
    case Auditing => Some(Success)
    case _ => None
  }

  /** Every answer has its cause: a timeout while waiting, a failed read or write, an approval not found, an accepted write. */
  lemma {:induction false} AnswersHaveTheirCause(states: seq<System>, steps: seq<Step>, n: nat, c: CallId)
    requires Run(states, steps) && n < |states| && c in states[n].calls && AnswerOf(states[n].calls[c].pc).Some?
    ensures CausedBefore(states, steps, n, c, AnswerOf(states[n].calls[c].pc).value)
  {
    var s, st := states[n - 1], steps[n - 1];
    var out := AnswerOf(states[n].calls[c].pc).value;
    if c in s.calls && AnswerOf(s.calls[c].pc) == Some(out) {
      AnswersHaveTheirCause(states, steps, n - 1, c);
    } else {
      AnswerStep(s, st, c);
    }
    CausedLater(states, steps, n - 1, c, out);
  }

  lemma AnswerStep(s: System, st: Step, c: CallId)
    requires Enabled(s, st) && c in Apply(s, st).calls && AnswerOf(Apply(s, st).calls[c].pc).Some?
    ensures var out := AnswerOf(Apply(s, st).calls[c].pc); (c in s.calls && AnswerOf(s.calls[c].pc) == out) || Causes(s, st, c, out.value)
  {
  }
}

/**
  The Stop protocol (internal/server/abort.go): name the run, abort exactly that
  run, settle the session's pending records, wait until the session is idle. The
  gateway may finish or promote runs between any two steps.
*/
module Stop {
  import opened Common

  // ---- the gateway's session -------------------------------------------------

  /** Run ids the session ever started, and those still in flight. */
  datatype Moment = Moment(started: set<string>, running: set<string>)

  ghost predicate Sound(m: Moment) {
    m.running <= m.started && "" !in m.started
  }

  /** Anything may start or end between two moments, but run ids are never reused. */
  ghost predicate Follows(m: Moment, m': Moment) {
    Sound(m') && m.started <= m'.started && forall r :: r in m.started && r !in m.running ==> r !in m'.running
  }

  predicate Gone(m: Moment, id: string) {
    id in m.started && id !in m.running
  }

  lemma GoneStaysGone(m: Moment, m': Moment, id: string)
    requires Gone(m, id) && Follows(m, m')
    ensures Gone(m', id)
  {
  }

  // ---- answers ---------------------------------------------------------------

  datatype LiveTurn = LiveTurn(user: string, runID: string)

  /** The in-flight read: an error, no run, or a run whose snapshot may carry no id (""). */
  datatype InFlight = ReadFailed | NoRun | Active(id: string)

  datatype AbortReply = AbortFailed | Answered(aborted: bool)

  /** `deadline`: the error is the request's deadline or cancellation. */
  datatype BusyReply = BusyFailed(deadline: bool) | Busy(busy: bool)

  datatype HubPoll = NotYet | ReportedIdle | ReportedExpiry

  /** One turn of the wait loop: the hub's report, the two re-reads, and whether the deadline ended it. */
  datatype Tick = Tick(hub: HubPoll, busy: BusyReply, at: Moment, streamOpen: bool, expired: bool)

  datatype Env = Env(
    post: bool, hasKey: bool, hasChannel: bool, user: string,
    live: Option<LiveTurn>,
    inFlight: InFlight, readAt: Moment,
    abort: AbortReply, abortAt: Moment,
    reconcile: BusyReply, reconcileAt: Moment,
    settleAt: Moment,
    ticks: seq<Tick>)

  ghost predicate TruthfulBusy(b: BusyReply, m: Moment) {
    b.Busy? ==> b.busy == (m.running != {})
  }

  /** The moments follow one another and every answer is true of its moment. */
  ghost predicate Truthful(e: Env) {
    && Sound(e.readAt) && Follows(e.readAt, e.abortAt) && Follows(e.abortAt, e.reconcileAt)
    && Follows(e.reconcileAt, e.settleAt)
    && (e.inFlight.NoRun? ==> e.readAt.running == {})
    && (e.inFlight.Active? && e.inFlight.id != "" ==> e.inFlight.id in e.readAt.running)
    && (e.abort == Answered(true) && TargetOf(e).Named? ==> Gone(e.abortAt, TargetOf(e).id))
    && TruthfulBusy(e.reconcile, e.reconcileAt)
    && forall i :: 0 <= i < |e.ticks| ==> TruthfulBusy(e.ticks[i].busy, e.ticks[i].at)
  }

  // ---- the handler -----------------------------------------------------------

  datatype Effect =
    | AbortSent(id: string)
    | BusyRead(busy: bool, at: Moment)
    | HubRead(streamOpen: bool)
    | Settled(at: Moment)
    | Responded(code: nat)

  datatype Target = Unknown | Idle | Named(id: string)

  function LiveRunID(live: Option<LiveTurn>, user: string): Option<string> {
    if live.Some? && live.value.user == user && live.value.runID != "" then Some(live.value.runID) else None
  }

  function TargetOf(e: Env): (t: Target)
    ensures t.Named? ==> t.id != ""
  {
    match LiveRunID(e.live, e.user)
    case Some(id) => Named(id)
    case None =>
      match e.inFlight
      case ReadFailed => Unknown
      case NoRun => Idle
      case Active(id) => if id == "" then Unknown else Named(id)
  }

  datatype Wait = Pending | Settles | Expires | Fails

  function TickOf(t: Tick): (seq<Effect>, Wait) {
    var rest := if t.expired then Expires else Pending;
    match t.hub
    case ReportedExpiry => ([], Expires)
    case NotYet => ([], rest)
    case ReportedIdle =>
      match t.busy
      case BusyFailed(deadline) => ([], if deadline then Expires else Fails)
      case Busy(true) => ([BusyRead(true, t.at)], rest)
      case Busy(false) =>
        ([BusyRead(false, t.at), HubRead(t.streamOpen)], if t.streamOpen then rest else Settles)
  }

  /** The loop ends at the first tick that decides; running out of ticks is the deadline. */
  function WaitOf(ticks: seq<Tick>): (seq<Effect>, Wait) {
    if ticks == [] then ([], Expires)
    else
      var (seen, w) := TickOf(ticks[0]);
      if w.Pending? then var (more, w') := WaitOf(ticks[1..]); (seen + more, w') else (seen, w)
  }

  function CodeOf(w: Wait): nat {
    match w
    case Settles => 200
    case Fails => 502
    case _ => 504
  }

  function SettleAndWait(e: Env): seq<Effect> {
    var (seen, w) := WaitOf(e.ticks);
    [Settled(e.settleAt)] + seen + [Responded(CodeOf(w))]
  }

  /** Settle only when the reconciling read says the session is not busy. */
  function AfterReconcile(e: Env): seq<Effect> {
    match e.reconcile
    case BusyFailed(_) => [Responded(502)]
    case Busy(busy) => [BusyRead(busy, e.reconcileAt)] + if busy then [Responded(502)] else SettleAndWait(e)
  }

  function Handled(e: Env): seq<Effect> {
    if !e.post then [Responded(405)]
    else if !e.hasKey then [Responded(400)]
    else if !e.hasChannel then [Responded(503)]
    else
      match TargetOf(e)
      case Unknown => [Responded(502)]
      case Idle => SettleAndWait(e)
      case Named(id) => [AbortSent(id)] + if e.abort == Answered(true) then SettleAndWait(e) else AfterReconcile(e)
  }

  method AbortLanded(e: Env, log0: seq<Effect>) returns (landed: bool, log: seq<Effect>)
    ensures landed == (e.reconcile == Busy(false))
    ensures log == log0 + if e.reconcile.Busy? then [BusyRead(e.reconcile.busy, e.reconcileAt)] else []
  {
    log := log0;
    if e.reconcile.BusyFailed? {
      return false, log;
    }
    log := log + [BusyRead(e.reconcile.busy, e.reconcileAt)];
    landed := !e.reconcile.busy;
  }

  /** One turn of the loop: both signals are read again after every report of the hub. */
  method PollOnce(t: Tick) returns (seen: seq<Effect>, w: Wait)
    ensures (seen, w) == TickOf(t)
  {
    seen := [];
    if t.hub.ReportedExpiry? {
      return seen, Expires;
    }
    if t.hub.ReportedIdle? {
      if t.busy.BusyFailed? {
        return seen, if t.busy.deadline then Expires else Fails;
      }
      seen := seen + [BusyRead(t.busy.busy, t.at)];
      assert seen == [BusyRead(t.busy.busy, t.at)];
      if !t.busy.busy {
        seen := seen + [HubRead(t.streamOpen)];
        assert seen == [BusyRead(false, t.at), HubRead(t.streamOpen)];
        if !t.streamOpen {
          return seen, Settles;
        }
      }
    }
    w := if t.expired then Expires else Pending;
  }

  function Prefixed(seen: seq<Effect>, rest: (seq<Effect>, Wait)): (seq<Effect>, Wait) {
    (seen + rest.0, rest.1)
  }

  lemma PrefixedTwice(a: seq<Effect>, b: seq<Effect>, rest: (seq<Effect>, Wait))
    ensures Prefixed(a + b, rest) == Prefixed(a, Prefixed(b, rest)) && Prefixed([], rest) == rest
  {
    assert a + b + rest.0 == a + (b + rest.0) && [] + rest.0 == rest.0;
  }

  method WaitSessionIdle(ticks: seq<Tick>) returns (seen: seq<Effect>, w: Wait)
    ensures (seen, w) == WaitOf(ticks)
  {
    seen := [];
    var i := 0;
    PrefixedTwice([], [], WaitOf(ticks));
    while i < |ticks|
      invariant 0 <= i <= |ticks|
      invariant WaitOf(ticks) == Prefixed(seen, WaitOf(ticks[i..]))
    {
      assert ticks[i..][0] == ticks[i] && ticks[i..][1..] == ticks[i + 1..];
      var polled;
      polled, w := PollOnce(ticks[i]);
      PrefixedTwice(seen, polled, WaitOf(ticks[i + 1..]));
      seen := seen + polled;
      if !w.Pending? {
        return;
      }
      i := i + 1;
    }
    PrefixedTwice(seen, [], ([], Expires));
    assert seen + [] == seen;
    w := Expires;
  }

  /** Step 1: the run id from the live turn, or from the gateway; idle and unknown kept apart. */
  method Identify(e: Env) returns (runID: string, idle: bool, unknown: bool)
    ensures TargetOf(e) == if unknown then Unknown else if idle then Idle else Named(runID)
  {
    runID, idle, unknown := "", false, false;
    var local := LiveRunID(e.live, e.user);
    if local.Some? {
      runID := local.value;
    } else if e.inFlight.ReadFailed? || (e.inFlight.Active? && e.inFlight.id == "") {
      unknown := true;
    } else if e.inFlight.NoRun? {
      idle := true;
    } else {
      runID := e.inFlight.id;
    }
  }

  method SettleThenWait(e: Env, log0: seq<Effect>) returns (log: seq<Effect>)
    ensures log == log0 + SettleAndWait(e)
  {
    var seen, w := WaitSessionIdle(e.ticks);
    log := log0 + ([Settled(e.settleAt)] + seen + [Responded(CodeOf(w))]);
  }

  /** The RPC, and the read that reconciles any outcome but a proven stop. */
  method StopRun(e: Env, runID: string) returns (log: seq<Effect>)
    ensures log == [AbortSent(runID)] + if e.abort == Answered(true) then SettleAndWait(e) else AfterReconcile(e)
  {
    log := [AbortSent(runID)];
    var aborted, failed := e.abort == Answered(true), e.abort.AbortFailed?;
    if failed || !aborted {
      var landed;
      landed, log := AbortLanded(e, log);
      if !landed {
        log := log + [Responded(502)];
        return;
      }
      log := SettleThenWait(e, log);
      assert log == [AbortSent(runID)] + ([BusyRead(false, e.reconcileAt)] + SettleAndWait(e));
      return;
    }
    log := SettleThenWait(e, log);
  }

  method HandleAbort(e: Env) returns (log: seq<Effect>)
    ensures log == Handled(e)
  {
    if !e.post {
      return [Responded(405)];
    }
    if !e.hasKey {
      return [Responded(400)];
    }
    if !e.hasChannel {
      return [Responded(503)];
    }
    var runID, idle, unknown := Identify(e);
    if unknown {
      return [Responded(502)];
    }
    if idle {
      log := SettleThenWait(e, []);
    } else {
      log := StopRun(e, runID);
    }
  }

  // ---- what the wait shows ---------------------------------------------------

  lemma {:induction false} WaitReads(ticks: seq<Tick>)
    ensures forall i :: 0 <= i < |WaitOf(ticks).0| ==> WaitOf(ticks).0[i].BusyRead? || WaitOf(ticks).0[i].HubRead?
    ensures WaitOf(ticks).1 != Pending
    ensures var (seen, w) := WaitOf(ticks);
      w.Settles? ==> |seen| >= 2 && seen[|seen| - 1] == HubRead(false) && seen[|seen| - 2].BusyRead? && !seen[|seen| - 2].busy
  {
    if ticks != [] && TickOf(ticks[0]).1.Pending? {
      WaitReads(ticks[1..]);
    }
  }

  /** The effects in front of the settle-and-wait, when the handler gets that far. */
  function Lead(e: Env): seq<Effect> {
    match TargetOf(e)
    case Named(id) => if e.abort == Answered(true) then [AbortSent(id)] else [AbortSent(id), BusyRead(false, e.reconcileAt)]
    case _ => []
  }

  predicate Accepted(e: Env) {
    e.post && e.hasKey && e.hasChannel
  }

  /** The three proofs that the run is gone: an idle read, aborted:true, or a not-busy reconciliation. */
  predicate Proven(e: Env) {
    Accepted(e) &&
    match TargetOf(e)
    case Unknown => false
    case Idle => true
    case Named(_) => e.abort == Answered(true) || e.reconcile == Busy(false)
  }

  lemma Shape(e: Env)
    ensures Proven(e) ==> Handled(e) == Lead(e) + SettleAndWait(e)
    ensures !Proven(e) ==> forall i :: 0 <= i < |Handled(e)| ==> !Handled(e)[i].Settled?
  {
    if Proven(e) && TargetOf(e).Named? && e.abort != Answered(true) {
      assert [AbortSent(TargetOf(e).id)] + ([BusyRead(false, e.reconcileAt)] + SettleAndWait(e)) == Lead(e) + SettleAndWait(e);
    }
  }

  // ---- main results ----------------------------------------------------------

  /** chat.abort carries a run id, goes out at most once and first, and never for a session read as idle. */
  lemma AbortAlwaysNamesARun(e: Env)
    ensures var log := Handled(e);
      forall i :: 0 <= i < |log| && log[i].AbortSent? ==>
        i == 0 && log[i].id != "" && TargetOf(e) == Named(log[i].id)
  {
    WaitReads(e.ticks);
  }

  /** Exactly one response, and nothing after it. */
  lemma RespondsOnceAndLast(e: Env)
    ensures var log := Handled(e);
      log != [] && forall i :: 0 <= i < |log| ==> (log[i].Responded? <==> i == |log| - 1)
  {
    WaitReads(e.ticks);
    Shape(e);
  }

  /** Settlement never starts while the run this Stop named is in flight, once that run has started. */
  lemma SettlesOnlyAfterTheNamedRunIsGone(e: Env, i: nat)
    requires Truthful(e) && i < |Handled(e)| && Handled(e)[i].Settled? && TargetOf(e).Named?
    requires TargetOf(e).id in e.reconcileAt.started || e.abort == Answered(true)
    ensures Gone(Handled(e)[i].at, TargetOf(e).id)
  {
    Shape(e);
    WaitReads(e.ticks);
    var id := TargetOf(e).id;
    if e.abort == Answered(true) {
      GoneStaysGone(e.abortAt, e.reconcileAt, id);
    } else {
      assert e.reconcile == Busy(false);
    }
    GoneStaysGone(e.reconcileAt, e.settleAt, id);
  }

  /** A run the gateway itself named has started, so for it the guarantee has no proviso. */
  lemma SettlesOnlyAfterTheGatewaysRunIsGone(e: Env, i: nat)
    requires Truthful(e) && i < |Handled(e)| && Handled(e)[i].Settled? && TargetOf(e).Named?
    requires LiveRunID(e.live, e.user).None?
    ensures Gone(Handled(e)[i].at, TargetOf(e).id)
  {
    SettlesOnlyAfterTheNamedRunIsGone(e, i);
  }

  /**
    A live turn installs its run id before it sends. Settling on a not-busy read is
    then safe in every future of that read exactly when the run had started.
  */
  lemma ReconciledSettleIsSafeIffStarted(e: Env)
    requires Truthful(e) && Proven(e) && TargetOf(e).Named? && e.abort != Answered(true)
    ensures (forall m :: Follows(e.reconcileAt, m) ==> TargetOf(e).id !in m.running) <==> TargetOf(e).id in e.reconcileAt.started
  {
    var id, m := TargetOf(e).id, e.reconcileAt;
    if id !in m.started {
      var later := Moment(m.started + {id}, m.running + {id});
      assert Follows(m, later) && id in later.running;
    }
  }

  function QuietTick(at: Moment): Tick {
    Tick(ReportedIdle, Busy(false), at, false, false)
  }

  const NOTHING := Moment({}, {})
  const SENT := Moment({"r"}, {"r"})

  /** The Stop of a turn that has not sent yet: its run starts under the settlement. */
  function UnsentTurn(): Env {
    Env(true, true, true, "u", Some(LiveTurn("u", "r")), NoRun, NOTHING, Answered(false), NOTHING,
        Busy(false), NOTHING, SENT, [])
  }

  lemma UnsentRunStartsUnderTheSettlement()
    ensures var e := UnsentTurn();
      Truthful(e) && TargetOf(e) == Named("r") && Settled(SENT) in Handled(e) && "r" in SENT.running
  {
    var e := UnsentTurn();
    Shape(e);
    assert Handled(e) == Lead(e) + SettleAndWait(e);
    assert SettleAndWait(e)[0] == Settled(SENT);
    assert Handled(e)[2] == Settled(SENT);
  }

  // ---- the session-wide invariant ----------------------------------------------

  /** The moment of the proof step 1 ends with. */
  function ProofAt(e: Env): Moment
    requires Proven(e)
  {
    match TargetOf(e)
    case Named(_) => if e.abort == Answered(true) then e.abortAt else e.reconcileAt
    case _ => e.readAt
  }

  lemma FollowsIsTransitive(a: Moment, b: Moment, c: Moment)
    requires Follows(a, b) && Follows(b, c)
    ensures Follows(a, c)
  {
  }

  lemma SettlementFollowsTheProof(e: Env)
    requires Truthful(e) && Proven(e)
    ensures Sound(ProofAt(e)) && Follows(ProofAt(e), e.settleAt)
    ensures !(TargetOf(e).Named? && e.abort == Answered(true)) ==> ProofAt(e).running == {}
  {
    FollowsIsTransitive(e.abortAt, e.reconcileAt, e.settleAt);
    FollowsIsTransitive(e.readAt, e.abortAt, e.settleAt);
  }

  /** Every run in flight at the settlement had started by the proof. */
  predicate NothingPromoted(e: Env)
    requires Proven(e)
  {
    forall r :: r in e.settleAt.running ==> r in ProofAt(e).started
  }

  /** Every run in flight at the proof has ended by the settlement. */
  predicate NothingLeftOver(e: Env)
    requires Proven(e)
  {
    forall r :: r in ProofAt(e).running ==> r !in e.settleAt.running
  }

  /**
    The invariant of the handler's comment, no run of the session in flight at the
    settlement, holds exactly when nothing was promoted after the proof and nothing
    that ran beside the proof still runs. A not-busy read rules the second out; an
    answered abort does not, unless the session held no other run.
  */
  lemma SessionIsIdleAtTheSettlementIff(e: Env)
    requires Truthful(e) && Proven(e)
    ensures e.settleAt.running == {} <==> NothingPromoted(e) && NothingLeftOver(e)
    ensures !(TargetOf(e).Named? && e.abort == Answered(true)) ==> (e.settleAt.running == {} <==> NothingPromoted(e))
    ensures ProofAt(e).running == {} ==> (e.settleAt.running == {} <==> NothingPromoted(e))
  {
    SettlementFollowsTheProof(e);
    if NothingPromoted(e) && NothingLeftOver(e) {
      forall r ensures r !in e.settleAt.running {
      }
    }
  }

  lemma {:induction false} LengthBound(s: set<string>) returns (n: nat)
    ensures forall x :: x in s ==> |x| <= n
    decreases s
  {
    if s == {} {
      n := 0;
    } else {
      var x := Pick(s);
      var m := LengthBound(s - {x});
      n := if |x| > m then |x| else m;
    }
  }

  /** There is always an id no run has had. */
  lemma FreshId(s: set<string>) returns (x: string)
    ensures x !in s && x != ""
  {
    var n := LengthBound(s);
    x := seq(n + 1, _ => 'r');
  }

  /** The two environments give the handler the same answers to everything it asks. */
  predicate SameAnswers(e: Env, f: Env) {
    && e.post == f.post && e.hasKey == f.hasKey && e.hasChannel == f.hasChannel && e.user == f.user && e.live == f.live
    && (LiveRunID(e.live, e.user).None? ==> e.inFlight == f.inFlight)
    && e.abort == f.abort && e.reconcile == f.reconcile && |e.ticks| == |f.ticks|
    && forall i :: 0 <= i < |e.ticks| ==>
         e.ticks[i].hub == f.ticks[i].hub && e.ticks[i].busy == f.ticks[i].busy
         && e.ticks[i].streamOpen == f.ticks[i].streamOpen && e.ticks[i].expired == f.ticks[i].expired
  }

  lemma SettlesAt(e: Env)
    requires Proven(e)
    ensures Settled(e.settleAt) in Handled(e)
  {
    Shape(e);
    assert SettleAndWait(e)[0] == Settled(e.settleAt);
    assert Handled(e)[|Lead(e)|] == Settled(e.settleAt);
  }

  /** No answer guarantees it: whatever the handler was told, the same answers settle over a run promoted in between. */
  lemma NoAnswerGuaranteesAnIdleSession(e: Env) returns (f: Env)
    requires Truthful(e) && Proven(e)
    ensures SameAnswers(e, f) && Truthful(f) && Proven(f)
    ensures Settled(f.settleAt) in Handled(f) && f.settleAt.running != {}
  {
    var x := FreshId(e.settleAt.started);
    f := e.(settleAt := Moment(e.settleAt.started + {x}, e.settleAt.running + {x}));
    assert x in f.settleAt.running;
    SettlesAt(f);
  }

  /** An environment of the same answers in which the live turn's run starts only under the settlement. */
  function StartsLate(e: Env, id: string): Env {
    e.(inFlight := NoRun, readAt := NOTHING, abortAt := NOTHING, reconcileAt := NOTHING, settleAt := Moment({id}, {id}))
  }

  /**
    What the handler can tell: its answers guarantee that the run it named is gone at
    the settlement exactly when the abort was answered or the gateway had named the run.
  */
  lemma AnswersGuaranteeTheNamedRunIff(e: Env)
    requires Truthful(e) && Proven(e) && TargetOf(e).Named?
    ensures (forall f :: SameAnswers(e, f) && Truthful(f) ==> TargetOf(e).id !in f.settleAt.running) <==>
      e.abort == Answered(true) || LiveRunID(e.live, e.user).None?
  {
    var id := TargetOf(e).id;
    if e.abort == Answered(true) || LiveRunID(e.live, e.user).None? {
      forall f | SameAnswers(e, f) && Truthful(f) ensures id !in f.settleAt.running {
        NamedRunIsGone(f, id);
      }
    } else {
      var f := StartsLate(e, id);
      assert TargetOf(f) == Named(id);
      assert forall i :: 0 <= i < |f.ticks| ==> TruthfulBusy(f.ticks[i].busy, f.ticks[i].at);
      assert SameAnswers(e, f) && Truthful(f) && id in f.settleAt.running;
    }
  }

  lemma NamedRunIsGone(f: Env, id: string)
    requires Truthful(f) && Proven(f) && TargetOf(f) == Named(id)
    requires f.abort == Answered(true) || LiveRunID(f.live, f.user).None?
    ensures id !in f.settleAt.running
  {
    SettlementFollowsTheProof(f);
    if f.abort != Answered(true) {
      FollowsIsTransitive(f.readAt, f.abortAt, f.reconcileAt);
      assert id in f.reconcileAt.started;
    }
    GoneStaysGone(ProofAt(f), f.settleAt, id);
  }

  /** The session-wide reading fails: another run, promoted after the abort, is in flight at the settlement. */
  function PromotedRun(): Env {
    var gone, promoted := Moment({"r"}, {}), Moment({"r", "s"}, {"s"});
    Env(true, true, true, "u", None, Active("r"), SENT, Answered(true), gone, Busy(false), gone, promoted, [])
  }

  lemma PromotedRunIsSettledOver()
    ensures var e := PromotedRun();
      Truthful(e) && Settled(e.settleAt) in Handled(e) && e.settleAt.running == {"s"} && !NothingPromoted(e)
  {
    var e := PromotedRun();
    Shape(e);
    assert Handled(e)[1] == Settled(e.settleAt);
    assert "s" in e.settleAt.running;
  }

  /** A 502 leaves every record untouched exactly when nothing proved the run gone; the other 502 comes from the wait. */
  lemma BadGatewayLeavesRecordsIffNotProven(e: Env)
    requires Accepted(e) && Handled(e)[|Handled(e)| - 1] == Responded(502)
    ensures (forall i :: 0 <= i < |Handled(e)| ==> !Handled(e)[i].Settled?) <==> !Proven(e)
    ensures Proven(e) ==> WaitOf(e.ticks).1.Fails?
  {
    Shape(e);
    if Proven(e) {
      var log := Handled(e);
      assert log[|Lead(e)|] == Settled(e.settleAt);
      assert log[|log| - 1] == Responded(CodeOf(WaitOf(e.ticks).1));
      assert WaitOf(e.ticks).1.Fails?;
    }
  }

  /** Such a 502 exists: the settlement ran, then the wait's own read failed. */
  lemma SettledAndStillBadGateway()
    ensures var e := PromotedRun().(ticks := [QuietTick(SENT).(busy := BusyFailed(false))]);
      Truthful(e) && Handled(e)[|Handled(e)| - 1] == Responded(502) && Settled(e.settleAt) in Handled(e)
  {
    var e := PromotedRun().(ticks := [QuietTick(SENT).(busy := BusyFailed(false))]);
    Shape(e);
    assert WaitOf(e.ticks) == ([], Fails);
    assert Handled(e)[1] == Settled(e.settleAt);
  }

  ghost predicate TrueReads(seen: seq<Effect>) {
    forall i :: 0 <= i < |seen| && seen[i].BusyRead? ==> seen[i].busy == (seen[i].at.running != {})
  }

  lemma TickReadsAreTrue(t: Tick)
    requires TruthfulBusy(t.busy, t.at)
    ensures TrueReads(TickOf(t).0)
  {
  }

  lemma {:induction false} WaitReadsAreTrue(ticks: seq<Tick>)
    requires forall i :: 0 <= i < |ticks| ==> TruthfulBusy(ticks[i].busy, ticks[i].at)
    ensures TrueReads(WaitOf(ticks).0)
  {
    if ticks != [] {
      TickReadsAreTrue(ticks[0]);
      WaitReadsAreTrue(ticks[1..]);
      var a, b := TickOf(ticks[0]).0, WaitOf(ticks[1..]).0;
      assert TrueReads(a + b);
    }
  }

  /**
    A 200 follows the settlement, then a read taken when no run of the session was in
    flight, and directly after it an observation of no registered stream.
  */
  lemma OkFollowsQuietSession(e: Env)
    requires Truthful(e) && Handled(e)[|Handled(e)| - 1] == Responded(200)
    ensures var log := Handled(e);
      && |log| >= 4 && log[|log| - 2] == HubRead(false)
      && log[|log| - 3].BusyRead? && !log[|log| - 3].busy && log[|log| - 3].at.running == {}
      && exists i :: 0 <= i < |log| - 3 && log[i] == Settled(e.settleAt)
  {
    Shape(e);
    WaitReads(e.ticks);
    WaitReadsAreTrue(e.ticks);
    var log, seen := Handled(e), WaitOf(e.ticks).0;
    assert Proven(e);
    LogEnds(Lead(e), Settled(e.settleAt), seen, Responded(CodeOf(WaitOf(e.ticks).1)));
    assert log == Lead(e) + SettleAndWait(e);
  }

  lemma LogEnds(lead: seq<Effect>, settled: Effect, seen: seq<Effect>, last: Effect)
    ensures var log := lead + ([settled] + seen + [last]);
      && log[|lead|] == settled && log[|log| - 1] == last && |log| == |lead| + |seen| + 2
      && (|seen| >= 2 ==> log[|log| - 2] == seen[|seen| - 1] && log[|log| - 3] == seen[|seen| - 2])
  {
  }
}

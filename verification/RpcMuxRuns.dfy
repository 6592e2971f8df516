/**
  What the RPC multiplexer (RpcMux) keeps over whole runs: every interleaving of
  callers, pump, failure and close.
*/
module RpcMuxRuns {
  import opened RpcMux

  /** `states` is the run that takes the steps `steps` from the initial state. */
  ghost predicate Run(states: seq<System>, steps: seq<Step>) {
    && |states| == |steps| + 1
    && states[0] == Init()
    && forall i :: 0 <= i < |steps| ==> Enabled(states[i], steps[i]) && states[i + 1] == Apply(states[i], steps[i])
  }

  lemma {:induction false} RunInv(states: seq<System>, steps: seq<Step>, n: nat)
    requires Run(states, steps) && n < |states|
    ensures Inv(states[n])
  {
    if n == 0 {
      InitInv();
    } else {
      RunInv(states, steps, n - 1);
      StepInv(states[n - 1], steps[n - 1]);
    }
  }

  /**
    The pump never blocks in deliver: whenever it is about to send, the channel
    has room. An entry in the table has an empty, never used channel, and no
    channel ever carries two frames.
  */
  lemma {:induction false} PumpNeverBlocks(states: seq<System>, steps: seq<Step>, n: nat)
    requires Run(states, steps) && n < |states|
    ensures states[n].pump.Delivering? ==> Enabled(states[n], PumpSends)
    ensures forall id :: id in states[n].got ==> states[n].got[id] <= 1
    ensures forall id :: id in states[n].sh.pending ==>
      id in states[n].sh.queue && states[n].sh.queue[id] == [] && id in states[n].got && states[n].got[id] == 0
  {
    RunInv(states, steps, n);
  }

  /**
    A Call returns only a frame carrying its own id. The fall-through of
    drainedOutcome is never taken: once done is closed, every caller still in
    the select has its frame queued.
  */
  lemma {:induction false} RepliesMatchAndAreNotLost(states: seq<System>, steps: seq<Step>, n: nat, id: Id)
    requires Run(states, steps) && n < |states| && id in states[n].pc
    ensures states[n].pc[id].Returned? && states[n].pc[id].out.GotFrame? ==> states[n].pc[id].out.frame.id == id
    ensures states[n].sh.done && (states[n].pc[id].Waiting? || states[n].pc[id].Draining?) ==>
      id in states[n].sh.queue && states[n].sh.queue[id] != []
    ensures states[n].pc[id] != Returned(GotClosed)
  {
    RunInv(states, steps, n);
  }

  /** The token is taken exactly while one Call is between its acquisition and its release. */
  lemma {:induction false} OneWriterAndNoLeakedToken(states: seq<System>, steps: seq<Step>, n: nat)
    requires Run(states, steps) && n < |states|
    ensures states[n].sh.token <==> exists id :: id in states[n].pc && HasToken(states[n].pc[id])
    ensures forall i, j :: i in states[n].pc && j in states[n].pc && HasToken(states[n].pc[i]) && HasToken(states[n].pc[j]) ==> i == j
  {
    RunInv(states, steps, n);
  }

  /** No returned Call leaves an entry in the pending table. */
  lemma {:induction false} NoReturnedCallIsPending(states: seq<System>, steps: seq<Step>, n: nat, id: Id)
    requires Run(states, steps) && n < |states| && id in states[n].pc && states[n].pc[id].Returned?
    ensures id !in states[n].sh.pending
  {
    RunInv(states, steps, n);
  }

  // ---- where a frame comes from -------------------------------------------------

  /** The connection dies, and f is the error frame that says why. */
  predicate FailedWith(st: Step, f: Frame) {
    st.PumpFailsAll? && !f.ok && f.body == st.err
  }

  /** The step by which frame f enters the client: read off the wire for a pending id, or made for one when the connection dies. */
  ghost predicate Source(s: System, st: Step, f: Frame) {
    f.id in s.sh.pending && (st == PumpReadsReply(f) || FailedWith(st, f))
  }

  /** Every frame being delivered, queued or returned is one of these. */
  ghost predicate AllFrom(s: System, came: iset<Frame>) {
    && (s.pump.Delivering? ==> s.pump.frame in came)
    && (forall id, k :: id in s.sh.queue && 0 <= k < |s.sh.queue[id]| ==> s.sh.queue[id][k] in came)
    && (forall id :: id in s.pc && s.pc[id].Returned? && s.pc[id].out.GotFrame? ==> s.pc[id].out.frame in came)
  }

  ghost function Entering(s: System, st: Step): iset<Frame> {
    iset f: Frame | Source(s, st, f)
  }

  lemma AllFromStep(s: System, st: Step, came: iset<Frame>)
    requires Inv(s) && AllFrom(s, came) && Enabled(s, st)
    ensures AllFrom(Apply(s, st), came + Entering(s, st))
  {
    if TakingStep(st) {
      AllFromTaking(s, st, came);
    } else if st.PumpFailsAll? {
      AllFromFailing(s, st, came);
    } else if ReplyStep(st) {
      AllFromReply(s, st, came);
    } else {
      AllFromOther(s, st, came);
    }
  }

  lemma AllFromReply(s: System, st: Step, came: iset<Frame>)
    requires Inv(s) && AllFrom(s, came) && Enabled(s, st) && ReplyStep(st)
    ensures AllFrom(Apply(s, st), came + Entering(s, st))
  {
    if st.PumpReadsReply? {
      assert Apply(s, st).pump.Delivering? ==> Source(s, st, st.frame);
    }
  }

  lemma AllFromOther(s: System, st: Step, came: iset<Frame>)
    requires Inv(s) && AllFrom(s, came) && Enabled(s, st) && !TakingStep(st) && !ReplyStep(st) && !st.PumpFailsAll?
    ensures AllFrom(Apply(s, st), came)
  {
  }

  lemma AllFromTaking(s: System, st: Step, came: iset<Frame>)
    requires Inv(s) && AllFrom(s, came) && Enabled(s, st) && TakingStep(st)
    ensures AllFrom(Apply(s, st), came)
  {
    TakingEmpties(s, st);
    assert s.sh.queue[st.id] != [] ==> s.sh.queue[st.id][0] in came;
  }

  lemma AllFromFailing(s: System, st: Step, came: iset<Frame>)
    requires Inv(s) && AllFrom(s, came) && Enabled(s, st) && st.PumpFailsAll?
    ensures AllFrom(Apply(s, st), came + Entering(s, st))
  {
    var s' := Apply(s, st);
    forall id, k | id in s'.sh.queue && 0 <= k < |s'.sh.queue[id]| ensures s'.sh.queue[id][k] in came + Entering(s, st) {
      assert k < |s.sh.queue[id]| ==> s'.sh.queue[id][k] == s.sh.queue[id][k];
      assert k >= |s.sh.queue[id]| ==> Source(s, st, s'.sh.queue[id][k]);
    }
  }

  ghost function Came(states: seq<System>, steps: seq<Step>, n: nat): iset<Frame>
    requires |states| == |steps| + 1 && n < |states|
  {
    iset f, i | 0 <= i < n && Source(states[i], steps[i], f) :: f
  }

  lemma {:induction false} RunAllFrom(states: seq<System>, steps: seq<Step>, n: nat)
    requires Run(states, steps) && n < |states|
    ensures AllFrom(states[n], Came(states, steps, n))
  {
    if n > 0 {
      RunInv(states, steps, n - 1);
      RunAllFrom(states, steps, n - 1);
      AllFromStep(states[n - 1], steps[n - 1], Came(states, steps, n - 1));
      assert Came(states, steps, n - 1) + Entering(states[n - 1], steps[n - 1]) <= Came(states, steps, n);
    }
  }

  /**
    What a Call returns, whole: a frame the pump read off the wire, unchanged, while its
    id was pending, or the error frame of the failure that ended the connection.
  */
  lemma {:induction false} ReturnedFramesCameUnchanged(states: seq<System>, steps: seq<Step>, n: nat, id: Id, f: Frame)
    requires Run(states, steps) && n < |states| && id in states[n].pc && states[n].pc[id] == Returned(GotFrame(f))
    ensures f.id == id
    ensures exists i :: 0 <= i < n && id in states[i].sh.pending && (steps[i] == PumpReadsReply(f) || FailedWith(steps[i], f))
  {
    RunInv(states, steps, n);
    RunAllFrom(states, steps, n);
    var i :| 0 <= i < n && Source(states[i], steps[i], f);
    assert id in states[i].sh.pending;
  }

  /** The reply to f.id is on its way or was handed over: nothing else can answer that Call any more. */
  ghost predicate AnswerIs(s: System, f: Frame) {
    && f.id in s.pc && !s.pc[f.id].Allocated? && f.id !in s.sh.pending
    && (s.pump.Delivering? && s.pump.frame.id == f.id ==> s.pump.frame == f)
    && (f.id in s.sh.queue ==> s.sh.queue[f.id] == [] || s.sh.queue[f.id] == [f])
    && (s.pc[f.id].Returned? && s.pc[f.id].out.GotFrame? ==> s.pc[f.id].out.frame == f)
  }

  lemma AnswerStays(s: System, st: Step, f: Frame)
    requires Inv(s) && Enabled(s, st) && AnswerIs(s, f)
    ensures AnswerIs(Apply(s, st), f)
  {
    if TakingStep(st) {
      AnswerTaken(s, st, f);
    } else if ReplyStep(st) {
      AnswerSent(s, st, f);
    } else if CallerStep(st) {
      AnswerCaller(s, st, f);
    } else {
      AnswerElse(s, st, f);
    }
  }

  lemma AnswerCaller(s: System, st: Step, f: Frame)
    requires Inv(s) && Enabled(s, st) && AnswerIs(s, f) && CallerStep(st)
    ensures AnswerIs(Apply(s, st), f)
  {
  }

  lemma AnswerElse(s: System, st: Step, f: Frame)
    requires Inv(s) && Enabled(s, st) && AnswerIs(s, f) && !CallerStep(st) && !TakingStep(st) && !ReplyStep(st)
    ensures AnswerIs(Apply(s, st), f)
  {
  }

  lemma AnswerTaken(s: System, st: Step, f: Frame)
    requires Inv(s) && Enabled(s, st) && AnswerIs(s, f) && TakingStep(st)
    ensures AnswerIs(Apply(s, st), f)
  {
    TakingEmpties(s, st);
  }

  lemma AnswerSent(s: System, st: Step, f: Frame)
    requires Inv(s) && Enabled(s, st) && AnswerIs(s, f) && ReplyStep(st)
    ensures AnswerIs(Apply(s, st), f)
  {
    if st.PumpSends? && s.pump.frame.id == f.id {
      assert s.sh.queue[f.id] == [];
      assert [] + [f] == [f];
    }
  }

  /** A reply read while its id is pending is the only frame that Call can return. */
  lemma {:induction false} TheReplyIsTheAnswer(states: seq<System>, steps: seq<Step>, i: nat, n: nat, f: Frame, g: Frame)
    requires Run(states, steps) && i < n < |states| && steps[i] == PumpReadsReply(f) && f.id in states[i].sh.pending
    requires f.id in states[n].pc && states[n].pc[f.id] == Returned(GotFrame(g))
    ensures g == f
  {
    RunAnswer(states, steps, i, n, f);
  }

  lemma {:induction false} RunAnswer(states: seq<System>, steps: seq<Step>, i: nat, n: nat, f: Frame)
    requires Run(states, steps) && i < n < |states| && steps[i] == PumpReadsReply(f) && f.id in states[i].sh.pending
    ensures AnswerIs(states[n], f)
  {
    RunInv(states, steps, n - 1);
    if n == i + 1 {
      assert states[n - 1].sh.queue[f.id] == [];
    } else {
      RunAnswer(states, steps, i, n - 1, f);
      AnswerStays(states[n - 1], steps[n - 1], f);
    }
  }

  // ---- when a Call fails without a frame --------------------------------------------

  predicate GaveUp(p: Pc) {
    p == Wrote(false) || p.Cleanup? || p == Returned(GotCtxErr)
  }

  /** Its context ended, before the token or in the final select, or its write failed. */
  predicate GivesUp(st: Step, id: Id) {
    st == AcquireTimeout(id) || st == WriteFrame(id, false) || st == CtxDone(id)
  }

  ghost predicate GaveUpBefore(steps: seq<Step>, n: nat, id: Id) {
    exists i :: 0 <= i < n <= |steps| && GivesUp(steps[i], id)
  }

  lemma GaveUpBeforeNext(steps: seq<Step>, n: nat, id: Id)
    requires 0 < n <= |steps|
    ensures GaveUpBefore(steps, n, id) <==> GaveUpBefore(steps, n - 1, id) || GivesUp(steps[n - 1], id)
  {
  }

  /** A Call ends with a plain error exactly when its context ended or its write failed. */
  lemma {:induction false} CallFailsIffItGaveUp(states: seq<System>, steps: seq<Step>, n: nat, id: Id)
    requires Run(states, steps) && n < |states| && id in states[n].pc
    ensures GaveUp(states[n].pc[id]) <==> GaveUpBefore(steps, n, id)
  {
    if n > 0 {
      RunInv(states, steps, n - 1);
      GaveUpStep(states[n - 1], steps[n - 1], id);
      GaveUpBeforeNext(steps, n, id);
      if id in states[n - 1].pc {
        CallFailsIffItGaveUp(states, steps, n - 1, id);
      } else {
        UnknownIdsGaveNothingUp(states, steps, n - 1, id);
      }
    }
  }

  lemma {:induction false} UnknownIdsGaveNothingUp(states: seq<System>, steps: seq<Step>, n: nat, id: Id)
    requires Run(states, steps) && n < |states| && id !in states[n].pc
    ensures !GaveUpBefore(steps, n, id)
  {
    if n > 0 {
      UnknownIdsGaveNothingUp(states, steps, n - 1, id);
      GaveUpBeforeNext(steps, n, id);
    }
  }

  lemma GaveUpStep(s: System, st: Step, id: Id)
    requires Enabled(s, st) && id in Apply(s, st).pc && forall d :: d in s.pc ==> d <= s.sh.nextID
    ensures GaveUp(Apply(s, st).pc[id]) <==> (id in s.pc && GaveUp(s.pc[id])) || GivesUp(st, id)
  {
  }
}

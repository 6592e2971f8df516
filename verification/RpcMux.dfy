/**
  The gateway WebSocket client (internal/openclaw/ws/client.go): many callers
  multiplex requests over one connection. The shared memory is a pending table,
  one capacity-1 reply channel for each request, a capacity-1 write token and
  the connection flags. A read pump delivers replies and, when the connection
  dies, fails whatever is still pending.

  Shared is that memory, Client the class whose methods are the source's atomic
  sections on it. System adds the program counters of the callers and of the
  pump; Step is one atomic section of one of them, so a run is any interleaving.
*/
module RpcMux {
  import opened Common

  type Id = nat

  /** A response frame: `ok` selects payload or error in `body`. */
  datatype Frame = Frame(id: Id, ok: bool, body: string)

  /** The memory every goroutine shares. `queue[id]` is the buffer of the channel made for request id. */
  datatype Shared = Shared(
    nextID: Id,
    pending: set<Id>,
    queue: map<Id, seq<Frame>>,
    token: bool,
    connClosed: bool,
    done: bool)

  const CHAN_CAP := 1

  function Unavailable(id: Id, err: string): Frame {
    Frame(id, false, err)
  }

  /** What failAllPending leaves in each channel: one error frame where there was room. */
  function FailQueues(queue: map<Id, seq<Frame>>, ids: set<Id>, err: string): map<Id, seq<Frame>> {
    map id | id in queue ::
      if id in ids && |queue[id]| < CHAN_CAP then queue[id] + [Unavailable(id, err)] else queue[id]
  }

  lemma FailQueuesOneMore(queue: map<Id, seq<Frame>>, ids: set<Id>, id: Id, err: string)
    requires id in queue && id !in ids
    ensures FailQueues(queue, ids + {id}, err) ==
      var q := FailQueues(queue, ids, err);
      if |q[id]| < CHAN_CAP then q[id := q[id] + [Unavailable(id, err)]] else q
  {
  }

  lemma FailedQueuesAre(queue: map<Id, seq<Frame>>, ids: set<Id>, err: string)
    ensures var q := FailQueues(queue, ids, err);
      && q.Keys == queue.Keys
      && (forall id :: id in q && id in ids && queue[id] == [] ==> q[id] == [Frame(id, false, err)])
      && (forall id :: id in q && !(id in ids && queue[id] == []) ==> q[id] == queue[id])
  {
    assert forall f: Frame :: [] + [f] == [f];
  }

  class Client {
    var nextID: Id
    var pending: set<Id>
    var queue: map<Id, seq<Frame>>
    var writeToken: bool
    var connClosed: bool
    var done: bool

    ghost function Abs(): Shared
      reads this
    {
      Shared(nextID, pending, queue, writeToken, connClosed, done)
    }

    constructor ()
      ensures Abs() == InitShared()
    {
      nextID := 0;
      pending := {};
      queue := map[];
      writeToken := false;
      connClosed := false;
      done := false;
    }

    /** Take a fresh request id. */
    method NewRequest() returns (id: Id)
      modifies this
      ensures id == old(nextID) + 1
      ensures Abs() == old(Abs()).(nextID := id)
    {
      nextID := nextID + 1;
      id := nextID;
    }

    /** Make the reply channel and enter it in the pending table. */
    method Register(id: Id)
      modifies this
      ensures Abs() == DoRegister(old(Abs()), id)
      ensures queue == old(queue)[id := []] && pending == old(pending) + {id}
    {
      queue := queue[id := []];
      pending := pending + {id};
    }

    method Unregister(id: Id)
      modifies this
      ensures Abs() == DoUnregister(old(Abs()), id)
      ensures pending == old(pending) - {id} && queue == old(queue)
    {
      pending := pending - {id};
    }

    /** One attempt at the select's send case: it is enabled only while the token channel is empty. */
    method TryAcquireWrite() returns (ok: bool)
      modifies this
      ensures ok == !old(writeToken)
      ensures Abs() == old(Abs()).(token := true)
    {
      ok := !writeToken;
      writeToken := true;
    }

    method ReleaseWrite()
      modifies this
      ensures Abs() == old(Abs()).(token := false)
    {
      writeToken := false;
    }

    /** The locked half of deliver: look the id up and take it out of the table. */
    method TakePending(f: Frame) returns (found: bool)
      modifies this
      ensures found == (f.id in old(pending))
      ensures Abs() == DoUnregister(old(Abs()), f.id)
      ensures pending == old(pending) - {f.id} && queue == old(queue)
    {
      found := f.id in pending;
      pending := pending - {f.id};
    }

    /** The unlocked half of deliver: a channel send, which would block on a full buffer. */
    method SendReply(f: Frame)
      requires f.id in queue && |queue[f.id]| < CHAN_CAP
      modifies this
      ensures Abs() == DoSend(old(Abs()), f)
      ensures queue == old(queue)[f.id := old(queue)[f.id] + [f]] && pending == old(pending)
    {
      queue := queue[f.id := queue[f.id] + [f]];
    }

    /** Empty the pending table, queueing one error frame for each entry whose channel has room. */
    method FailAllPending(err: string)
      requires pending <= queue.Keys
      modifies this
      ensures Abs() == DoFailAll(old(Abs()), err)
      ensures pending == {} && queue.Keys == old(queue).Keys
      ensures forall id :: id in queue && id in old(pending) && old(queue)[id] == [] ==> queue[id] == [Frame(id, false, err)]
      ensures forall id :: id in queue && !(id in old(pending) && old(queue)[id] == []) ==> queue[id] == old(queue)[id]
    {
      ghost var failed: set<Id> := {};
      while pending != {}
        invariant pending <= old(pending) && failed == old(pending) - pending
        invariant queue == FailQueues(old(queue), failed, err)
        invariant unchanged(`nextID) && unchanged(`writeToken) && unchanged(`connClosed) && unchanged(`done)
        decreases pending
      {
        var id :| id in pending;
        pending := pending - {id};
        if |queue[id]| < CHAN_CAP {
          queue := queue[id := queue[id] + [Unavailable(id, err)]];
        }
        FailQueuesOneMore(old(queue), failed, id, err);
        assert queue == FailQueues(old(queue), failed + {id}, err);
        failed := failed + {id};
      }
      FailedQueuesAre(old(queue), failed, err);
    }

    /** Non-blocking receive: the queued frame when there is one. */
    method DrainedOutcome(id: Id) returns (out: Option<Frame>)
      requires id in queue
      modifies this
      ensures out == (if old(queue)[id] == [] then None else Some(old(queue)[id][0]))
      ensures Abs() == DoReceive(old(Abs()), id)
      ensures queue == old(queue)[id := if old(queue)[id] == [] then [] else old(queue)[id][1..]]
    {
      if queue[id] == [] {
        out := None;
      } else {
        out := Some(queue[id][0]);
        queue := queue[id := queue[id][1..]];
      }
    }
  }

  function InitShared(): Shared {
    Shared(0, {}, map[], false, false, false)
  }

  function DoRegister(s: Shared, id: Id): Shared {
    s.(queue := s.queue[id := []], pending := s.pending + {id})
  }

  function DoUnregister(s: Shared, id: Id): Shared {
    s.(pending := s.pending - {id})
  }

  function DoSend(s: Shared, f: Frame): Shared
    requires f.id in s.queue
  {
    s.(queue := s.queue[f.id := s.queue[f.id] + [f]])
  }

  function DoReceive(s: Shared, id: Id): Shared
    requires id in s.queue
  {
    if s.queue[id] == [] then s else s.(queue := s.queue[id := s.queue[id][1..]])
  }

  function DoFailAll(s: Shared, err: string): Shared {
    s.(pending := {}, queue := FailQueues(s.queue, s.pending, err))
  }

  // ---- goroutines ----------------------------------------------------------

  datatype Outcome =
    | GotFrame(frame: Frame)   // responseOutcome of a received frame
    | GotCtxErr                // ctx.Err(), or a failed token acquisition or write
    | GotClosed                // the generic "connection closed" with no frame

  /** Where one Call is. */
  datatype Pc =
    | Allocated                // has its id, not registered yet
    | Registered               // in the table, wants the write token
    | Holding                  // holds the token, frame not written yet
    | Wrote(ok: bool)          // conn.Write returned, token still held
    | Waiting                  // in the final select
    | Draining                 // took the done case of that select
    | Cleanup                  // must still delete its entry, then return an error
    | Returned(out: Outcome)
    | Panicked                 // conn.Write panicked; the deferred release has run

  datatype Pump =
    | Reading
    | Delivering(frame: Frame) // between deliver's lookup and its channel send
    | Exiting                  // read error, conn.Close not called yet
    | ConnClosed               // conn.Close called, failAllPending not run yet
    | Failed                   // failAllPending done, done not closed yet
    | Exited                   // done closed

  /** `got[id]` counts the frames ever sent on id's channel (history only). */
  datatype System = System(sh: Shared, pc: map<Id, Pc>, pump: Pump, got: map<Id, nat>)

  datatype Step =
    | NewCall
    | RegisterCall(id: Id)
    | AcquireToken(id: Id)
    | AcquireTimeout(id: Id)
    | WriteFrame(id: Id, ok: bool)
    | WritePanics(id: Id)
    | ReleaseToken(id: Id)
    | ReceiveReply(id: Id)
    | CtxDone(id: Id)
    | DoneCase(id: Id)
    | Drain(id: Id)
    | DeleteEntry(id: Id)
    | PumpReadsReply(frame: Frame)
    | PumpSends
    | PumpReadError
    | PumpCloses
    | PumpFailsAll(err: string)
    | PumpCloseDone
    | UserCloses

  function At(s: System, id: Id): Option<Pc> {
    if id in s.pc then Some(s.pc[id]) else None
  }

  /** When a goroutine may take the step. The environment's one promise: a write after conn.Close fails. */
  ghost predicate Enabled(s: System, st: Step) {
    match st
    case NewCall => true
    case RegisterCall(id) => At(s, id) == Some(Allocated)
    case AcquireToken(id) => At(s, id) == Some(Registered) && !s.sh.token
    case AcquireTimeout(id) => At(s, id) == Some(Registered)
    case WriteFrame(id, ok) => At(s, id) == Some(Holding) && (ok ==> !s.sh.connClosed)
    case WritePanics(id) => At(s, id) == Some(Holding)
    case ReleaseToken(id) => id in s.pc && s.pc[id].Wrote?
    case ReceiveReply(id) => At(s, id) == Some(Waiting) && id in s.sh.queue && s.sh.queue[id] != []
    case CtxDone(id) => At(s, id) == Some(Waiting)
    case DoneCase(id) => At(s, id) == Some(Waiting) && s.sh.done
    case Drain(id) => At(s, id) == Some(Draining) && id in s.sh.queue
    case DeleteEntry(id) => At(s, id) == Some(Cleanup)
    case PumpReadsReply(f) => s.pump.Reading?
    case PumpSends => s.pump.Delivering? && s.pump.frame.id in s.sh.queue && |s.sh.queue[s.pump.frame.id]| < CHAN_CAP
    case PumpReadError => s.pump.Reading?
    case PumpCloses => s.pump.Exiting?
    case PumpFailsAll(err) => s.pump.ConnClosed?
    case PumpCloseDone => s.pump.Failed?
    case UserCloses => true
  }

  function Bump(got: map<Id, nat>, ids: set<Id>): map<Id, nat> {
    map id | id in got :: if id in ids then got[id] + 1 else got[id]
  }

  ghost function Apply(s: System, st: Step): System
    requires Enabled(s, st)
  {
    match st
    case NewCall =>
      var id := s.sh.nextID + 1;
      s.(sh := s.sh.(nextID := id), pc := s.pc[id := Allocated], got := s.got[id := 0])
    case RegisterCall(id) => s.(sh := DoRegister(s.sh, id), pc := s.pc[id := Registered])
    case AcquireToken(id) => s.(sh := s.sh.(token := true), pc := s.pc[id := Holding])
    case AcquireTimeout(id) => s.(pc := s.pc[id := Cleanup])
    case WriteFrame(id, ok) => s.(pc := s.pc[id := Wrote(ok)])
    case WritePanics(id) => s.(sh := s.sh.(token := false), pc := s.pc[id := Panicked])
    case ReleaseToken(id) =>
      s.(sh := s.sh.(token := false), pc := s.pc[id := if s.pc[id].ok then Waiting else Cleanup])
    case ReceiveReply(id) =>
      s.(sh := DoReceive(s.sh, id), pc := s.pc[id := Returned(GotFrame(s.sh.queue[id][0]))])
    case CtxDone(id) => s.(pc := s.pc[id := Cleanup])
    case DoneCase(id) => s.(pc := s.pc[id := Draining])
    case Drain(id) =>
      s.(sh := DoReceive(s.sh, id),
         pc := s.pc[id := Returned(if s.sh.queue[id] == [] then GotClosed else GotFrame(s.sh.queue[id][0]))])
    case DeleteEntry(id) => s.(sh := DoUnregister(s.sh, id), pc := s.pc[id := Returned(GotCtxErr)])
    case PumpReadsReply(f) =>
      s.(sh := DoUnregister(s.sh, f.id), pump := if f.id in s.sh.pending then Delivering(f) else Reading)
    case PumpSends => s.(sh := DoSend(s.sh, s.pump.frame), pump := Reading, got := Bump(s.got, {s.pump.frame.id}))
    case PumpReadError => s.(pump := Exiting)
    case PumpCloses => s.(sh := s.sh.(connClosed := true), pump := ConnClosed)
    case PumpFailsAll(err) =>
      s.(sh := DoFailAll(s.sh, err), pump := Failed,
         got := Bump(s.got, set id | id in s.sh.pending && id in s.sh.queue && |s.sh.queue[id]| < CHAN_CAP))
    case PumpCloseDone => s.(sh := s.sh.(done := true), pump := Exited)
    case UserCloses => s.(sh := s.sh.(connClosed := true))
  }

  ghost function Init(): System {
    System(InitShared(), map[], Reading, map[])
  }

  // ---- the inductive invariant ---------------------------------------------

  /** The token is in this Call's hands. */
  predicate HasToken(p: Pc) {
    p.Holding? || p.Wrote?
  }

  /** Past a write that succeeded and not yet answered. */
  predicate Sent(p: Pc) {
    p == Wrote(true) || p.Waiting? || p.Draining?
  }

  /** Registered and not yet answered or withdrawn. */
  predicate InFlight(p: Pc) {
    p.Registered? || p.Holding? || Sent(p)
  }

  ghost predicate InDelivery(s: System, id: Id) {
    s.pump.Delivering? && s.pump.frame.id == id
  }

  ghost predicate Domains(s: System) {
    && s.got.Keys == s.pc.Keys
    && s.sh.queue.Keys <= s.pc.Keys
    && s.sh.pending <= s.sh.queue.Keys
    && (forall id :: id in s.pc ==> id <= s.sh.nextID)
    && (forall id :: id in s.pc && !s.pc[id].Allocated? ==> id in s.sh.queue)
    && (forall id :: id in s.pc && s.pc[id].Allocated? ==> s.got[id] == 0 && id !in s.sh.pending && !InDelivery(s, id))
  }

  /** An entry in the table has an empty channel that never carried a frame; no channel carries two. */
  ghost predicate Channels(s: System)
    requires Domains(s)
  {
    && (forall id :: id in s.sh.pending ==> s.got[id] == 0)
    && (s.pump.Delivering? ==> s.pump.frame.id in s.sh.queue && s.pump.frame.id !in s.sh.pending && s.got[s.pump.frame.id] == 0)
    && (forall id :: id in s.sh.queue ==> |s.sh.queue[id]| <= s.got[id] <= 1)
    && (forall id :: id in s.sh.queue && s.sh.queue[id] != [] ==> s.sh.queue[id][0].id == id)
  }

  ghost predicate Token(s: System) {
    && (forall id :: id in s.pc && HasToken(s.pc[id]) ==> s.sh.token)
    && (s.sh.token ==> exists id :: id in s.pc && HasToken(s.pc[id]))
    && (forall i, j :: i in s.pc && j in s.pc && HasToken(s.pc[i]) && HasToken(s.pc[j]) ==> i == j)
  }

  ghost predicate Closing(s: System) {
    && (s.pump.ConnClosed? || s.pump.Failed? || s.pump.Exited? ==> s.sh.connClosed)
    && (s.sh.done <==> s.pump.Exited?)
  }

  /** A registered request is still in the table, or being delivered, or answered in its channel. */
  ghost predicate SentAnswered(s: System)
    requires Domains(s)
  {
    forall id :: id in s.pc && InFlight(s.pc[id]) ==> id in s.sh.pending || InDelivery(s, id) || s.sh.queue[id] != []
  }

  /** failAllPending leaves no sent request in the table, and no request can be sent after it. */
  ghost predicate SentFailed(s: System) {
    && (s.pump.Failed? || s.pump.Exited? ==> forall id :: id in s.pc && Sent(s.pc[id]) ==> id !in s.sh.pending)
    && (forall id :: id in s.pc && s.pc[id].Draining? ==> s.pump.Exited?)
  }

  /** A Call that returned left the table, never reports the generic closure, and returns only its own frame. */
  ghost predicate ReturnedOk(id: Id, s: System)
    requires id in s.pc && s.pc[id].Returned?
  {
    && id !in s.sh.pending
    && !s.pc[id].out.GotClosed?
    && (s.pc[id].out.GotFrame? ==> s.pc[id].out.frame.id == id)
  }

  ghost predicate Returns(s: System) {
    forall id :: id in s.pc && s.pc[id].Returned? ==> ReturnedOk(id, s)
  }

  ghost predicate Inv(s: System) {
    Domains(s) && Channels(s) && Token(s) && Closing(s) && SentAnswered(s) && SentFailed(s) && Returns(s)
  }

  lemma InitInv()
    ensures Inv(Init())
  {
  }

  predicate CallerStep(st: Step) {
    st.NewCall? || st.RegisterCall? || st.AcquireTimeout? || st.CtxDone? || st.DoneCase? || st.DeleteEntry?
  }

  predicate WriterStep(st: Step) {
    st.AcquireToken? || st.WriteFrame? || st.WritePanics? || st.ReleaseToken?
  }

  predicate OpeningStep(st: Step) {
    st.NewCall? || st.RegisterCall?
  }

  /** A caller takes a frame out of its channel, or finds none. */
  predicate TakingStep(st: Step) {
    st.ReceiveReply? || st.Drain?
  }

  predicate ReplyStep(st: Step) {
    st.PumpReadsReply? || st.PumpSends?
  }

  lemma {:induction false} DomainsStep(s: System, st: Step)
    requires Domains(s) && Channels(s) && Enabled(s, st)
    ensures Domains(Apply(s, st))
  {
    if OpeningStep(st) {
      DomainsOpening(s, st);
    } else if CallerStep(st) {
      DomainsCaller(s, st);
    } else if WriterStep(st) {
      DomainsWriter(s, st);
    } else if TakingStep(st) {
      DomainsTaking(s, st);
    } else if ReplyStep(st) {
      DomainsReply(s, st);
    } else {
      DomainsPump(s, st);
    }
  }

  lemma DomainsOpening(s: System, st: Step)
    requires Domains(s) && Channels(s) && Enabled(s, st) && OpeningStep(st)
    ensures Domains(Apply(s, st))
  {
  }

  lemma DomainsTaking(s: System, st: Step)
    requires Domains(s) && Enabled(s, st) && TakingStep(st)
    ensures Domains(Apply(s, st))
  {
  }

  lemma DomainsReply(s: System, st: Step)
    requires Domains(s) && Channels(s) && Enabled(s, st) && ReplyStep(st)
    ensures Domains(Apply(s, st))
  {
  }

  lemma DomainsCaller(s: System, st: Step)
    requires Domains(s) && Enabled(s, st) && CallerStep(st) && !OpeningStep(st)
    ensures Domains(Apply(s, st))
  {
  }

  lemma DomainsWriter(s: System, st: Step)
    requires Domains(s) && Enabled(s, st) && WriterStep(st)
    ensures Domains(Apply(s, st))
  {
  }

  lemma DomainsPump(s: System, st: Step)
    requires Domains(s) && Channels(s) && Enabled(s, st)
    requires !CallerStep(st) && !WriterStep(st) && !TakingStep(st) && !ReplyStep(st)
    ensures Domains(Apply(s, st))
  {
  }

  lemma {:induction false} ChannelsStep(s: System, st: Step)
    requires Domains(s) && Channels(s) && Enabled(s, st) && Domains(Apply(s, st))
    ensures Channels(Apply(s, st))
  {
    if OpeningStep(st) {
      ChannelsOpening(s, st);
    } else if CallerStep(st) {
      ChannelsCaller(s, st);
    } else if WriterStep(st) {
      ChannelsWriter(s, st);
    } else if TakingStep(st) {
      ChannelsTaking(s, st);
    } else if ReplyStep(st) {
      ChannelsReply(s, st);
    } else {
      ChannelsPump(s, st);
    }
  }

  lemma ChannelsTaking(s: System, st: Step)
    requires Domains(s) && Channels(s) && Enabled(s, st) && Domains(Apply(s, st)) && TakingStep(st)
    ensures Channels(Apply(s, st))
  {
    TakingEmpties(s, st);
  }

  /** A channel holds at most one frame, so taking it leaves the channel empty and the rest as it was. */
  lemma TakingEmpties(s: System, st: Step)
    requires Domains(s) && Channels(s) && Enabled(s, st) && TakingStep(st)
    ensures var s' := Apply(s, st);
      && s'.sh.queue == s.sh.queue[st.id := []]
      && s'.sh.pending == s.sh.pending && s'.got == s.got && s'.pump == s.pump
  {
    var q := s.sh.queue[st.id];
    assert |q| <= 1;
    assert q != [] ==> q[1..] == [];
    assert q == [] ==> s.sh.queue == s.sh.queue[st.id := []];
  }

  lemma ChannelsReply(s: System, st: Step)
    requires Domains(s) && Channels(s) && Enabled(s, st) && Domains(Apply(s, st)) && ReplyStep(st)
    ensures Channels(Apply(s, st))
  {
  }

  lemma ChannelsOpening(s: System, st: Step)
    requires Domains(s) && Channels(s) && Enabled(s, st) && Domains(Apply(s, st)) && OpeningStep(st)
    ensures Channels(Apply(s, st))
  {
  }

  lemma ChannelsCaller(s: System, st: Step)
    requires Domains(s) && Channels(s) && Enabled(s, st) && Domains(Apply(s, st)) && CallerStep(st) && !OpeningStep(st)
    ensures Channels(Apply(s, st))
  {
  }

  lemma ChannelsWriter(s: System, st: Step)
    requires Domains(s) && Channels(s) && Enabled(s, st) && Domains(Apply(s, st)) && WriterStep(st)
    ensures Channels(Apply(s, st))
  {
  }

  lemma ChannelsPump(s: System, st: Step)
    requires Domains(s) && Channels(s) && Enabled(s, st) && Domains(Apply(s, st))
    requires !CallerStep(st) && !WriterStep(st) && !TakingStep(st) && !ReplyStep(st)
    ensures Channels(Apply(s, st))
  {
  }

  lemma TokenStep(s: System, st: Step)
    requires Token(s) && Enabled(s, st)
    requires forall id :: id in s.pc ==> id <= s.sh.nextID
    ensures Token(Apply(s, st))
  {
    var s' := Apply(s, st);
    if s'.sh.token {
      if st.AcquireToken? {
        assert HasToken(s'.pc[st.id]);
      } else {
        var h :| h in s.pc && HasToken(s.pc[h]);
        assert HasToken(s'.pc[h]);
      }
    }
  }

  lemma ClosingStep(s: System, st: Step)
    requires Closing(s) && Enabled(s, st)
    ensures Closing(Apply(s, st))
  {
  }

  lemma {:induction false} SentAnsweredStep(s: System, st: Step)
    requires Domains(s) && Channels(s) && SentAnswered(s) && Enabled(s, st) && Domains(Apply(s, st))
    ensures SentAnswered(Apply(s, st))
  {
    var s' := Apply(s, st);
    forall id | id in s'.pc && InFlight(s'.pc[id])
      ensures id in s'.sh.pending || InDelivery(s', id) || s'.sh.queue[id] != []
    {
      SentAnsweredOne(s, st, id);
    }
  }

  lemma {:induction false} SentAnsweredOne(s: System, st: Step, id: Id)
    requires Domains(s) && Channels(s) && SentAnswered(s) && Enabled(s, st) && Domains(Apply(s, st))
    requires id in Apply(s, st).pc && InFlight(Apply(s, st).pc[id])
    ensures var s' := Apply(s, st); id in s'.sh.pending || InDelivery(s', id) || s'.sh.queue[id] != []
  {
    if OpeningStep(st) {
      SentAnsweredOpening(s, st, id);
    } else if CallerStep(st) {
      SentAnsweredCaller(s, st, id);
    } else if WriterStep(st) {
      SentAnsweredWriter(s, st, id);
    } else if TakingStep(st) {
      SentAnsweredTaking(s, st, id);
    } else if ReplyStep(st) {
      SentAnsweredReply(s, st, id);
    } else {
      SentAnsweredPump(s, st, id);
    }
  }

  lemma SentAnsweredOpening(s: System, st: Step, id: Id)
    requires Domains(s) && SentAnswered(s) && Enabled(s, st) && Domains(Apply(s, st)) && OpeningStep(st)
    requires id in Apply(s, st).pc && InFlight(Apply(s, st).pc[id])
    ensures var s' := Apply(s, st); id in s'.sh.pending || InDelivery(s', id) || s'.sh.queue[id] != []
  {
  }

  lemma SentAnsweredCaller(s: System, st: Step, id: Id)
    requires Domains(s) && SentAnswered(s) && Enabled(s, st) && Domains(Apply(s, st)) && CallerStep(st) && !OpeningStep(st)
    requires id in Apply(s, st).pc && InFlight(Apply(s, st).pc[id])
    ensures var s' := Apply(s, st); id in s'.sh.pending || InDelivery(s', id) || s'.sh.queue[id] != []
  {
  }

  lemma SentAnsweredWriter(s: System, st: Step, id: Id)
    requires Domains(s) && SentAnswered(s) && Enabled(s, st) && Domains(Apply(s, st)) && WriterStep(st)
    requires id in Apply(s, st).pc && InFlight(Apply(s, st).pc[id])
    ensures var s' := Apply(s, st); id in s'.sh.pending || InDelivery(s', id) || s'.sh.queue[id] != []
  {
  }

  lemma SentAnsweredTaking(s: System, st: Step, id: Id)
    requires Domains(s) && SentAnswered(s) && Enabled(s, st) && Domains(Apply(s, st)) && TakingStep(st)
    requires id in Apply(s, st).pc && InFlight(Apply(s, st).pc[id])
    ensures var s' := Apply(s, st); id in s'.sh.pending || InDelivery(s', id) || s'.sh.queue[id] != []
  {
  }

  lemma SentAnsweredReply(s: System, st: Step, id: Id)
    requires Domains(s) && SentAnswered(s) && Enabled(s, st) && Domains(Apply(s, st)) && ReplyStep(st)
    requires id in Apply(s, st).pc && InFlight(Apply(s, st).pc[id])
    ensures var s' := Apply(s, st); id in s'.sh.pending || InDelivery(s', id) || s'.sh.queue[id] != []
  {
  }

  lemma SentAnsweredPump(s: System, st: Step, id: Id)
    requires Domains(s) && Channels(s) && SentAnswered(s) && Enabled(s, st) && Domains(Apply(s, st))
    requires !CallerStep(st) && !WriterStep(st) && !TakingStep(st) && !ReplyStep(st)
    requires id in Apply(s, st).pc && InFlight(Apply(s, st).pc[id])
    ensures var s' := Apply(s, st); id in s'.sh.pending || InDelivery(s', id) || s'.sh.queue[id] != []
  {
  }

  lemma SentFailedStep(s: System, st: Step)
    requires Domains(s) && Closing(s) && SentFailed(s) && Enabled(s, st)
    ensures SentFailed(Apply(s, st))
  {
  }

  lemma ReturnsStep(s: System, st: Step)
    requires Inv(s) && Enabled(s, st)
    ensures Returns(Apply(s, st))
  {
    var s' := Apply(s, st);
    forall id | id in s'.pc && s'.pc[id].Returned?
      ensures ReturnedOk(id, s')
    {
      ReturnsOne(s, st, id);
    }
  }

  lemma ReturnsOne(s: System, st: Step, id: Id)
    requires Inv(s) && Enabled(s, st)
    requires id in Apply(s, st).pc && Apply(s, st).pc[id].Returned?
    ensures ReturnedOk(id, Apply(s, st))
  {
    if TakingStep(st) {
      ReturnsTaking(s, st, id);
    } else if CallerStep(st) || WriterStep(st) {
      ReturnsCaller(s, st, id);
    } else {
      ReturnsPump(s, st, id);
    }
  }

  lemma ReturnsTaking(s: System, st: Step, id: Id)
    requires Inv(s) && Enabled(s, st) && TakingStep(st)
    requires id in Apply(s, st).pc && Apply(s, st).pc[id].Returned?
    ensures ReturnedOk(id, Apply(s, st))
  {
    TakingEmpties(s, st);
  }

  lemma ReturnsCaller(s: System, st: Step, id: Id)
    requires Inv(s) && Enabled(s, st) && (CallerStep(st) || WriterStep(st))
    requires id in Apply(s, st).pc && Apply(s, st).pc[id].Returned?
    ensures ReturnedOk(id, Apply(s, st))
  {
  }

  lemma ReturnsPump(s: System, st: Step, id: Id)
    requires Inv(s) && Enabled(s, st) && !CallerStep(st) && !WriterStep(st) && !TakingStep(st)
    requires id in Apply(s, st).pc && Apply(s, st).pc[id].Returned?
    ensures ReturnedOk(id, Apply(s, st))
  {
  }

  /** Every atomic section of every goroutine keeps the invariant. */
  lemma {:induction false} StepInv(s: System, st: Step)
    requires Inv(s) && Enabled(s, st)
    ensures Inv(Apply(s, st))
  {
    DomainsStep(s, st);
    ChannelsStep(s, st);
    TokenStep(s, st);
    ClosingStep(s, st);
    SentAnsweredStep(s, st);
    SentFailedStep(s, st);
    ReturnsStep(s, st);
  }
}

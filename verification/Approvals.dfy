/**
  Approval decisions (internal/server/approvals.go): any number of concurrent
  Resolve calls, a reservation for each approval id, and a gateway that lists,
  expires and settles approvals at any moment.

  Shared is the reservation table, ApprovalService the class whose methods are
  the locked sections on it, and Step one atomic section of a call or one move of
  the gateway.
*/
module Approvals {
  import opened Common

  type Chan = nat
  type CallId = nat

  /** The reservations, each with the channel its waiters hold, and the channels closed so far. */
  datatype Shared = Shared(inflight: map<string, Chan>, closed: set<Chan>, nextChan: Chan)

  function DoReserve(s: Shared, id: string): Shared {
    if id in s.inflight then s
    else s.(inflight := s.inflight[id := s.nextChan], nextChan := s.nextChan + 1)
  }

  function DoRelease(s: Shared, id: string): Shared {
    if id !in s.inflight then s
    else s.(inflight := s.inflight - {id}, closed := s.closed + {s.inflight[id]})
  }

  class ApprovalService {
    var inflight: map<string, Chan>
    var closed: set<Chan>
    var nextChan: Chan

    ghost function Abs(): Shared
      reads this
    {
      Shared(inflight, closed, nextChan)
    }

    constructor ()
      ensures Abs() == Shared(map[], {}, 0)
    {
      inflight, closed, nextChan := map[], {}, 0;
    }

    /** One turn of the reserve loop: the reservation, or the channel to wait on. */
    method TryReserve(id: string) returns (held: Option<Chan>)
      modifies this
      ensures held == (if id in old(inflight) then Some(old(inflight)[id]) else None)
      ensures Abs() == DoReserve(old(Abs()), id)
      ensures held.Some? ==> inflight == old(inflight) && nextChan == old(nextChan)
      ensures held.None? ==> inflight == old(inflight)[id := old(nextChan)] && nextChan == old(nextChan) + 1
      ensures closed == old(closed)
    {
      if id !in inflight {
        inflight := inflight[id := nextChan];
        nextChan := nextChan + 1;
        return None;
      }
      held := Some(inflight[id]);
    }

    method Release(id: string)
      modifies this
      ensures Abs() == DoRelease(old(Abs()), id)
      ensures inflight == old(inflight) - {id} && nextChan == old(nextChan)
      ensures closed == if id in old(inflight) then old(closed) + {old(inflight)[id]} else old(closed)
    {
      if id !in inflight {
        return;
      }
      var held := inflight[id];
      inflight := inflight - {id};
      closed := closed + {held};
    }

    method Deciding(id: string) returns (busy: bool)
      ensures busy == (id in inflight)
    {
      busy := id in inflight;
    }
  }

  // ---- calls and the gateway -------------------------------------------------

  /** Which user's conversation an approval belongs to. */
  datatype Owner = Owner(user: string, session: string)

  /** Every approval id ever listed with its owner, and the ids listed now. */
  datatype Gateway = Gateway(bound: map<string, Owner>, listed: set<string>)

  datatype Outcome =
    | Invalid
    | TimedOut
    | ReadFailed
    | NoPending(known: bool)     // known: the gateway had listed the id for this session by then (history only)
    | WriteFailed
    | Success

  datatype Pc =
    | Reserving
    | Waiting(ch: Chan)
    | Reading
    | Writing
    | Publishing
    | Auditing
    | Releasing(out: Outcome)
    | Done(out: Outcome)

  datatype Call = Call(owner: Owner, id: string, decision: string, pc: Pc)

  /** What a call sends the gateway, drops on the session's stream, and writes to the ledger. */
  datatype Told = Told(id: string, call: CallId, word: string)

  datatype Shown = Shown(session: string, id: string, approved: bool)

  datatype Audit = Audit(user: string, session: string, id: string, status: string)

  /**
    `holder`, `won` are history: who reserved an id, and whose write the gateway accepted.
    So are the decisions that landed on the gateway, the cards and the ledger.
  */
  datatype System = System(
    sh: Shared, gw: Gateway, calls: map<CallId, Call>, audited: multiset<string>,
    holder: map<string, CallId>, won: map<string, CallId>,
    told: seq<Told>, shown: seq<Shown>, ledger: seq<Audit>)

  datatype Step =
    | NewCall(c: CallId, owner: Owner, id: string, decision: string)
    | TryReserve(c: CallId)
    | Wake(c: CallId)
    | Expire(c: CallId)
    | ReadPending(c: CallId, ok: bool)
    | WriteDecision(c: CallId, landed: bool, ok: bool)
    | PublishResolved(c: CallId)
    | RecordDecision(c: CallId, stored: bool)
    | ReleaseCall(c: CallId)
    | GatewayAdds(id: string, owner: Owner)
    | GatewayDrops(id: string)

  predicate ValidDecision(d: string) {
    d == "approve" || d == "reject" || d == "allow-always"
  }

  predicate Approves(decision: string) {
    decision == "approve" || decision == "allow-always"
  }

  function GatewayWord(decision: string): string {
    if Approves(decision) then "approve" else "reject"
  }

  function AuditStatus(decision: string): string {
    if Approves(decision) then "approved" else "rejected"
  }

  predicate IsAt(s: System, c: CallId, pc: Pc) {
    c in s.calls && s.calls[c].pc == pc
  }

  /** The gateway's promises: ids are never reused, and an accepted decision is no longer listed. */
  ghost predicate Enabled(s: System, st: Step) {
    match st
    case NewCall(c, _, _, _) => c !in s.calls
    case TryReserve(c) => IsAt(s, c, Reserving)
    case Wake(c) => c in s.calls && s.calls[c].pc.Waiting? && s.calls[c].pc.ch in s.sh.closed
    case Expire(c) => c in s.calls && s.calls[c].pc.Waiting?
    case ReadPending(c, _) => IsAt(s, c, Reading)
    case WriteDecision(c, landed, ok) => IsAt(s, c, Writing) && (ok ==> landed)
    case PublishResolved(c) => IsAt(s, c, Publishing)
    case RecordDecision(c, _) => IsAt(s, c, Auditing)
    case ReleaseCall(c) => c in s.calls && s.calls[c].pc.Releasing?
    case GatewayAdds(id, _) => id !in s.gw.bound
    case GatewayDrops(_) => true
  }

  function GoTo(s: System, c: CallId, pc: Pc): System
    requires c in s.calls
  {
    s.(calls := s.calls[c := s.calls[c].(pc := pc)])
  }

  /** findApproval over the session's pending set. */
  predicate Finds(gw: Gateway, owner: Owner, id: string) {
    id in gw.listed && id in gw.bound && gw.bound[id] == owner
  }

  predicate Known(gw: Gateway, owner: Owner, id: string) {
    id in gw.bound && gw.bound[id] == owner
  }

  ghost function Apply(s: System, st: Step): System
    requires Enabled(s, st)
  {
    match st
    case NewCall(c, owner, id, decision) =>
      s.(calls := s.calls[c := Call(owner, id, decision, if ValidDecision(decision) then Reserving else Done(Invalid))])
    case TryReserve(c) =>
      var id := s.calls[c].id;
      if id in s.sh.inflight then GoTo(s, c, Waiting(s.sh.inflight[id]))
      else GoTo(s, c, Reading).(sh := DoReserve(s.sh, id), holder := s.holder[id := c])
    case Wake(c) => GoTo(s, c, Reserving)
    case Expire(c) => GoTo(s, c, Done(TimedOut))
    case ReadPending(c, ok) =>
      var call := s.calls[c];
      GoTo(s, c, if !ok then Releasing(ReadFailed)
                 else if Finds(s.gw, call.owner, call.id) then Writing
                 else Releasing(NoPending(Known(s.gw, call.owner, call.id))))
    case WriteDecision(c, landed, ok) =>
      var id := s.calls[c].id;
      var s' := s.(gw := if landed then s.gw.(listed := s.gw.listed - {id}) else s.gw,
                   told := if landed then s.told + [Told(id, c, GatewayWord(s.calls[c].decision))] else s.told);
      if ok then GoTo(s', c, Publishing).(won := s.won[id := c]) else GoTo(s', c, Releasing(WriteFailed))
    case PublishResolved(c) =>
      var call := s.calls[c];
      GoTo(s, c, Auditing).(shown := s.shown + [Shown(call.owner.session, call.id, Approves(call.decision))])
    case RecordDecision(c, stored) =>
      var call := s.calls[c];
      GoTo(s, c, Releasing(Success))
        .(audited := if stored then s.audited + multiset{call.id} else s.audited,
          ledger := if stored then s.ledger + [Audit(call.owner.user, call.owner.session, call.id, AuditStatus(call.decision))] else s.ledger)
    case ReleaseCall(c) =>
      var id := s.calls[c].id;
      GoTo(s, c, Done(s.calls[c].pc.out)).(sh := DoRelease(s.sh, id), holder := s.holder - {id})
    case GatewayAdds(id, owner) => s.(gw := Gateway(s.gw.bound[id := owner], s.gw.listed + {id}))
    case GatewayDrops(id) => s.(gw := s.gw.(listed := s.gw.listed - {id}))
  }

  ghost function Init(): System {
    System(Shared(map[], {}, 0), Gateway(map[], {}), map[], multiset{}, map[], map[], [], [], [])
  }

  // ---- the invariant ---------------------------------------------------------

  /** Between reserve and release. */
  predicate Holds(pc: Pc) {
    pc.Reading? || pc.Writing? || pc.Publishing? || pc.Auditing? || pc.Releasing?
  }

  /** The gateway accepted this call's write. */
  predicate Accepted(pc: Pc) {
    pc.Publishing? || pc.Auditing? || pc == Releasing(Success) || pc == Done(Success)
  }

  predicate NotAudited(pc: Pc) {
    pc.Publishing? || pc.Auditing?
  }

  ghost predicate ReservationsInv(s: System) {
    && s.sh.inflight.Keys == s.holder.Keys
    && (forall id :: id in s.holder ==>
         s.holder[id] in s.calls && s.calls[s.holder[id]].id == id && Holds(s.calls[s.holder[id]].pc))
    && (forall c :: c in s.calls && Holds(s.calls[c].pc) ==> s.calls[c].id in s.holder && s.holder[s.calls[c].id] == c)
  }

  ghost predicate ChannelsInv(sh: Shared) {
    && (forall id :: id in sh.inflight ==> sh.inflight[id] < sh.nextChan && sh.inflight[id] !in sh.closed)
    && (forall a, b :: a in sh.inflight && b in sh.inflight && sh.inflight[a] == sh.inflight[b] ==> a == b)
    && (forall ch :: ch in sh.closed ==> ch < sh.nextChan)
  }

  ghost predicate WaitersInv(s: System) {
    forall c :: c in s.calls && s.calls[c].pc.Waiting? ==>
      s.calls[c].pc.ch in s.sh.closed ||
      (s.calls[c].id in s.sh.inflight && s.sh.inflight[s.calls[c].id] == s.calls[c].pc.ch)
  }

  ghost predicate WinnersInv(gw: Gateway, calls: map<CallId, Call>, won: map<string, CallId>) {
    && (forall c :: c in calls && Accepted(calls[c].pc) ==> calls[c].id in won && won[calls[c].id] == c)
    && (forall id :: id in won ==>
         id in gw.bound && id !in gw.listed && won[id] in calls && calls[won[id]].id == id && Accepted(calls[won[id]].pc))
    && (forall c :: c in calls && calls[c].pc.Writing? ==> calls[c].id !in won && calls[c].id in gw.bound)
  }

  ghost predicate AuditInv(audited: multiset<string>, calls: map<CallId, Call>, won: map<string, CallId>) {
    forall id :: audited[id] <= 1
      && (audited[id] == 1 ==> id in won && won[id] in calls && !NotAudited(calls[won[id]].pc))
  }

  /** A known id reported as not pending has left the gateway's list, for good. */
  ghost predicate LosersInv(s: System) {
    && s.gw.listed <= s.gw.bound.Keys
    && forall c :: c in s.calls && MissedKnown(s.calls[c].pc) ==>
         s.calls[c].id in s.gw.bound && s.calls[c].id !in s.gw.listed
  }

  predicate MissedKnown(pc: Pc) {
    pc == Releasing(NoPending(true)) || pc == Done(NoPending(true))
  }

  ghost predicate Inv(s: System) {
    ReservationsInv(s) && ChannelsInv(s.sh) && WaitersInv(s) && WinnersInv(s.gw, s.calls, s.won) && AuditInv(s.audited, s.calls, s.won) && LosersInv(s)
  }

  /** A call that moves without taking or giving up its reservation. */
  lemma ReservationsGoTo(s: System, c: CallId, pc: Pc)
    requires ReservationsInv(s) && c in s.calls && Holds(pc) == Holds(s.calls[c].pc)
    ensures ReservationsInv(GoTo(s, c, pc))
  {
  }

  lemma ReservationsReserve(s: System, c: CallId)
    requires ReservationsInv(s) && Enabled(s, TryReserve(c))
    ensures ReservationsInv(Apply(s, TryReserve(c)))
  {
  }

  lemma ReservationsRelease(s: System, c: CallId)
    requires ReservationsInv(s) && Enabled(s, ReleaseCall(c))
    ensures ReservationsInv(Apply(s, ReleaseCall(c)))
  {
  }

  lemma ReservationsStep(s: System, st: Step)
    requires ReservationsInv(s) && Enabled(s, st)
    ensures ReservationsInv(Apply(s, st))
  {
    match st {
      case TryReserve(c) => ReservationsReserve(s, c);
      case ReleaseCall(c) => ReservationsRelease(s, c);
      case Wake(c) => ReservationsGoTo(s, c, Reserving);
      case Expire(c) => ReservationsGoTo(s, c, Done(TimedOut));
      case ReadPending(c, _) => ReservationsGoTo(s, c, Apply(s, st).calls[c].pc);
      case WriteDecision(c, _, _) => ReservationsGoTo(s, c, Apply(s, st).calls[c].pc);
      case PublishResolved(c) => ReservationsGoTo(s, c, Auditing);
      case RecordDecision(c, _) => ReservationsGoTo(s, c, Releasing(Success));
      case _ =>
    }
  }

  lemma ChannelsStep(s: System, st: Step)
    requires ChannelsInv(s.sh) && Enabled(s, st)
    ensures ChannelsInv(Apply(s, st).sh)
  {
  }

  lemma WaitersStep(s: System, st: Step)
    requires WaitersInv(s) && Enabled(s, st)
    ensures WaitersInv(Apply(s, st))
  {
  }

  /** A call that moves without the gateway accepting anything. */
  lemma WinnersGoTo(gw: Gateway, calls: map<CallId, Call>, won: map<string, CallId>, c: CallId, pc: Pc)
    requires WinnersInv(gw, calls, won) && gw.listed <= gw.bound.Keys
    requires c in calls && Accepted(pc) == Accepted(calls[c].pc) && (pc.Writing? ==> calls[c].id in gw.listed)
    ensures WinnersInv(gw, calls[c := calls[c].(pc := pc)], won)
  {
  }

  lemma WinnersWrite(s: System, c: CallId, landed: bool, ok: bool)
    requires ReservationsInv(s) && WinnersInv(s.gw, s.calls, s.won) && Enabled(s, WriteDecision(c, landed, ok))
    ensures var s' := Apply(s, WriteDecision(c, landed, ok)); WinnersInv(s'.gw, s'.calls, s'.won)
  {
  }

  predicate EnvironmentStep(st: Step) {
    st.NewCall? || st.GatewayAdds? || st.GatewayDrops?
  }

  lemma WinnersEnvironment(s: System, st: Step)
    requires WinnersInv(s.gw, s.calls, s.won) && Enabled(s, st) && EnvironmentStep(st)
    ensures WinnersInv(Apply(s, st).gw, Apply(s, st).calls, Apply(s, st).won)
  {
  }

  lemma WinnersReserveOrRelease(s: System, st: Step)
    requires WinnersInv(s.gw, s.calls, s.won) && s.gw.listed <= s.gw.bound.Keys && Enabled(s, st)
    requires st.TryReserve? || st.ReleaseCall?
    ensures WinnersInv(Apply(s, st).gw, Apply(s, st).calls, Apply(s, st).won)
  {
    WinnersGoTo(s.gw, s.calls, s.won, st.c, Apply(s, st).calls[st.c].pc);
  }

  lemma WinnersStep(s: System, st: Step)
    requires ReservationsInv(s) && WinnersInv(s.gw, s.calls, s.won) && LosersInv(s) && Enabled(s, st)
    ensures WinnersInv(Apply(s, st).gw, Apply(s, st).calls, Apply(s, st).won)
  {
    if EnvironmentStep(st) {
      WinnersEnvironment(s, st);
    } else if st.TryReserve? || st.ReleaseCall? {
      WinnersReserveOrRelease(s, st);
    } else if st.WriteDecision? {
      WinnersWrite(s, st.c, st.landed, st.ok);
    } else {
      WinnersGoTo(s.gw, s.calls, s.won, st.c, Apply(s, st).calls[st.c].pc);
    }
  }

  lemma AuditRecord(s: System, c: CallId, stored: bool)
    requires WinnersInv(s.gw, s.calls, s.won) && AuditInv(s.audited, s.calls, s.won) && Enabled(s, RecordDecision(c, stored))
    ensures var s' := Apply(s, RecordDecision(c, stored)); AuditInv(s'.audited, s'.calls, s'.won)
  {
    assert Accepted(s.calls[c].pc);
  }

  lemma AuditGoTo(s: System, c: CallId, call: Call)
    requires AuditInv(s.audited, s.calls, s.won)
    requires c in s.calls && NotAudited(call.pc) ==> NotAudited(s.calls[c].pc)
    requires c !in s.calls ==> !NotAudited(call.pc)
    ensures AuditInv(s.audited, s.calls[c := call], s.won)
  {
  }

  lemma AuditAccept(s: System, c: CallId, landed: bool, ok: bool)
    requires WinnersInv(s.gw, s.calls, s.won) && AuditInv(s.audited, s.calls, s.won) && Enabled(s, WriteDecision(c, landed, ok))
    ensures var s' := Apply(s, WriteDecision(c, landed, ok)); AuditInv(s'.audited, s'.calls, s'.won)
  {
  }

  lemma AuditStep(s: System, st: Step)
    requires WinnersInv(s.gw, s.calls, s.won) && AuditInv(s.audited, s.calls, s.won) && Enabled(s, st)
    ensures AuditInv(Apply(s, st).audited, Apply(s, st).calls, Apply(s, st).won)
  {
    if st.RecordDecision? {
      AuditRecord(s, st.c, st.stored);
    } else if st.WriteDecision? {
      AuditAccept(s, st.c, st.landed, st.ok);
    } else if !st.GatewayAdds? && !st.GatewayDrops? {
      AuditGoTo(s, st.c, Apply(s, st).calls[st.c]);
    }
  }

  lemma LosersStep(s: System, st: Step)
    requires LosersInv(s) && Enabled(s, st)
    ensures LosersInv(Apply(s, st))
  {
  }

  lemma {:induction false} StepInv(s: System, st: Step)
    requires Inv(s) && Enabled(s, st)
    ensures Inv(Apply(s, st))
  {
    ReservationsStep(s, st);
    ChannelsStep(s, st);
    WaitersStep(s, st);
    WinnersStep(s, st);
    AuditStep(s, st);
    LosersStep(s, st);
  }
}

/**
  Session streams and live turns (internal/server/ssehub.go, live.go): one open
  SSE stream for each session with a two-phase close, and one live turn for each
  session registered by the request that holds its stream
  (internal/server/handlers.go, attach.go).

  Hub and Stream are the source's objects. System interleaves requests, writers,
  waiters and the gateway's event router, one locked section at a time.
*/
module Hub {
  import opened Common

  // ---- the registry ----------------------------------------------------------

  function Opened<S>(active: map<string, S>, key: string, s: S): map<string, S> {
    if key in active then active else active[key := s]
  }

  function Removed<S(==)>(active: map<string, S>, key: string, s: S): map<string, S> {
    if key in active && active[key] == s then active - {key} else active
  }

  /** A removal that comes late leaves the stream that took its place. */
  lemma LateRemoveSparesTheSuccessor<S>(active: map<string, S>, key: string, first: S, next: S)
    requires key in active && active[key] == first && next != first
    ensures var replaced := Opened(Removed(active, key, first), key, next);
      key in replaced && replaced[key] == next && Removed(replaced, key, first) == replaced
  {
  }

  /** What a connection takes of a frame. */
  function Taken(ev: string, room: nat): string {
    if |ev| <= room then ev else ev[..room]
  }

  class Stream {
    const key: string
    var closed: bool
    var written: seq<string>

    constructor (key: string)
      ensures this.key == key && !closed && written == []
    {
      this.key := key;
      closed, written := false, [];
    }

    /**
      Send, inject and the heartbeat: one write under the stream's lock, refused once
      closed. The connection takes `room` characters; a shorter write is an error.
    */
    method Send(ev: string, room: nat) returns (ok: bool)
      modifies this`written
      ensures ok == (!closed && |ev| <= room)
      ensures written == if closed then old(written) else old(written) + [Taken(ev, room)]
      ensures ok ==> written == old(written) + [ev]
      ensures !closed && !ok ==> written == old(written) + [ev[..room]]
    {
      if closed {
        return false;
      }
      written := written + [Taken(ev, room)];
      ok := |ev| <= room;
    }

    /** The locked half of Close: only the first caller goes on to unregister. */
    method MarkClosed() returns (first: bool)
      modifies this`closed
      ensures closed && first == !old(closed)
    {
      first := !closed;
      closed := true;
    }
  }

  class Hub {
    var active: map<string, Stream>

    constructor ()
      ensures active == map[]
    {
      active := map[];
    }

    method Open(key: string) returns (s: Option<Stream>)
      modifies this
      ensures s.Some? <==> key !in old(active)
      ensures s.Some? ==> fresh(s.value) && s.value.key == key && !s.value.closed && active == Opened(old(active), key, s.value)
      ensures s.None? ==> active == old(active)
    {
      if key in active {
        return None;
      }
      var stream := new Stream(key);
      active := active[key := stream];
      s := Some(stream);
    }

    method PublishTo(key: string, ev: string, room: nat) returns (delivered: bool)
      modifies if key in active then {active[key]} else {}
      ensures delivered == (key in active && !old(active[key].closed) && |ev| <= room)
      ensures key in active ==> active[key].closed == old(active[key].closed)
      ensures key in active && old(active[key].closed) ==> active[key].written == old(active[key].written)
      ensures delivered ==> active[key].written == old(active[key].written) + [ev]
      ensures key in active && !old(active[key].closed) && !delivered ==> active[key].written == old(active[key].written) + [ev[..room]]
    {
      if key !in active {
        return false;
      }
      delivered := active[key].Send(ev, room);
    }

    method Remove(key: string, s: Stream)
      modifies this
      ensures active == Removed(old(active), key, s)
    {
      if key in active && active[key] == s {
        active := active - {key};
      }
    }

    /** Close: mark, then unregister; a second Close does nothing. */
    method Close(s: Stream)
      modifies this, s`closed
      ensures s.closed
      ensures active == if old(s.closed) then old(active) else Removed(old(active), s.key, s)
    {
      var first := s.MarkClosed();
      if first {
        Remove(s.key, s);
      }
    }
  }

  // ---- threads ---------------------------------------------------------------

  type StreamId = nat
  type TurnId = nat
  type ReqId = nat

  datatype StreamState = StreamState(key: string, closed: bool, written: seq<string>)

  datatype TurnEnd = TurnEnd(error: string, stopped: bool)

  datatype Turn = Turn(user: string, req: ReqId, runID: string, end: Option<TurnEnd>)

  /** Where one chat or attach request is. */
  datatype Pc =
    | Opening
    | Refused
    | Streaming(sid: StreamId, turned: bool)       // holds its stream; `turned` once its turn was released
    | InTurn(sid: StreamId, tid: TurnId)           // between registerLive and releaseLive
    | Closing(sid: StreamId)                       // closed, not unregistered yet
    | Finished

  datatype Req = Req(key: string, user: string, pc: Pc)

  datatype Waiter = Checking(key: string) | Parked(key: string, sid: StreamId) | Idle(key: string) | GaveUp

  datatype System = System(
    active: map<string, StreamId>, streams: seq<StreamState>,
    live: map<string, TurnId>, turns: seq<Turn>,
    reqs: map<ReqId, Req>, waiters: map<nat, Waiter>)

  datatype Step =
    | Arrive(r: ReqId, key: string, user: string)
    | Open(r: ReqId)
    | RegisterLive(r: ReqId)
    | ReleaseLive(r: ReqId)
    | MarkClosed(r: ReqId)
    | Remove(r: ReqId)
    | Write(sid: StreamId, ev: string)             // what the connection takes from any sender, router or heartbeat
    | SetRunID(tid: TurnId, runID: string)
    | FinishWith(tid: TurnId, end: TurnEnd)        // any router that looked the turn up, however late
    | WaitIdle(w: nat, key: string)
    | Check(w: nat)
    | Woken(w: nat)
    | Expire(w: nat)

  predicate IsOpen(pc: Pc) {
    pc.Streaming? || pc.InTurn? || pc.Closing?
  }

  ghost predicate Enabled(s: System, st: Step) {
    match st
    case Arrive(r, _, _) => r !in s.reqs
    case Open(r) => r in s.reqs && s.reqs[r].pc.Opening?
    case RegisterLive(r) => r in s.reqs && s.reqs[r].pc.Streaming? && !s.reqs[r].pc.turned
    case ReleaseLive(r) => r in s.reqs && s.reqs[r].pc.InTurn?
    case MarkClosed(r) => r in s.reqs && s.reqs[r].pc.Streaming? && s.reqs[r].pc.sid < |s.streams|
    case Remove(r) => r in s.reqs && s.reqs[r].pc.Closing?
    case Write(sid, _) => sid < |s.streams|
    case SetRunID(tid, _) => tid < |s.turns|
    case FinishWith(tid, _) => tid < |s.turns|
    case WaitIdle(w, _) => w !in s.waiters
    case Check(w) => w in s.waiters && s.waiters[w].Checking?
    case Woken(w) => w in s.waiters && s.waiters[w].Parked? && s.waiters[w].sid < |s.streams| && s.streams[s.waiters[w].sid].closed
    case Expire(w) => w in s.waiters && s.waiters[w].Parked?
  }

  function GoTo(s: System, r: ReqId, pc: Pc): System
    requires r in s.reqs
  {
    s.(reqs := s.reqs[r := s.reqs[r].(pc := pc)])
  }

  function Sent(t: StreamState, ev: string): StreamState {
    if t.closed then t else t.(written := t.written + [ev])
  }

  /** releaseLive: the session's entry goes when it is the user's. */
  function Unlive(s: System, key: string, user: string): map<string, TurnId> {
    if key in s.live && s.live[key] < |s.turns| && s.turns[s.live[key]].user == user then s.live - {key} else s.live
  }

  /** finishWith's once: the first outcome stays. */
  function Ended(t: Turn, end: TurnEnd): Turn {
    if t.end.Some? then t else t.(end := Some(end))
  }

  ghost function Apply(s: System, st: Step): System
    requires Enabled(s, st)
  {
    match st
    case Arrive(r, key, user) => s.(reqs := s.reqs[r := Req(key, user, Opening)])
    case Open(r) =>
      var key, sid := s.reqs[r].key, |s.streams|;
      if key in s.active then GoTo(s, r, Refused)
      else GoTo(s, r, Streaming(sid, false))
             .(active := Opened(s.active, key, sid), streams := s.streams + [StreamState(key, false, [])])
    case RegisterLive(r) =>
      var req, tid := s.reqs[r], |s.turns|;
      GoTo(s, r, InTurn(req.pc.sid, tid)).(live := s.live[req.key := tid], turns := s.turns + [Turn(req.user, r, "", None)])
    case ReleaseLive(r) =>
      var req := s.reqs[r];
      GoTo(s, r, Streaming(req.pc.sid, true)).(live := Unlive(s, req.key, req.user))
    case MarkClosed(r) =>
      var sid := s.reqs[r].pc.sid;
      GoTo(s, r, Closing(sid)).(streams := s.streams[sid := s.streams[sid].(closed := true)])
    case Remove(r) =>
      var req := s.reqs[r];
      GoTo(s, r, Finished).(active := Removed(s.active, req.key, req.pc.sid))
    case Write(sid, ev) => s.(streams := s.streams[sid := Sent(s.streams[sid], ev)])
    case SetRunID(tid, runID) => s.(turns := s.turns[tid := s.turns[tid].(runID := runID)])
    case FinishWith(tid, end) => s.(turns := s.turns[tid := Ended(s.turns[tid], end)])
    case WaitIdle(w, key) => s.(waiters := s.waiters[w := Checking(key)])
    case Check(w) =>
      var key := s.waiters[w].key;
      s.(waiters := s.waiters[w := if key in s.active then Parked(key, s.active[key]) else Idle(key)])
    case Woken(w) => s.(waiters := s.waiters[w := Checking(s.waiters[w].key)])
    case Expire(w) => s.(waiters := s.waiters[w := GaveUp])
  }

  ghost function Init(): System {
    System(map[], [], map[], [], map[], map[])
  }

  // ---- the invariant ---------------------------------------------------------

  /** A request between Open and the end of Close holds its session's one entry. */
  ghost predicate HoldersInv(active: map<string, StreamId>, reqs: map<ReqId, Req>) {
    && (forall r :: r in reqs && IsOpen(reqs[r].pc) ==> reqs[r].key in active && active[reqs[r].key] == reqs[r].pc.sid)
    && (forall r, q :: r in reqs && q in reqs && r != q && IsOpen(reqs[r].pc) && IsOpen(reqs[q].pc) ==>
         reqs[r].pc.sid != reqs[q].pc.sid)
    && (forall k :: k in active ==> exists r :: r in reqs && reqs[r].key == k && IsOpen(reqs[r].pc) && reqs[r].pc.sid == active[k])
  }

  /** A stream is closed exactly from MarkClosed on; an unregistered stream is closed. */
  ghost predicate StreamsInv(active: map<string, StreamId>, streams: seq<StreamState>, reqs: map<ReqId, Req>) {
    && (forall k :: k in active ==> active[k] < |streams| && streams[active[k]].key == k)
    && (forall sid :: 0 <= sid < |streams| && !streams[sid].closed ==>
         streams[sid].key in active && active[streams[sid].key] == sid)
    && (forall r :: r in reqs && IsOpen(reqs[r].pc) ==>
         reqs[r].pc.sid < |streams| && streams[reqs[r].pc.sid].closed == reqs[r].pc.Closing?)
  }

  /** A registered live turn is that of a request in its turn, which holds the session's stream. */
  ghost predicate LiveInv(live: map<string, TurnId>, turns: seq<Turn>, reqs: map<ReqId, Req>) {
    && (forall k :: k in live ==> live[k] < |turns| && OwnTurn(k, live[k], turns[live[k]], reqs))
    && (forall r :: r in reqs && reqs[r].pc.InTurn? ==> reqs[r].key in live && live[reqs[r].key] == reqs[r].pc.tid)
  }

  predicate OwnTurn(k: string, tid: TurnId, t: Turn, reqs: map<ReqId, Req>) {
    t.req in reqs && reqs[t.req].key == k && reqs[t.req].user == t.user && reqs[t.req].pc.InTurn? && reqs[t.req].pc.tid == tid
  }

  ghost predicate WaitersInv(s: System) {
    forall w :: w in s.waiters && s.waiters[w].Parked? ==>
      s.waiters[w].sid < |s.streams| && s.streams[s.waiters[w].sid].key == s.waiters[w].key
  }

  ghost predicate Inv(s: System) {
    && HoldersInv(s.active, s.reqs) && StreamsInv(s.active, s.streams, s.reqs)
    && LiveInv(s.live, s.turns, s.reqs) && WaitersInv(s)
  }

  lemma HoldersOpen(active: map<string, StreamId>, streams: seq<StreamState>, reqs: map<ReqId, Req>, r: ReqId)
    requires HoldersInv(active, reqs) && StreamsInv(active, streams, reqs)
    requires r in reqs && !IsOpen(reqs[r].pc) && reqs[r].key !in active
    ensures HoldersInv(active[reqs[r].key := |streams|], reqs[r := reqs[r].(pc := Streaming(|streams|, false))])
  {
    var key, sid := reqs[r].key, |streams|;
    var active', reqs' := active[key := sid], reqs[r := reqs[r].(pc := Streaming(sid, false))];
    forall k | k in active' ensures exists q :: q in reqs' && reqs'[q].key == k && IsOpen(reqs'[q].pc) && reqs'[q].pc.sid == active'[k] {
      if k == key {
        assert r in reqs' && IsOpen(reqs'[r].pc);
      } else {
        var q :| q in reqs && reqs[q].key == k && IsOpen(reqs[q].pc) && reqs[q].pc.sid == active[k];
        assert q in reqs' && reqs'[q] == reqs[q];
      }
    }
  }

  lemma HoldersRemove(active: map<string, StreamId>, reqs: map<ReqId, Req>, r: ReqId)
    requires HoldersInv(active, reqs) && r in reqs && IsOpen(reqs[r].pc)
    ensures HoldersInv(Removed(active, reqs[r].key, reqs[r].pc.sid), reqs[r := reqs[r].(pc := Finished)])
  {
    var active', reqs' := Removed(active, reqs[r].key, reqs[r].pc.sid), reqs[r := reqs[r].(pc := Finished)];
    forall k | k in active' ensures exists q :: q in reqs' && reqs'[q].key == k && IsOpen(reqs'[q].pc) && reqs'[q].pc.sid == active'[k] {
      var q :| q in reqs && reqs[q].key == k && IsOpen(reqs[q].pc) && reqs[q].pc.sid == active[k];
      assert q in reqs' && reqs'[q] == reqs[q];
    }
  }

  lemma HoldersPut(active: map<string, StreamId>, reqs: map<ReqId, Req>, r: ReqId, req: Req)
    requires HoldersInv(active, reqs)
    requires r in reqs ==> req.key == reqs[r].key && IsOpen(req.pc) == IsOpen(reqs[r].pc) && (IsOpen(req.pc) ==> req.pc.sid == reqs[r].pc.sid)
    requires r !in reqs ==> !IsOpen(req.pc)
    ensures HoldersInv(active, reqs[r := req])
  {
    var reqs' := reqs[r := req];
    forall k | k in active ensures exists q :: q in reqs' && reqs'[q].key == k && IsOpen(reqs'[q].pc) && reqs'[q].pc.sid == active[k] {
      var q :| q in reqs && reqs[q].key == k && IsOpen(reqs[q].pc) && reqs[q].pc.sid == active[k];
      assert q in reqs';
    }
  }

  predicate RequestStep(st: Step) {
    st.Arrive? || st.Open? || st.RegisterLive? || st.ReleaseLive? || st.MarkClosed? || st.Remove?
  }

  lemma HoldersStep(s: System, st: Step)
    requires HoldersInv(s.active, s.reqs) && StreamsInv(s.active, s.streams, s.reqs) && Enabled(s, st)
    ensures HoldersInv(Apply(s, st).active, Apply(s, st).reqs)
  {
    if st.Open? && s.reqs[st.r].key !in s.active {
      HoldersOpen(s.active, s.streams, s.reqs, st.r);
    } else if st.Remove? {
      HoldersRemove(s.active, s.reqs, st.r);
    } else if RequestStep(st) {
      HoldersPut(s.active, s.reqs, st.r, Apply(s, st).reqs[st.r]);
    }
  }

  lemma StreamsPut(active: map<string, StreamId>, streams: seq<StreamState>, reqs: map<ReqId, Req>, r: ReqId, req: Req)
    requires StreamsInv(active, streams, reqs)
    requires IsOpen(req.pc) ==> r in reqs && IsOpen(reqs[r].pc) && req.pc.sid == reqs[r].pc.sid && req.pc.Closing? == reqs[r].pc.Closing?
    ensures StreamsInv(active, streams, reqs[r := req])
  {
  }

  lemma StreamsOpen(active: map<string, StreamId>, streams: seq<StreamState>, reqs: map<ReqId, Req>, r: ReqId)
    requires StreamsInv(active, streams, reqs) && r in reqs && reqs[r].key !in active
    ensures var key, sid := reqs[r].key, |streams|;
      StreamsInv(active[key := sid], streams + [StreamState(key, false, [])], reqs[r := reqs[r].(pc := Streaming(sid, false))])
  {
  }

  lemma StreamsMark(active: map<string, StreamId>, streams: seq<StreamState>, reqs: map<ReqId, Req>, r: ReqId)
    requires HoldersInv(active, reqs) && StreamsInv(active, streams, reqs)
    requires r in reqs && reqs[r].pc.Streaming? && reqs[r].pc.sid < |streams|
    ensures var sid := reqs[r].pc.sid;
      StreamsInv(active, streams[sid := streams[sid].(closed := true)], reqs[r := reqs[r].(pc := Closing(sid))])
  {
  }

  lemma StreamsRemove(active: map<string, StreamId>, streams: seq<StreamState>, reqs: map<ReqId, Req>, r: ReqId)
    requires HoldersInv(active, reqs) && StreamsInv(active, streams, reqs) && r in reqs && reqs[r].pc.Closing?
    ensures StreamsInv(Removed(active, reqs[r].key, reqs[r].pc.sid), streams, reqs[r := reqs[r].(pc := Finished)])
  {
  }

  lemma StreamsWrite(active: map<string, StreamId>, streams: seq<StreamState>, reqs: map<ReqId, Req>, sid: StreamId, ev: string)
    requires StreamsInv(active, streams, reqs) && sid < |streams|
    ensures StreamsInv(active, streams[sid := Sent(streams[sid], ev)], reqs)
  {
  }

  lemma StreamsStep(s: System, st: Step)
    requires HoldersInv(s.active, s.reqs) && StreamsInv(s.active, s.streams, s.reqs) && Enabled(s, st)
    ensures StreamsInv(Apply(s, st).active, Apply(s, st).streams, Apply(s, st).reqs)
  {
    if st.Open? && s.reqs[st.r].key !in s.active {
      StreamsOpen(s.active, s.streams, s.reqs, st.r);
    } else if st.MarkClosed? {
      StreamsMark(s.active, s.streams, s.reqs, st.r);
    } else if st.Remove? {
      StreamsRemove(s.active, s.streams, s.reqs, st.r);
    } else if st.Write? {
      StreamsWrite(s.active, s.streams, s.reqs, st.sid, st.ev);
    } else if RequestStep(st) {
      StreamsPut(s.active, s.streams, s.reqs, st.r, Apply(s, st).reqs[st.r]);
    }
  }

  lemma LivePut(live: map<string, TurnId>, turns: seq<Turn>, reqs: map<ReqId, Req>, r: ReqId, req: Req)
    requires LiveInv(live, turns, reqs) && !req.pc.InTurn? && (r in reqs ==> !reqs[r].pc.InTurn?)
    ensures LiveInv(live, turns, reqs[r := req])
  {
  }

  /** The session of a request that holds its stream has no turn but that request's. */
  lemma LiveTurnIsTheHolders(active: map<string, StreamId>, live: map<string, TurnId>, turns: seq<Turn>, reqs: map<ReqId, Req>, r: ReqId)
    requires HoldersInv(active, reqs) && LiveInv(live, turns, reqs) && r in reqs && IsOpen(reqs[r].pc) && reqs[r].key in live
    ensures turns[live[reqs[r].key]].req == r && reqs[r].pc.InTurn?
  {
    var k := reqs[r].key;
    assert OwnTurn(k, live[k], turns[live[k]], reqs);
  }

  lemma LiveAdd(live: map<string, TurnId>, turns: seq<Turn>, reqs: map<ReqId, Req>, r: ReqId)
    requires LiveInv(live, turns, reqs) && r in reqs && reqs[r].pc.Streaming? && reqs[r].key !in live
    ensures var req, tid := reqs[r], |turns|;
      LiveInv(live[req.key := tid], turns + [Turn(req.user, r, "", None)], reqs[r := req.(pc := InTurn(req.pc.sid, tid))])
  {
  }

  lemma LiveDrop(live: map<string, TurnId>, turns: seq<Turn>, reqs: map<ReqId, Req>, r: ReqId, pc: Pc)
    requires LiveInv(live, turns, reqs) && r in reqs && reqs[r].pc.InTurn? && !pc.InTurn?
    requires forall q :: q in reqs && q != r && reqs[q].pc.InTurn? ==> reqs[q].key != reqs[r].key
    ensures LiveInv(live - {reqs[r].key}, turns, reqs[r := reqs[r].(pc := pc)])
  {
  }

  lemma LiveRegister(s: System, r: ReqId)
    requires HoldersInv(s.active, s.reqs) && LiveInv(s.live, s.turns, s.reqs) && Enabled(s, RegisterLive(r))
    ensures var s' := Apply(s, RegisterLive(r)); LiveInv(s'.live, s'.turns, s'.reqs)
  {
    if s.reqs[r].key in s.live {
      LiveTurnIsTheHolders(s.active, s.live, s.turns, s.reqs, r);
    } else {
      LiveAdd(s.live, s.turns, s.reqs, r);
    }
  }

  lemma LiveRelease(s: System, r: ReqId)
    requires HoldersInv(s.active, s.reqs) && LiveInv(s.live, s.turns, s.reqs) && Enabled(s, ReleaseLive(r))
    ensures var s' := Apply(s, ReleaseLive(r)); LiveInv(s'.live, s'.turns, s'.reqs)
  {
    LiveTurnIsTheHolders(s.active, s.live, s.turns, s.reqs, r);
    assert OwnTurn(s.reqs[r].key, s.live[s.reqs[r].key], s.turns[s.live[s.reqs[r].key]], s.reqs);
    assert Unlive(s, s.reqs[r].key, s.reqs[r].user) == s.live - {s.reqs[r].key};
    LiveDrop(s.live, s.turns, s.reqs, r, Streaming(s.reqs[r].pc.sid, true));
  }

  lemma LiveTurn(live: map<string, TurnId>, turns: seq<Turn>, reqs: map<ReqId, Req>, tid: TurnId, t: Turn)
    requires LiveInv(live, turns, reqs) && tid < |turns| && t.req == turns[tid].req && t.user == turns[tid].user
    ensures LiveInv(live, turns[tid := t], reqs)
  {
  }

  lemma LiveStep(s: System, st: Step)
    requires HoldersInv(s.active, s.reqs) && LiveInv(s.live, s.turns, s.reqs) && Enabled(s, st)
    ensures LiveInv(Apply(s, st).live, Apply(s, st).turns, Apply(s, st).reqs)
  {
    if st.RegisterLive? {
      LiveRegister(s, st.r);
    } else if st.ReleaseLive? {
      LiveRelease(s, st.r);
    } else if st.SetRunID? || st.FinishWith? {
      LiveTurn(s.live, s.turns, s.reqs, st.tid, Apply(s, st).turns[st.tid]);
    } else if RequestStep(st) {
      LivePut(s.live, s.turns, s.reqs, st.r, Apply(s, st).reqs[st.r]);
    }
  }

  lemma WaitersStep(s: System, st: Step)
    requires StreamsInv(s.active, s.streams, s.reqs) && WaitersInv(s) && Enabled(s, st)
    ensures WaitersInv(Apply(s, st))
  {
  }

  lemma {:induction false} StepInv(s: System, st: Step)
    requires Inv(s) && Enabled(s, st)
    ensures Inv(Apply(s, st))
  {
    HoldersStep(s, st);
    StreamsStep(s, st);
    LiveStep(s, st);
    WaitersStep(s, st);
  }
}

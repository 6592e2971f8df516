/** What session streams and live turns (Hub) keep over every interleaving. */
module HubRuns {
  import opened Common
  import opened Hub

  ghost predicate Run(states: seq<System>, steps: seq<Step>) {
    && |states| == |steps| + 1 && states[0] == Init()
    && forall i :: 0 <= i < |steps| ==> Enabled(states[i], steps[i]) && states[i + 1] == Apply(states[i], steps[i])
  }

  lemma {:induction false} RunInv(states: seq<System>, steps: seq<Step>, n: nat)
    requires Run(states, steps) && n < |states|
    ensures Inv(states[n])
  {
    if n > 0 {
      RunInv(states, steps, n - 1);
      StepInv(states[n - 1], steps[n - 1]);
    }
  }

  /** Two requests never hold streams of one session at once. */
  lemma OneStreamPerSession(states: seq<System>, steps: seq<Step>, n: nat, r: ReqId, q: ReqId)
    requires Run(states, steps) && n < |states| && r in states[n].reqs && q in states[n].reqs
    requires IsOpen(states[n].reqs[r].pc) && IsOpen(states[n].reqs[q].pc) && states[n].reqs[r].key == states[n].reqs[q].key
    ensures r == q
  {
    RunInv(states, steps, n);
  }

  lemma ClosedStreamStays(s: System, st: Step, sid: StreamId)
    requires Enabled(s, st) && sid < |s.streams| && s.streams[sid].closed
    ensures sid < |Apply(s, st).streams| && Apply(s, st).streams[sid] == s.streams[sid]
  {
  }

  /** Once closed, a stream is never written again, whoever still holds it. */
  lemma {:induction false} NothingIsWrittenToAClosedStream(states: seq<System>, steps: seq<Step>, m: nat, n: nat, sid: StreamId)
    requires Run(states, steps) && m <= n < |states| && sid < |states[m].streams| && states[m].streams[sid].closed
    ensures sid < |states[n].streams| && states[n].streams[sid] == states[m].streams[sid]
  {
    if m < n {
      NothingIsWrittenToAClosedStream(states, steps, m, n - 1, sid);
      ClosedStreamStays(states[n - 1], steps[n - 1], sid);
    }
  }

  /** Close unregisters its own stream and no other. */
  lemma CloseUnregistersItsOwnStream(states: seq<System>, steps: seq<Step>, n: nat, r: ReqId)
    requires Run(states, steps) && n < |states| && Enabled(states[n], Remove(r))
    ensures var s := states[n];
      && s.reqs[r].key in s.active && s.active[s.reqs[r].key] == s.reqs[r].pc.sid
      && Apply(s, Remove(r)).active == s.active - {s.reqs[r].key}
  {
    RunInv(states, steps, n);
  }

  /** A request registering its turn finds no other turn of the session. */
  lemma RegisterLiveNeverOverwrites(states: seq<System>, steps: seq<Step>, n: nat, r: ReqId)
    requires Run(states, steps) && n < |states| && Enabled(states[n], RegisterLive(r))
    ensures states[n].reqs[r].key !in states[n].live
  {
    RunInv(states, steps, n);
  }

  /** releaseLive, which checks the user alone, drops exactly the turn its request registered. */
  lemma ReleaseLiveDropsItsOwnTurn(states: seq<System>, steps: seq<Step>, n: nat, r: ReqId)
    requires Run(states, steps) && n < |states| && Enabled(states[n], ReleaseLive(r))
    ensures var s, req := states[n], states[n].reqs[r];
      && req.key in s.live && s.live[req.key] == req.pc.tid
      && Apply(s, ReleaseLive(r)).live == s.live - {req.key}
  {
    RunInv(states, steps, n);
  }

  /** A registered live turn's request holds the session's registered, unclosed stream. */
  lemma LiveTurnHoldsTheStream(states: seq<System>, steps: seq<Step>, n: nat, key: string)
    requires Run(states, steps) && n < |states| && key in states[n].live
    ensures var s := states[n];
      && s.live[key] < |s.turns| && key in s.active && s.active[key] < |s.streams| && !s.streams[s.active[key]].closed
      && s.turns[s.live[key]].req in s.reqs && IsOpen(s.reqs[s.turns[s.live[key]].req].pc)
      && s.reqs[s.turns[s.live[key]].req].pc.sid == s.active[key]
  {
    RunInv(states, steps, n);
    var s := states[n];
    assert OwnTurn(key, s.live[key], s.turns[s.live[key]], s.reqs);
  }

  /** The first outcome of a turn stays, however many routers finish it and however late. */
  lemma {:induction false} FirstOutcomeIsFinal(states: seq<System>, steps: seq<Step>, m: nat, n: nat, tid: TurnId)
    requires Run(states, steps) && m <= n < |states| && tid < |states[m].turns| && states[m].turns[tid].end.Some?
    ensures tid < |states[n].turns| && states[n].turns[tid].end == states[m].turns[tid].end
  {
    if m < n {
      FirstOutcomeIsFinal(states, steps, m, n - 1, tid);
    }
  }

  /** WaitIdle returns nil only from a state with no registered stream, from which Open would succeed. */
  lemma WaitIdleReturnsOnlyWhenNoneIsRegistered(states: seq<System>, steps: seq<Step>, n: nat, w: nat)
    requires Run(states, steps) && n < |steps| && w in states[n + 1].waiters && states[n + 1].waiters[w].Idle?
    requires w in states[n].waiters ==> !states[n].waiters[w].Idle?
    ensures states[n + 1].waiters[w].key !in states[n].active
  {
  }

  /** A parked waiter is never stranded: its stream is closed, or still registered for it. */
  lemma WaitersAreWoken(states: seq<System>, steps: seq<Step>, n: nat, w: nat)
    requires Run(states, steps) && n < |states| && w in states[n].waiters && states[n].waiters[w].Parked?
    ensures var s, p := states[n], states[n].waiters[w];
      Enabled(s, Woken(w)) || (p.key in s.active && s.active[p.key] == p.sid)
  {
    RunInv(states, steps, n);
  }

  /** Why membership is re-checked: a stream can be closed while Open still refuses its session. */
  lemma ClosedStreamMayStillRefuseOpen() returns (states: seq<System>, steps: seq<Step>)
    ensures Run(states, steps)
    ensures var s := states[|states| - 1];
      "k" in s.active && s.active["k"] < |s.streams| && s.streams[s.active["k"]].closed
  {
    steps := [Arrive(0, "k", "u"), Open(0), MarkClosed(0)];
    var s0 := Init();
    var s1 := Apply(s0, steps[0]);
    var s2 := Apply(s1, steps[1]);
    var s3 := Apply(s2, steps[2]);
    states := [s0, s1, s2, s3];
  }
}

/**
  What each request to the hub is answered, what a stream carries, and how a live turn ends
  (Hub), read off the steps of a run.
*/
module HubAnswers {
  import opened Common
  import opened Hub
  import opened HubRuns

  // ---- opening ---------------------------------------------------------------------

  /** A request is refused exactly when its session has a stream; otherwise it gets a new one, empty and open. */
  lemma OpenIsRefusedIff(states: seq<System>, steps: seq<Step>, n: nat, r: ReqId)
    requires Run(states, steps) && n < |steps| && steps[n] == Open(r)
    ensures var s, s', key := states[n], states[n + 1], states[n].reqs[r].key;
      && r in s'.reqs && (s'.reqs[r].pc.Refused? <==> key in s.active)
      && (key in s.active ==> s'.active == s.active && s'.streams == s.streams)
      && (key !in s.active ==> s'.reqs[r].pc.Streaming? && Fresh(s, s', key, s'.reqs[r].pc.sid))
  {
  }

  /** One stream more, registered for the session. */
  predicate Fresh(s: System, s': System, key: string, sid: StreamId) {
    && sid == |s.streams| && s'.streams == s.streams + [StreamState(key, false, [])]
    && key in s'.active && s'.active[key] == sid && forall k :: k in s.active ==> k in s'.active && s'.active[k] == s.active[k]
  }

  // ---- what a stream carries ---------------------------------------------------------

  /** The frames written to the stream before its close, in order. */
  function WrittenTo(states: seq<System>, steps: seq<Step>, n: nat, sid: StreamId): seq<string>
    requires n <= |steps| <= |states|
  {
    if n == 0 then []
    else
      var s, st := states[n - 1], steps[n - 1];
      WrittenTo(states, steps, n - 1, sid) +
      if st.Write? && st.sid == sid && sid < |s.streams| && !s.streams[sid].closed then [st.ev] else []
  }

  lemma StreamStep(s: System, st: Step, sid: StreamId)
    requires Enabled(s, st) && sid < |Apply(s, st).streams|
    ensures Apply(s, st).streams[sid].written ==
      if sid >= |s.streams| then []
      else s.streams[sid].written + if st.Write? && st.sid == sid && !s.streams[sid].closed then [st.ev] else []
  {
    if sid < |s.streams| {
      assert s.streams[sid].written + [] == s.streams[sid].written;
    }
  }

  lemma {:induction false} NothingBeforeItsOpen(states: seq<System>, steps: seq<Step>, n: nat, sid: StreamId)
    requires Run(states, steps) && n < |states| && sid >= |states[n].streams|
    ensures WrittenTo(states, steps, n, sid) == []
  {
    if n > 0 {
      StreamsOnlyGrow(states[n - 1], steps[n - 1]);
      NothingBeforeItsOpen(states, steps, n - 1, sid);
    }
  }

  lemma StreamsOnlyGrow(s: System, st: Step)
    requires Enabled(s, st)
    ensures |s.streams| <= |Apply(s, st).streams|
  {
  }

  /** Whoever writes: a stream carries exactly the frames written to it before its close, each once and in order. */
  lemma {:induction false} StreamCarriesItsWrites(states: seq<System>, steps: seq<Step>, n: nat, sid: StreamId)
    requires Run(states, steps) && n < |states| && sid < |states[n].streams|
    ensures states[n].streams[sid].written == WrittenTo(states, steps, n, sid)
  {
    StreamStep(states[n - 1], steps[n - 1], sid);
    if sid < |states[n - 1].streams| {
      StreamCarriesItsWrites(states, steps, n - 1, sid);
    } else {
      NothingBeforeItsOpen(states, steps, n - 1, sid);
    }
  }

  // ---- how a turn ends -----------------------------------------------------------------

  /** The first outcome any router reports for the turn. */
  function FirstFinish(steps: seq<Step>, n: nat, tid: TurnId): Option<TurnEnd>
    requires n <= |steps|
  {
    if n == 0 then None
    else if FirstFinish(steps, n - 1, tid).Some? then FirstFinish(steps, n - 1, tid)
    else if steps[n - 1].FinishWith? && steps[n - 1].tid == tid then Some(steps[n - 1].end)
    else None
  }

  /** The run id last set for the turn. */
  function LastRunID(steps: seq<Step>, n: nat, tid: TurnId): string
    requires n <= |steps|
  {
    if n == 0 then ""
    else if steps[n - 1].SetRunID? && steps[n - 1].tid == tid then steps[n - 1].runID
    else LastRunID(steps, n - 1, tid)
  }

  lemma TurnStep(s: System, st: Step, tid: TurnId)
    requires Enabled(s, st) && tid < |Apply(s, st).turns|
    ensures var t := Apply(s, st).turns[tid];
      if tid < |s.turns| then
        && t.end == (if s.turns[tid].end.None? && st.FinishWith? && st.tid == tid then Some(st.end) else s.turns[tid].end)
        && t.runID == (if st.SetRunID? && st.tid == tid then st.runID else s.turns[tid].runID)
      else t.end == None && t.runID == ""
  {
  }

  lemma {:induction false} NoTurnYet(states: seq<System>, steps: seq<Step>, n: nat, tid: TurnId)
    requires Run(states, steps) && n < |states| && tid >= |states[n].turns|
    ensures FirstFinish(steps, n, tid) == None && LastRunID(steps, n, tid) == ""
  {
    if n > 0 {
      TurnsOnlyGrow(states[n - 1], steps[n - 1]);
      NoTurnYet(states, steps, n - 1, tid);
    }
  }

  lemma TurnsOnlyGrow(s: System, st: Step)
    requires Enabled(s, st)
    ensures |s.turns| <= |Apply(s, st).turns|
  {
  }

  /** A turn ends as its first report says, whatever comes later, and carries the run id last set. */
  lemma {:induction false} TurnEndsAsFirstReported(states: seq<System>, steps: seq<Step>, n: nat, tid: TurnId)
    requires Run(states, steps) && n < |states| && tid < |states[n].turns|
    ensures states[n].turns[tid].end == FirstFinish(steps, n, tid)
    ensures states[n].turns[tid].runID == LastRunID(steps, n, tid)
  {
    TurnStep(states[n - 1], steps[n - 1], tid);
    if tid < |states[n - 1].turns| {
      TurnEndsAsFirstReported(states, steps, n - 1, tid);
    } else {
      NoTurnYet(states, steps, n - 1, tid);
    }
  }
}

/**
  What the Stop handler (Stop) answers, read off the environment alone: whom it aborts,
  when it settles, how its wait ends, and the response code of every path.
*/
module StopAnswers {
  import opened Common
  import opened Stop

  // ---- how the wait ends ---------------------------------------------------------

  /** Both signals agree: the hub reported idle, the gateway answers not busy, and no stream is open. */
  predicate Quiet(t: Tick) {
    t.hub.ReportedIdle? && t.busy == Busy(false) && !t.streamOpen
  }

  predicate ReadFails(t: Tick, deadline: bool) {
    t.hub.ReportedIdle? && t.busy == BusyFailed(deadline)
  }

  /** The deadline shows in the hub's report, in the read, or at the end of a turn that decided nothing. */
  predicate Late(t: Tick) {
    t.hub.ReportedExpiry? || ReadFails(t, true) || (t.expired && !Quiet(t) && !ReadFails(t, false))
  }

  predicate Undecided(t: Tick) {
    !Quiet(t) && !ReadFails(t, false) && !Late(t)
  }

  /** Tick i decides. */
  predicate Decides(ticks: seq<Tick>, i: nat) {
    i < |ticks| && !Undecided(ticks[i]) && forall j :: 0 <= j < i ==> Undecided(ticks[j])
  }

  lemma {:induction false} DecidingTickEndsIt(ticks: seq<Tick>, i: nat)
    requires Decides(ticks, i)
    ensures WaitOf(ticks).1 == if Quiet(ticks[i]) then Settles else if ReadFails(ticks[i], false) then Fails else Expires
    decreases i
  {
    if i > 0 {
      assert Undecided(ticks[0]);
      var rest := ticks[1..];
      assert forall j :: 0 <= j < |rest| ==> rest[j] == ticks[j + 1];
      DecidingTickEndsIt(rest, i - 1);
    }
  }

  lemma {:induction false} SomeTickDecides(ticks: seq<Tick>) returns (i: Option<nat>)
    ensures i.Some? ==> Decides(ticks, i.value)
    ensures i.None? ==> WaitOf(ticks).1 == Expires && forall j :: 0 <= j < |ticks| ==> Undecided(ticks[j])
  {
    if ticks == [] {
      i := None;
    } else if Undecided(ticks[0]) {
      var rest := ticks[1..];
      var k := SomeTickDecides(rest);
      assert forall j :: 0 < j < |ticks| ==> ticks[j] == rest[j - 1];
      i := if k.Some? then Some(k.value + 1) else None;
    } else {
      i := Some(0);
    }
  }

  lemma OneTickDecides(ticks: seq<Tick>, i: nat, j: nat)
    requires Decides(ticks, i) && Decides(ticks, j)
    ensures i == j
  {
  }

  /**
    The wait ends by its first deciding tick: idle when both signals agree in it, a
    failure when its read fails before the deadline, and a timeout otherwise or when no
    tick decides. A busy read, an open stream or a hub that has not reported decides
    nothing.
  */
  lemma WaitEndsByItsFirstDecidingTick(ticks: seq<Tick>)
    ensures WaitOf(ticks).1 == Settles <==> exists i: nat :: Decides(ticks, i) && Quiet(ticks[i])
    ensures WaitOf(ticks).1 == Fails <==> exists i: nat :: Decides(ticks, i) && ReadFails(ticks[i], false)
    ensures WaitOf(ticks).1 == Expires <==> forall i: nat :: Decides(ticks, i) ==> Late(ticks[i])
  {
    var k := SomeTickDecides(ticks);
    if k.Some? {
      DecidingTickEndsIt(ticks, k.value);
      forall i: nat | Decides(ticks, i) ensures i == k.value {
        OneTickDecides(ticks, i, k.value);
      }
    } else {
      assert forall i: nat :: !Decides(ticks, i);
    }
  }

  /** Nothing expired, and no read failed. */
  predicate Undisturbed(ticks: seq<Tick>) {
    forall j :: 0 <= j < |ticks| ==>
      !ticks[j].expired && !ticks[j].hub.ReportedExpiry? && !(ticks[j].hub.ReportedIdle? && ticks[j].busy.BusyFailed?)
  }

  /** The wait settles exactly when both signals agree in some tick before which nothing failed and nothing expired. */
  lemma WaitSettlesIff(ticks: seq<Tick>)
    ensures WaitOf(ticks).1 == Settles <==> exists i: nat :: i < |ticks| && Quiet(ticks[i]) && Undisturbed(ticks[..i])
  {
    WaitEndsByItsFirstDecidingTick(ticks);
    if i: nat :| Decides(ticks, i) && Quiet(ticks[i]) {
      assert forall j :: 0 <= j < i ==> ticks[..i][j] == ticks[j] && Undecided(ticks[j]);
    }
    if i: nat :| i < |ticks| && Quiet(ticks[i]) && Undisturbed(ticks[..i]) {
      var k := FirstQuiet(ticks, i);
      assert forall j :: 0 <= j < k ==> ticks[..i][j] == ticks[j];
      assert Decides(ticks, k);
    }
  }

  lemma {:induction false} FirstQuiet(ticks: seq<Tick>, i: nat) returns (k: nat)
    requires i < |ticks| && Quiet(ticks[i])
    ensures k <= i && Quiet(ticks[k]) && forall j :: 0 <= j < k ==> !Quiet(ticks[j])
    decreases i
  {
    if j: nat :| j < i && Quiet(ticks[j]) {
      k := FirstQuiet(ticks, j);
    } else {
      k := i;
    }
  }

  // ---- whom it aborts ------------------------------------------------------------

  /** The session's live turn is the caller's own and has installed its run id. */
  predicate OwnTurn(e: Env) {
    e.live.Some? && e.live.value.user == e.user && e.live.value.runID != ""
  }

  /** The run this Stop is about: the caller's live turn, or else the run the gateway names. */
  predicate Names(e: Env, id: string) {
    id != "" && if OwnTurn(e) then id == e.live.value.runID else e.inFlight == Active(id)
  }

  lemma AbortsExactlyTheNamedRun(e: Env, id: string)
    ensures AbortSent(id) in Handled(e) <==> e.post && e.hasKey && e.hasChannel && Names(e, id)
  {
    WaitReads(e.ticks);
    if e.post && e.hasKey && e.hasChannel && Names(e, id) {
      assert Handled(e)[0] == AbortSent(id);
    }
  }

  // ---- when it settles, and what it answers ------------------------------------------

  /** An idle session, an abort the gateway confirmed, or a session found not busy after any other abort. */
  ghost predicate Stopped(e: Env) {
    if !OwnTurn(e) && e.inFlight.NoRun? then true
    else (exists id :: Names(e, id)) && (e.abort == Answered(true) || e.reconcile == Busy(false))
  }

  lemma StoppedIsProven(e: Env)
    requires e.post && e.hasKey && e.hasChannel
    ensures Stopped(e) <==> Proven(e)
  {
    if OwnTurn(e) {
      assert Names(e, e.live.value.runID);
    } else if e.inFlight.Active? && e.inFlight.id != "" {
      assert Names(e, e.inFlight.id);
    }
  }

  lemma OneSettlement(lead: seq<Effect>, at: Moment, seen: seq<Effect>, code: nat)
    requires forall i :: 0 <= i < |lead| ==> !lead[i].Settled?
    requires forall i :: 0 <= i < |seen| ==> !seen[i].Settled?
    ensures var log := lead + ([Settled(at)] + seen + [Responded(code)]);
      log[|lead|] == Settled(at) && forall i :: 0 <= i < |log| && log[i].Settled? ==> i == |lead|
  {
    var log := lead + ([Settled(at)] + seen + [Responded(code)]);
    assert log[|lead|] == Settled(at) && log[|log| - 1] == Responded(code);
    assert log[|lead| + 1..|log| - 1] == seen;
    forall i | 0 <= i < |log| && i != |lead| ensures !log[i].Settled? {
      if |lead| < i < |log| - 1 {
        assert log[i] == log[|lead| + 1..|log| - 1][i - |lead| - 1];
      }
    }
  }

  lemma SettledOnce(e: Env)
    requires Proven(e)
    ensures forall i :: 0 <= i < |Handled(e)| && Handled(e)[i].Settled? ==> i == |Lead(e)|
    ensures |Lead(e)| < |Handled(e)| && Handled(e)[|Lead(e)|] == Settled(e.settleAt)
  {
    WaitReads(e.ticks);
    Shape(e);
    OneSettlement(Lead(e), e.settleAt, WaitOf(e.ticks).0, CodeOf(WaitOf(e.ticks).1));
  }

  /** The records are settled exactly when the run is known to be gone, once, before the wait. */
  lemma SettlesIffStopped(e: Env, at: Moment)
    ensures Settled(at) in Handled(e) <==> e.post && e.hasKey && e.hasChannel && Stopped(e) && at == e.settleAt
    ensures forall i, j :: 0 <= i < j < |Handled(e)| ==> !(Handled(e)[i].Settled? && Handled(e)[j].Settled?)
  {
    Shape(e);
    if e.post && e.hasKey && e.hasChannel {
      StoppedIsProven(e);
      if Proven(e) {
        SettledOnce(e);
      }
    }
  }

  /** What the environment makes of the request. */
  ghost function CodeFor(e: Env): nat {
    if !e.post then 405
    else if !e.hasKey then 400
    else if !e.hasChannel then 503
    else if !Stopped(e) then 502
    else if exists i: nat :: Decides(e.ticks, i) && Quiet(e.ticks[i]) then 200
    else if exists i: nat :: Decides(e.ticks, i) && ReadFails(e.ticks[i], false) then 502
    else 504
  }

  lemma LastAnswer(e: Env)
    ensures Handled(e) != [] && Handled(e)[|Handled(e)| - 1] == Responded(CodeFor(e))
  {
    if e.post && e.hasKey && e.hasChannel {
      StoppedIsProven(e);
      Shape(e);
      WaitEndsByItsFirstDecidingTick(e.ticks);
    }
  }

  /** The response code of every path. */
  lemma AnswersByTheirCause(e: Env, code: nat)
    ensures Responded(code) in Handled(e) <==> code == CodeFor(e)
  {
    RespondsOnceAndLast(e);
    LastAnswer(e);
  }
}

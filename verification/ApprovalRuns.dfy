/** What concurrent approval decisions (Approvals) keep over every interleaving. */
module ApprovalRuns {
  import opened Common
  import opened Approvals

  /** Any interleaving: each step enabled where it is taken. */
  ghost predicate Run(states: seq<System>, steps: seq<Step>) {
    && |states| == |steps| + 1 && states[0] == Init()
    && forall i :: 0 <= i < |steps| ==> Enabled(states[i], steps[i]) && states[i + 1] == Apply(states[i], steps[i])
  }

  lemma {:induction false} RunInv(states: seq<System>, steps: seq<Step>, n: nat)
    requires Run(states, steps) && n < |states|
    ensures Inv(states[n])
  {
    if n > 0 {
      RunInv(states, steps, n - 1);
      StepInv(states[n - 1], steps[n - 1]);
    }
  }

  /** An id is reserved exactly while some call is between reserve and release. */
  lemma ReservedExactlyWhileACallDecides(states: seq<System>, steps: seq<Step>, n: nat, id: string)
    requires Run(states, steps) && n < |states|
    ensures var s := states[n];
      id in s.sh.inflight <==> exists c :: c in s.calls && s.calls[c].id == id && Holds(s.calls[c].pc)
  {
    RunInv(states, steps, n);
    var s := states[n];
    if id in s.sh.inflight {
      assert s.holder[id] in s.calls;
    }
  }

  /** Two calls never decide one id at once. */
  lemma DecisionsOnOneIdAreSerial(states: seq<System>, steps: seq<Step>, n: nat, c: CallId, d: CallId)
    requires Run(states, steps) && n < |states| && c in states[n].calls && d in states[n].calls
    requires Holds(states[n].calls[c].pc) && Holds(states[n].calls[d].pc) && states[n].calls[c].id == states[n].calls[d].id
    ensures c == d
  {
    RunInv(states, steps, n);
  }

  /** A waiter holds the current holder's channel or a closed one, so it is woken or there is a holder to wake it. */
  lemma WaitersAreNeverStranded(states: seq<System>, steps: seq<Step>, n: nat, c: CallId)
    requires Run(states, steps) && n < |states| && c in states[n].calls && states[n].calls[c].pc.Waiting?
    ensures var s := states[n];
      || Enabled(s, Wake(c))
      || (s.calls[c].id in s.sh.inflight && s.sh.inflight[s.calls[c].id] == s.calls[c].pc.ch
          && exists d :: d in s.calls && d != c && s.calls[d].id == s.calls[c].id && Holds(s.calls[d].pc))
  {
    RunInv(states, steps, n);
    var s := states[n];
    var id := s.calls[c].id;
    if s.calls[c].pc.ch !in s.sh.closed {
      assert s.holder[id] in s.calls && s.holder[id] != c;
    }
  }

  /** release finds its own entry and closes its channel for the first time. */
  lemma ReleaseEndsItsOwnReservation(states: seq<System>, steps: seq<Step>, n: nat, c: CallId)
    requires Run(states, steps) && n < |states| && Enabled(states[n], ReleaseCall(c))
    ensures var s := states[n];
      && s.calls[c].id in s.sh.inflight && s.sh.inflight[s.calls[c].id] !in s.sh.closed
      && Apply(s, ReleaseCall(c)).sh.inflight == s.sh.inflight - {s.calls[c].id}
  {
    RunInv(states, steps, n);
  }

  /** However many calls decide one id, at most one succeeds and the ledger holds at most one entry. */
  lemma OneSuccessAndOneAuditPerApproval(states: seq<System>, steps: seq<Step>, n: nat, c: CallId, d: CallId)
    requires Run(states, steps) && n < |states| && c in states[n].calls && d in states[n].calls
    requires Accepted(states[n].calls[c].pc) && Accepted(states[n].calls[d].pc)
    requires states[n].calls[c].id == states[n].calls[d].id
    ensures c == d && states[n].audited[states[n].calls[c].id] <= 1
  {
    RunInv(states, steps, n);
  }

  /** An audit entry belongs to an approval whose decision the gateway accepted. */
  lemma AuditFollowsAnAcceptedDecision(states: seq<System>, steps: seq<Step>, n: nat, id: string)
    requires Run(states, steps) && n < |states| && states[n].audited[id] > 0
    ensures var s := states[n];
      s.audited[id] == 1 && id in s.gw.bound && id !in s.gw.listed
      && exists c :: c in s.calls && s.calls[c].id == id && (s.calls[c].pc == Releasing(Success) || s.calls[c].pc == Done(Success))
  {
    RunInv(states, steps, n);
    var s := states[n];
    var c := s.won[id];
    assert Accepted(s.calls[c].pc) && !NotAudited(s.calls[c].pc);
  }

  /** "No pending" is told only of an id the gateway is not listing for that session; a known id stays unlisted. */
  lemma NoPendingOnlyAfterTheGatewayMovedOn(states: seq<System>, steps: seq<Step>, m: nat, n: nat, c: CallId, ok: bool)
    requires Run(states, steps) && m < |steps| && m < n < |states|
    requires steps[m] == ReadPending(c, ok) && states[m + 1].calls[c].pc.Releasing? && states[m + 1].calls[c].pc.out.NoPending?
    ensures var call := states[m].calls[c];
      && !Finds(states[m].gw, call.owner, call.id)
      && (Known(states[m].gw, call.owner, call.id) ==> call.id !in states[n].gw.listed)
  {
    var call := states[m].calls[c];
    if Known(states[m].gw, call.owner, call.id) {
      RunInv(states, steps, m);
      UnlistedStaysUnlisted(states, steps, m, n, call.id);
    }
  }

  lemma {:induction false} UnlistedStaysUnlisted(states: seq<System>, steps: seq<Step>, m: nat, n: nat, id: string)
    requires Run(states, steps) && m <= n < |states|
    requires id in states[m].gw.bound && id !in states[m].gw.listed
    ensures id in states[n].gw.bound && id !in states[n].gw.listed
  {
    if m < n {
      UnlistedStaysUnlisted(states, steps, m, n - 1, id);
    }
  }
}

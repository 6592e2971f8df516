/** What a caller of the gateway connection (Conns) is handed, and why it is handed none. */
module ConnAnswers {
  import opened Common
  import opened Conns

  /** The client the caller holds, or is about to. */
  function HandOf(pc: Pc): Option<ClientId> {
    match pc
    case Marking(client) => Some(client)
    case Releasing(got) => got
    case Returned(got) => got
    case _ => None
  }

  /** The client stands in the entry and is up. */
  predicate InUse(s: System, client: ClientId) {
    s.sh.entry.Some? && s.sh.entry.value.client == client && client in s.sh.up
  }

  /** At some moment before, it did. */
  ghost predicate WasUsable(states: seq<System>, n: nat, client: ClientId) {
    exists i :: 0 <= i <= n < |states| && InUse(states[i], client)
  }

  lemma UsableStays(states: seq<System>, n: nat, client: ClientId)
    requires n + 1 < |states| && WasUsable(states, n, client)
    ensures WasUsable(states, n + 1, client)
  {
  }

  lemma HandStep(s: System, st: Step, c: CallerId)
    requires Inv(s) && Enabled(s, st) && c in Apply(s, st).pc && HandOf(Apply(s, st).pc[c]).Some?
    ensures var client := HandOf(Apply(s, st).pc[c]).value;
      (c in s.pc && HandOf(s.pc[c]) == Some(client)) || InUse(s, client) || InUse(Apply(s, st), client)
  {
  }

  /** The caller was handed its client already, or the client is in use now. */
  ghost predicate HandedOver(s: System, s': System, c: CallerId, client: ClientId) {
    (c in s.pc && HandOf(s.pc[c]) == Some(client)) || InUse(s, client) || InUse(s', client)
  }

  lemma HandInRun(states: seq<System>, steps: seq<Step>, n: nat, c: CallerId)
    requires Run(states, steps) && n < |states| && c in states[n].pc && HandOf(states[n].pc[c]).Some?
    ensures n > 0 && HandedOver(states[n - 1], states[n], c, HandOf(states[n].pc[c]).value)
  {
    RunInv(states, steps, n - 1);
    HandStep(states[n - 1], steps[n - 1], c);
  }

  lemma InUseIsUsable(states: seq<System>, i: nat, n: nat, client: ClientId)
    requires i <= n < |states| && InUse(states[i], client)
    ensures WasUsable(states, n, client)
  {
  }

  /** Whatever client conn returns stood in the user's entry, connected, during the call or before it. */
  lemma {:induction false} ReturnedClientWasUsable(states: seq<System>, steps: seq<Step>, n: nat, c: CallerId)
    requires Run(states, steps) && n < |states| && c in states[n].pc && HandOf(states[n].pc[c]).Some?
    ensures WasUsable(states, n, HandOf(states[n].pc[c]).value)
  {
    var client := HandOf(states[n].pc[c]).value;
    HandInRun(states, steps, n, c);
    if InUse(states[n], client) {
      InUseIsUsable(states, n, n, client);
    } else if InUse(states[n - 1], client) {
      InUseIsUsable(states, n - 1, n, client);
    } else {
      ReturnedClientWasUsable(states, steps, n - 1, c);
      UsableStays(states, n - 1, client);
    }
  }

  predicate Failed(pc: Pc) {
    pc == Releasing(None) || pc == Returned(None)
  }

  /** The caller's own deadline while it waited for the token, or its own dial that failed for good. */
  predicate Fails(st: Step, c: CallerId) {
    st == TokenTimeout(c) || st == Connect(c, false, false)
  }

  ghost predicate FailedBefore(steps: seq<Step>, n: nat, c: CallerId) {
    exists i :: 0 <= i < n <= |steps| && Fails(steps[i], c)
  }

  lemma FailedBeforeNext(steps: seq<Step>, n: nat, c: CallerId)
    requires 0 < n <= |steps|
    ensures FailedBefore(steps, n, c) <==> FailedBefore(steps, n - 1, c) || Fails(steps[n - 1], c)
  {
  }

  lemma FailStep(s: System, st: Step, c: CallerId)
    requires Enabled(s, st) && c in Apply(s, st).pc
    ensures Failed(Apply(s, st).pc[c]) <==> (c in s.pc && Failed(s.pc[c])) || Fails(st, c)
  {
  }

  lemma {:induction false} NoCallNoFailure(states: seq<System>, steps: seq<Step>, n: nat, c: CallerId)
    requires Run(states, steps) && n < |states| && c !in states[n].pc
    ensures !FailedBefore(steps, n, c)
  {
    if n > 0 {
      assert c !in states[n - 1].pc;
      NoCallNoFailure(states, steps, n - 1, c);
      FailedBeforeNext(steps, n, c);
    }
  }

  /** A caller is handed no client exactly when it timed out waiting for the token, or its own dial failed. */
  lemma {:induction false} NoClientIff(states: seq<System>, steps: seq<Step>, n: nat, c: CallerId)
    requires Run(states, steps) && n < |states| && c in states[n].pc
    ensures Failed(states[n].pc[c]) <==> FailedBefore(steps, n, c)
  {
    FailStep(states[n - 1], steps[n - 1], c);
    FailedBeforeNext(steps, n, c);
    if c in states[n - 1].pc {
      NoClientIff(states, steps, n - 1, c);
    } else {
      NoCallNoFailure(states, steps, n - 1, c);
    }
  }

  /** A usable client is returned at once, and no second one is dialled. */
  lemma UsableClientIsReused(states: seq<System>, steps: seq<Step>, n: nat, c: CallerId)
    requires Run(states, steps) && n < |steps| && (steps[n] == FirstCheck(c) || steps[n] == SecondCheck(c))
    ensures var s, pc := states[n], states[n + 1].pc[c];
      if s.sh.entry.Some? && s.sh.entry.value.client in s.sh.up
      then HandOf(pc) == Some(s.sh.entry.value.client) && (steps[n].FirstCheck? ==> pc.Returned?)
      else HandOf(pc) == None && pc == if steps[n].FirstCheck? then WantToken else Building
  {
  }
}

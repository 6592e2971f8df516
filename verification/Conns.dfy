/**
  One user's gateway connection (internal/server/gateway.go): conn returns the
  live client or dials a new one under a capacity-1 token, and remembers whether a
  handshake ever succeeded. Users share nothing, so the model is one user's.
*/
module Conns {
  import opened Common

  type ClientId = nat
  type CallerId = nat

  /** The stored entry and the flag that records a successful handshake. */
  datatype Entry = Entry(client: ClientId, connected: bool)

  /** m.conns and m.connecting for the user, and which clients are up; a client that goes down stays down. */
  datatype Shared = Shared(entry: Option<Entry>, dialing: bool, up: set<ClientId>, nextClient: ClientId)

  predicate Usable(s: Shared) {
    s.entry.Some? && s.entry.value.client in s.up
  }

  /** gatewayConnected: usable now, or connected once. */
  predicate HasConnected(s: Shared) {
    s.entry.Some? && (s.entry.value.connected || s.entry.value.client in s.up)
  }

  /** A dial's fresh entry, carrying the earlier success forward. */
  function DoRegister(s: Shared): Shared {
    s.(entry := Some(Entry(s.nextClient, HasConnected(s))), nextClient := s.nextClient + 1)
  }

  function DoMark(s: Shared): Shared {
    if s.entry.None? then s else s.(entry := Some(s.entry.value.(connected := true)))
  }

  class UserConn {
    var entry: Option<Entry>
    var dialing: bool
    var up: set<ClientId>
    var nextClient: ClientId

    ghost function Abs(): Shared
      reads this
    {
      Shared(entry, dialing, up, nextClient)
    }

    constructor ()
      ensures Abs() == Shared(None, false, {}, 0)
    {
      entry, dialing, up, nextClient := None, false, {}, 0;
    }

    /** The check made before and after taking the dial token; also liveConn. */
    method LiveConn() returns (client: Option<ClientId>)
      ensures client == if entry.Some? && entry.value.client in up then Some(entry.value.client) else None
      ensures client.Some? <==> Usable(Abs())
    {
      client := None;
      if entry.Some? && entry.value.client in up {
        client := Some(entry.value.client);
      }
    }

    method GatewayConnected() returns (b: bool)
      ensures b == HasConnected(Abs()) == (entry.Some? && (entry.value.connected || entry.value.client in up))
    {
      b := false;
      if entry.Some? {
        b := entry.value.connected || entry.value.client in up;
      }
    }

    method Register() returns (client: ClientId)
      modifies this
      ensures client == old(nextClient) && Abs() == DoRegister(old(Abs()))
      ensures entry == Some(Entry(client, old(entry.Some? && (entry.value.connected || entry.value.client in up))))
      ensures nextClient == old(nextClient) + 1 && dialing == old(dialing) && up == old(up)
    {
      client := nextClient;
      var carried := GatewayConnected();
      entry := Some(Entry(client, carried));
      nextClient := nextClient + 1;
    }

    method MarkConnected()
      modifies this
      ensures Abs() == DoMark(old(Abs()))
      ensures entry == if old(entry).Some? then Some(Entry(old(entry).value.client, true)) else None
      ensures nextClient == old(nextClient) && dialing == old(dialing) && up == old(up)
    {
      if entry.Some? {
        entry := Some(entry.value.(connected := true));
      }
    }

    method TryDialToken() returns (ok: bool)
      modifies this
      ensures ok == !old(dialing) && Abs() == old(Abs()).(dialing := true)
    {
      ok := !dialing;
      dialing := true;
    }

    method ReleaseDialToken()
      modifies this
      ensures Abs() == old(Abs()).(dialing := false)
    {
      dialing := false;
    }
  }

  // ---- callers ---------------------------------------------------------------

  datatype Pc =
    | Start
    | WantToken
    | Rechecking
    | Building
    | Dialing(client: ClientId)
    | Marking(client: ClientId)          // Connect returned nil, markConnected not run yet
    | Releasing(got: Option<ClientId>)
    | Returned(got: Option<ClientId>)

  datatype System = System(sh: Shared, pc: map<CallerId, Pc>)

  datatype Step =
    | Call(c: CallerId)
    | FirstCheck(c: CallerId)
    | TakeToken(c: CallerId)
    | TokenTimeout(c: CallerId)
    | SecondCheck(c: CallerId)
    | RegisterEntry(c: CallerId)
    | Connect(c: CallerId, ok: bool, retry: bool)     // retry: refused NOT_PAIRED within the budget
    | MarkConnected(c: CallerId)
    | ReleaseToken(c: CallerId)
    | Drop(client: ClientId)

  predicate IsAt(s: System, c: CallerId, pc: Pc) {
    c in s.pc && s.pc[c] == pc
  }

  ghost predicate Enabled(s: System, st: Step) {
    match st
    case Call(c) => c !in s.pc
    case FirstCheck(c) => IsAt(s, c, Start)
    case TakeToken(c) => IsAt(s, c, WantToken) && !s.sh.dialing
    case TokenTimeout(c) => IsAt(s, c, WantToken)
    case SecondCheck(c) => IsAt(s, c, Rechecking)
    case RegisterEntry(c) => IsAt(s, c, Building)
    case Connect(c, _, _) => c in s.pc && s.pc[c].Dialing?
    case MarkConnected(c) => c in s.pc && s.pc[c].Marking?
    case ReleaseToken(c) => c in s.pc && s.pc[c].Releasing?
    case Drop(_) => true
  }

  function GoTo(s: System, c: CallerId, pc: Pc): System {
    s.(pc := s.pc[c := pc])
  }

  ghost function Apply(s: System, st: Step): System
    requires Enabled(s, st)
  {
    match st
    case Call(c) => GoTo(s, c, Start)
    case FirstCheck(c) => GoTo(s, c, if Usable(s.sh) then Returned(Some(s.sh.entry.value.client)) else WantToken)
    case TakeToken(c) => GoTo(s, c, Rechecking).(sh := s.sh.(dialing := true))
    case TokenTimeout(c) => GoTo(s, c, Returned(None))
    case SecondCheck(c) => GoTo(s, c, if Usable(s.sh) then Releasing(Some(s.sh.entry.value.client)) else Building)
    case RegisterEntry(c) => GoTo(s, c, Dialing(s.sh.nextClient)).(sh := DoRegister(s.sh))
    case Connect(c, ok, retry) =>
      var client := s.pc[c].client;
      if ok then GoTo(s, c, Marking(client)).(sh := s.sh.(up := s.sh.up + {client}))
      else if retry then s
      else GoTo(s, c, Releasing(None))
    case MarkConnected(c) => GoTo(s, c, Releasing(Some(s.pc[c].client))).(sh := DoMark(s.sh))
    case ReleaseToken(c) => GoTo(s, c, Returned(s.pc[c].got)).(sh := s.sh.(dialing := false))
    case Drop(client) => s.(sh := s.sh.(up := s.sh.up - {client}))
  }

  ghost function Init(): System {
    System(Shared(None, false, {}, 0), map[])
  }

  // ---- the invariant ---------------------------------------------------------

  /** Holds the dial token. */
  predicate Dials(pc: Pc) {
    pc.Rechecking? || pc.Building? || pc.Dialing? || pc.Marking? || pc.Releasing?
  }

  ghost predicate TokenInv(s: System) {
    && (forall c, d :: c in s.pc && d in s.pc && Dials(s.pc[c]) && Dials(s.pc[d]) ==> c == d)
    && (forall c :: c in s.pc && Dials(s.pc[c]) ==> s.sh.dialing)
  }

  /** Only the entry's client is ever up, and a dial works on the entry it registered. */
  ghost predicate ClientsInv(s: System) {
    && (s.sh.entry.Some? ==> s.sh.entry.value.client < s.sh.nextClient)
    && (forall x :: x in s.sh.up ==> s.sh.entry.Some? && s.sh.entry.value.client == x)
    && (forall c :: c in s.pc && s.pc[c].Building? ==> s.sh.up == {})
    && (forall c :: c in s.pc && (s.pc[c].Dialing? || s.pc[c].Marking?) ==>
         s.sh.entry.Some? && s.sh.entry.value.client == s.pc[c].client)
    && (forall c :: c in s.pc && s.pc[c].Dialing? ==> s.sh.up == {})
  }

  /** An up client whose success is not recorded yet belongs to a caller about to record it. */
  ghost predicate FlagInv(s: System) {
    Usable(s.sh) && !s.sh.entry.value.connected ==> exists c :: c in s.pc && s.pc[c] == Marking(s.sh.entry.value.client)
  }

  ghost predicate Inv(s: System) {
    TokenInv(s) && ClientsInv(s) && FlagInv(s)
  }

  lemma TokenStep(s: System, st: Step)
    requires TokenInv(s) && Enabled(s, st)
    ensures TokenInv(Apply(s, st))
  {
  }

  lemma ClientsStep(s: System, st: Step)
    requires TokenInv(s) && ClientsInv(s) && Enabled(s, st)
    ensures ClientsInv(Apply(s, st))
  {
  }

  lemma FlagStep(s: System, st: Step)
    requires TokenInv(s) && ClientsInv(s) && FlagInv(s) && Enabled(s, st)
    ensures FlagInv(Apply(s, st))
  {
    var s' := Apply(s, st);
    if st.Connect? && st.ok {
      assert st.c in s'.pc && s'.pc[st.c] == Marking(s.pc[st.c].client);
    } else if Usable(s.sh) && !s.sh.entry.value.connected {
      var c :| c in s.pc && s.pc[c] == Marking(s.sh.entry.value.client);
      assert c in s'.pc;
    }
  }

  lemma StepInv(s: System, st: Step)
    requires Inv(s) && Enabled(s, st)
    ensures Inv(Apply(s, st))
  {
    TokenStep(s, st);
    ClientsStep(s, st);
    FlagStep(s, st);
  }

  // ---- runs ------------------------------------------------------------------

  ghost predicate Run(states: seq<System>, steps: seq<Step>) {
    && |states| == |steps| + 1 && states[0] == Init()
    && forall i :: 0 <= i < |steps| ==> Enabled(states[i], steps[i]) && states[i + 1] == Apply(states[i], steps[i])
  }

  lemma {:induction false} RunInv(states: seq<System>, steps: seq<Step>, n: nat)
    requires Run(states, steps) && n < |states|
    ensures Inv(states[n])
  {
    if n > 0 {
      RunInv(states, steps, n - 1);
      StepInv(states[n - 1], steps[n - 1]);
    }
  }

  /** At most one dial is in progress, and at most one client conn made is connected. */
  lemma OneDialAndOneConnectedClient(states: seq<System>, steps: seq<Step>, n: nat)
    requires Run(states, steps) && n < |states|
    ensures var s := states[n];
      && (forall c, d :: c in s.pc && d in s.pc && s.pc[c].Dialing? && s.pc[d].Dialing? ==> c == d)
      && (forall x, y :: x in s.sh.up && y in s.sh.up ==> x == y)
      && (forall c :: c in s.pc && s.pc[c].Dialing? ==> s.sh.up == {})
  {
    RunInv(states, steps, n);
  }

  /** A dial's success is recorded on the entry it registered. */
  lemma MarkRecordsItsOwnEntry(states: seq<System>, steps: seq<Step>, n: nat, c: CallerId)
    requires Run(states, steps) && n < |states| && Enabled(states[n], MarkConnected(c))
    ensures var s' := Apply(states[n], MarkConnected(c));
      s'.sh.entry == Some(Entry(states[n].pc[c].client, true))
  {
    RunInv(states, steps, n);
  }

  /** The client drops after Connect returned and before its success is recorded. */
  predicate DropsUnrecorded(s: System, st: Step) {
    st.Drop? && s.sh.entry.Some? && s.sh.entry.value == Entry(st.client, false) && st.client in s.sh.up
  }

  /** "Was connected" is monotone across drops and re-dials, except exactly in that window. */
  lemma WasConnectedIsMonotoneOutsideTheWindow(states: seq<System>, steps: seq<Step>, n: nat)
    requires Run(states, steps) && n < |steps| && HasConnected(states[n].sh)
    ensures HasConnected(states[n + 1].sh) <==> !DropsUnrecorded(states[n], steps[n])
  {
    RunInv(states, steps, n);
  }

  /** Once recorded, it stays, whatever drops or re-dials. */
  lemma {:induction false} RecordedConnectionStays(states: seq<System>, steps: seq<Step>, m: nat, n: nat)
    requires Run(states, steps) && m <= n < |states| && states[m].sh.entry.Some? && states[m].sh.entry.value.connected
    ensures states[n].sh.entry.Some? && states[n].sh.entry.value.connected
  {
    if m < n {
      RecordedConnectionStays(states, steps, m, n - 1);
    }
  }

  lemma RunSnoc(states: seq<System>, steps: seq<Step>, st: Step)
    requires Run(states, steps) && Enabled(states[|steps|], st)
    ensures Run(states + [Apply(states[|steps|], st)], steps + [st])
  {
  }

  /** A caller that has taken the dial token. */
  lemma FirstToken() returns (states: seq<System>, steps: seq<Step>)
    ensures Run(states, steps) && states[|steps|] == System(Shared(None, true, {}, 0), map[0 := Rechecking])
  {
    var s0 := Init();
    var s1 := System(s0.sh, map[0 := Start]);
    var s2 := System(s0.sh, map[0 := WantToken]);
    RunSnoc([s0], [], Call(0));
    states, steps := [s0] + [s1], [] + [Call(0)];
    RunSnoc(states, steps, FirstCheck(0));
    states, steps := states + [s2], steps + [FirstCheck(0)];
    RunSnoc(states, steps, TakeToken(0));
    states, steps := states + [System(Shared(None, true, {}, 0), map[0 := Rechecking])], steps + [TakeToken(0)];
  }

  /** A caller in the middle of its first dial, just before the handshake succeeds. */
  lemma FirstDial() returns (states: seq<System>, steps: seq<Step>)
    ensures Run(states, steps)
    ensures states[|steps|] == System(Shared(Some(Entry(0, false)), true, {}, 1), map[0 := Dialing(0)])
  {
    states, steps := FirstToken();
    RunSnoc(states, steps, SecondCheck(0));
    states, steps := states + [System(Shared(None, true, {}, 0), map[0 := Building])], steps + [SecondCheck(0)];
    RunSnoc(states, steps, RegisterEntry(0));
    states, steps := states + [System(Shared(Some(Entry(0, false)), true, {}, 1), map[0 := Dialing(0)])], steps + [RegisterEntry(0)];
  }

  /** The window is reachable, and what it loses comes back with markConnected. */
  lemma ConnectedFlickers() returns (states: seq<System>, steps: seq<Step>)
    ensures Run(states, steps) && |steps| >= 3
    ensures var n := |steps| - 2;
      HasConnected(states[n].sh) && !HasConnected(states[n + 1].sh) && HasConnected(states[n + 2].sh)
  {
    states, steps := FirstDial();
    var up := Apply(states[|steps|], Connect(0, true, false));
    RunSnoc(states, steps, Connect(0, true, false));
    states, steps := states + [up], steps + [Connect(0, true, false)];
    var down := Apply(up, Drop(0));
    RunSnoc(states, steps, Drop(0));
    states, steps := states + [down], steps + [Drop(0)];
    RunSnoc(states, steps, MarkConnected(0));
    states, steps := states + [Apply(down, MarkConnected(0))], steps + [MarkConnected(0)];
  }
}

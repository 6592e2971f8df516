/**
  The objects of one AgentInstance (internal/controller/agentinstance_controller.go):
  its PVC, Service and Pod are created, vetted by owner UID, and the Pod deleted
  under a UID precondition, while anything may be replaced between two API calls.
*/
module InstanceObjects {
  import opened Common

  type Uid = nat

  const NO_UID: Uid := 0

  datatype Kind = PVC | Service | Pod

  /** One object under the instance's generated name; `owner` is its controller owner's UID, 0 for none. */
  datatype Obj = Obj(uid: Uid, owner: Uid, terminating: bool, fingerprint: string, ready: bool, failed: bool)

  predicate OwnedBy(own: Uid, o: Obj) {
    own != NO_UID && o.owner == own
  }

  // ---- API calls -------------------------------------------------------------

  /** What stands under the name when a call reaches the API server, and whether the call fails. */
  datatype Call = Call(slot: Option<Obj>, fault: bool)

  datatype Got = Absent | Found(obj: Obj) | GetFailed

  function Get(c: Call): Got {
    if c.fault then GetFailed else match c.slot case None => Absent case Some(o) => Found(o)
  }

  datatype Deletion = Deleted(obj: Obj) | Gone | Refused

  /** A delete with a UID precondition: it lands only on the object it names. */
  function Delete(c: Call, uid: Uid): Deletion {
    if c.fault then Refused
    else match c.slot
         case None => Gone
         case Some(o) => if o.uid == uid then Deleted(o) else Refused
  }

  /** A create under the name: refused while anything stands there. */
  predicate CreateLands(c: Call) {
    !c.fault && c.slot.None?
  }

  // ---- one pass --------------------------------------------------------------

  datatype Gate = IdentityReady | IdentityMissing | LookupFails

  /** The calls of one reconcile, each at its own moment. */
  datatype Env = Env(
    own: Uid, want: string, identity: Gate,
    pvcGet: Call, pvcCreate: Call,
    svcGet: Call, svcCreate: Call,
    podGet: Call, podCreate: Call, podDelete: Call,
    observe: Call, healGet: Call, healDelete: Call)

  datatype Phase = Creating | Ready | Failed

  datatype Effect =
    | Created(kind: Kind)
    | DeletedPod(vetted: Obj, hit: Obj)
    | Status(phase: Phase)

  /** `Ends`: no error and no requeue; only a later watch event brings the instance back. */
  datatype Next = Requeue | Periodic | Error | Ends

  datatype Pass = Pass(effects: seq<Effect>, next: Next)

  /** ensurePVC and ensureService: create when missing, keep when owned, refuse otherwise. */
  function Ensured(own: Uid, kind: Kind, get: Call, create: Call): (seq<Effect>, bool) {
    match Get(get)
    case GetFailed => ([], false)
    case Absent => if CreateLands(create) then ([Created(kind)], true) else ([], false)
    case Found(o) => ([], OwnedBy(own, o))
  }

  datatype PodStep = Proceed | Wait | Fail

  function EnsuredPod(e: Env): (seq<Effect>, PodStep) {
    match Get(e.podGet)
    case GetFailed => ([], Fail)
    case Absent => if CreateLands(e.podCreate) then ([Created(Pod)], Proceed) else ([], Fail)
    case Found(o) =>
      if !OwnedBy(e.own, o) then ([], Fail)
      else if o.terminating then ([], Wait)
      else if o.fingerprint == e.want then ([], Proceed)
      else match Delete(e.podDelete, o.uid)
           case Deleted(hit) => ([DeletedPod(o, hit)], Wait)
           case Gone => ([], Wait)
           case Refused => ([], Fail)
  }

  function Observed(e: Env): Option<Phase> {
    match Get(e.observe)
    case GetFailed => None
    case Absent => Some(Creating)
    case Found(o) => Some(if o.ready then Ready else if o.failed then Failed else Creating)
  }

  function Healed(e: Env): (seq<Effect>, bool) {
    match Get(e.healGet)
    case GetFailed => ([], false)
    case Absent => ([], true)
    case Found(o) =>
      if !OwnedBy(e.own, o) then ([], false)
      else match Delete(e.healDelete, o.uid)
           case Deleted(hit) => ([DeletedPod(o, hit)], true)
           case Gone => ([], true)
           case Refused => ([], false)
  }

  function ObserveAndHeal(e: Env): Pass {
    match Observed(e)
    case None => Pass([], Error)
    case Some(phase) =>
      if phase.Failed? then
        var (healed, ok) := Healed(e);
        Pass([Status(Failed)] + healed, if ok then Requeue else Error)
      else Pass([Status(phase)], Periodic)
  }

  function Then(effects: seq<Effect>, rest: Pass): Pass {
    Pass(effects + rest.effects, rest.next)
  }

  function FailClosed(): Pass {
    Pass([Status(Failed)], Ends)
  }

  function PodPass(e: Env): Pass {
    var (effects, step) := EnsuredPod(e);
    Then(effects, match step case Fail => FailClosed() case Wait => Pass([], Requeue) case Proceed => ObserveAndHeal(e))
  }

  function Reconciled(e: Env): Pass {
    match e.identity
    case IdentityMissing => Pass([], Requeue)
    case LookupFails => Pass([], Error)
    case IdentityReady =>
      var (a, pvcOk) := Ensured(e.own, PVC, e.pvcGet, e.pvcCreate);
      if !pvcOk then Then(a, FailClosed())
      else
        var (b, svcOk) := Ensured(e.own, Service, e.svcGet, e.svcCreate);
        Then(a, Then(b, if svcOk then PodPass(e) else FailClosed()))
  }

  method Ensure(own: Uid, kind: Kind, get: Call, create: Call) returns (effects: seq<Effect>, ok: bool)
    ensures (effects, ok) == Ensured(own, kind, get, create)
  {
    effects := [];
    var got := Get(get);
    if got.Absent? {
      if CreateLands(create) {
        return [Created(kind)], true;
      }
      return [], false;
    }
    if got.GetFailed? {
      return [], false;
    }
    ok := OwnedBy(own, got.obj);
  }

  method EnsurePod(e: Env) returns (effects: seq<Effect>, step: PodStep)
    ensures (effects, step) == EnsuredPod(e)
  {
    var got := Get(e.podGet);
    if got.Absent? {
      if CreateLands(e.podCreate) {
        return [Created(Pod)], Proceed;
      }
      return [], Fail;
    }
    if got.GetFailed? || !OwnedBy(e.own, got.obj) {
      return [], Fail;
    }
    if got.obj.terminating {
      return [], Wait;
    }
    if got.obj.fingerprint != e.want {
      var deletion := Delete(e.podDelete, got.obj.uid);
      if deletion.Refused? {
        return [], Fail;
      }
      return if deletion.Deleted? then [DeletedPod(got.obj, deletion.obj)] else [], Wait;
    }
    return [], Proceed;
  }

  method DeletePod(e: Env) returns (effects: seq<Effect>, ok: bool)
    ensures (effects, ok) == Healed(e)
  {
    var got := Get(e.healGet);
    if got.Absent? {
      return [], true;
    }
    if got.GetFailed? || !OwnedBy(e.own, got.obj) {
      return [], false;
    }
    var deletion := Delete(e.healDelete, got.obj.uid);
    if deletion.Refused? {
      return [], false;
    }
    return if deletion.Deleted? then [DeletedPod(got.obj, deletion.obj)] else [], true;
  }

  method Reconcile(e: Env) returns (effects: seq<Effect>, next: Next)
    ensures Pass(effects, next) == Reconciled(e)
  {
    effects := [];
    if e.identity.IdentityMissing? {
      return [], Requeue;
    }
    if e.identity.LookupFails? {
      return [], Error;
    }
    var a, pvcOk := Ensure(e.own, PVC, e.pvcGet, e.pvcCreate);
    if !pvcOk {
      return a + [Status(Failed)], Ends;
    }
    var b, svcOk := Ensure(e.own, Service, e.svcGet, e.svcCreate);
    if !svcOk {
      return a + (b + [Status(Failed)]), Ends;
    }
    var c, step := EnsurePod(e);
    if step.Fail? {
      return a + (b + (c + [Status(Failed)])), Ends;
    }
    if step.Wait? {
      return a + (b + (c + [])), Requeue;
    }
    var phase := Observed(e);
    if phase.None? {
      return a + (b + (c + [])), Error;
    }
    if phase.value.Failed? {
      var healed, ok := DeletePod(e);
      return a + (b + (c + ([Status(Failed)] + healed))), if ok then Requeue else Error;
    }
    return a + (b + (c + [Status(phase.value)])), Periodic;
  }

  // ---- safety under interference ---------------------------------------------

  ghost predicate EachEffect(effects: seq<Effect>, p: Effect -> bool) {
    forall i :: 0 <= i < |effects| ==> p(effects[i])
  }

  function CallsOf(e: Env, kind: Kind): (Call, Call) {
    match kind
    case PVC => (e.pvcGet, e.pvcCreate)
    case Service => (e.svcGet, e.svcCreate)
    case Pod => (e.podGet, e.podCreate)
  }

  /** A delete hit the object that was vetted; a create followed NotFound and found the name free. */
  predicate Vetted(e: Env, x: Effect) {
    match x
    case DeletedPod(vetted, hit) => hit.uid == vetted.uid && OwnedBy(e.own, vetted)
    case Created(kind) => Get(CallsOf(e, kind).0).Absent? && CreateLands(CallsOf(e, kind).1)
    case Status(_) => true
  }

  lemma JoinVetted(e: Env, a: seq<Effect>, b: seq<Effect>)
    requires EachEffect(a, x => Vetted(e, x)) && EachEffect(b, x => Vetted(e, x))
    ensures EachEffect(a + b, x => Vetted(e, x))
  {
  }

  lemma PodPassVetted(e: Env)
    ensures EachEffect(PodPass(e).effects, x => Vetted(e, x))
  {
    var a := EnsuredPod(e).0;
    JoinVetted(e, a, ObserveAndHeal(e).effects);
    JoinVetted(e, a, FailClosed().effects);
  }

  /**
    Whatever replaces whatever between two calls: a pod delete that lands hits the
    very object that was vetted as owned, and a create follows NotFound.
  */
  lemma {:induction false} EffectsHitOnlyVettedObjects(e: Env)
    ensures EachEffect(Reconciled(e).effects, x => Vetted(e, x))
  {
    PodPassVetted(e);
    var b := Ensured(e.own, Service, e.svcGet, e.svcCreate).0;
    var rest := if Ensured(e.own, Service, e.svcGet, e.svcCreate).1 then PodPass(e) else FailClosed();
    JoinVetted(e, b, rest.effects);
  }

  predicate Foreign(own: Uid, c: Call) {
    Get(c).Found? && !OwnedBy(own, c.slot.value)
  }

  predicate Touches(x: Effect, kind: Kind) {
    (x.Created? && x.kind == kind) || (x.DeletedPod? && kind.Pod?)
  }

  /** A foreign object under a generated name is neither adopted nor deleted: the pass ends there, Failed. */
  lemma ForeignObjectsFailClosed(e: Env, kind: Kind)
    requires e.identity.IdentityReady? && Foreign(e.own, CallsOf(e, kind).0)
    ensures var p := Reconciled(e);
      && p.next.Ends? && p.effects != [] && p.effects[|p.effects| - 1] == Status(Failed)
      && forall i :: 0 <= i < |p.effects| ==> !Touches(p.effects[i], kind)
  {
  }

  /** Nothing is created or deleted before the user's identity exists. */
  lemma NoObjectBeforeTheIdentity(e: Env)
    requires !e.identity.IdentityReady?
    ensures Reconciled(e).effects == []
  {
  }

  // ---- what the heal deletes ---------------------------------------------------

  /** What is fixed for one object; readiness and termination are not. */
  predicate SameObject(a: Obj, b: Obj) {
    a.uid == b.uid && a.owner == b.owner && a.fingerprint == b.fingerprint
  }

  function PodCalls(e: Env): seq<Call> {
    [e.podGet, e.podCreate, e.podDelete, e.observe, e.healGet, e.healDelete]
  }

  /** UIDs are never reused: wherever the pass sees one, it is the same object. */
  ghost predicate OneObjectPerUid(e: Env) {
    forall c, d :: c in PodCalls(e) && d in PodCalls(e) && c.slot.Some? && d.slot.Some? && c.slot.value.uid == d.slot.value.uid ==>
      SameObject(c.slot.value, d.slot.value)
  }

  lemma HealAfterFailedStatus(e: Env, i: nat)
    requires var effects := Reconciled(e).effects;
      i + 1 < |effects| && effects[i] == Status(Failed) && effects[i + 1].DeletedPod?
    ensures Observed(e) == Some(Failed) && Healed(e).0 == [Reconciled(e).effects[i + 1]]
  {
    var p, q := Ensured(e.own, PVC, e.pvcGet, e.pvcCreate), Ensured(e.own, Service, e.svcGet, e.svcCreate);
    assert p.1 && q.1;
    assert Reconciled(e).effects == p.0 + (q.0 + PodPass(e).effects);
    var r := EnsuredPod(e);
    assert r.1.Proceed?;
    assert PodPass(e).effects == r.0 + ObserveAndHeal(e).effects;
    var n := |p.0| + |q.0| + |r.0|;
    assert i == n;
    assert ObserveAndHeal(e).effects[0] == Status(Failed);
    assert ObserveAndHeal(e).effects == [Status(Failed)] + Healed(e).0;
  }

  /**
    A pass that saw a failed pod and whose heal delete landed deleted that very pod
    exactly when the pod it re-read before the delete has the UID of the pod it saw
    failed: a comparison the heal does not make.
  */
  lemma HealHitsThePodSeenFailedIff(e: Env, i: nat)
    requires OneObjectPerUid(e)
    requires var effects := Reconciled(e).effects;
      i + 1 < |effects| && effects[i] == Status(Failed) && effects[i + 1].DeletedPod?
    ensures e.observe.slot.Some? && e.observe.slot.value.failed && !e.observe.slot.value.ready && e.healGet.slot.Some?
    ensures SameObject(Reconciled(e).effects[i + 1].hit, e.observe.slot.value) <==>
      e.healGet.slot.value.uid == e.observe.slot.value.uid
  {
    HealAfterFailedStatus(e, i);
    assert e.observe in PodCalls(e) && e.healGet in PodCalls(e) && e.healDelete in PodCalls(e);
  }

  /** A pod vetted as owned and in order, then `failed` observed under the name, then `next` in its place. */
  function Replacing(own: Uid, want: string, failed: Obj, next: Obj): Env {
    var owned := Call(Some(Obj(failed.uid + next.uid + 1, own, false, want, false, false)), false);
    var sick, well := Call(Some(failed), false), Call(Some(next), false);
    Env(own, want, IdentityReady, owned, owned, owned, owned, owned, owned, owned, sick, well, well)
  }

  /** For every failed pod and every owned replacement there is a pass that sees the one and deletes the other. */
  lemma HealDeletesAnyReplacement(own: Uid, want: string, failed: Obj, next: Obj)
    requires own != NO_UID && failed.failed && !failed.ready && OwnedBy(own, next) && next.uid != failed.uid
    ensures var e := Replacing(own, want, failed, next);
      && OneObjectPerUid(e) && e.observe.slot == Some(failed)
      && Reconciled(e) == Pass([Status(Failed), DeletedPod(next, next)], Requeue)
  {
    var e := Replacing(own, want, failed, next);
    assert EnsuredPod(e) == ([], Proceed) && Healed(e) == ([DeletedPod(next, next)], true);
    assert ObserveAndHeal(e) == Pass([Status(Failed)] + [DeletedPod(next, next)], Requeue);
    assert PodPass(e) == Then([], ObserveAndHeal(e));
    assert Reconciled(e) == Then([], Then([], PodPass(e)));
    assert [Status(Failed)] + [DeletedPod(next, next)] == [Status(Failed), DeletedPod(next, next)];
  }

  /** The heal re-vets ownership, not failure: a healthy replacement of the failed pod can be deleted. */
  lemma HealCanDeleteAHealthyReplacement()
    ensures exists e: Env, vetted: Obj ::
      && Reconciled(e).next.Requeue? && DeletedPod(vetted, vetted) in Reconciled(e).effects
      && vetted.ready && !vetted.failed && vetted.fingerprint == e.want
  {
    var failed, healthy := Obj(10, 1, false, "f", false, true), Obj(11, 1, false, "f", true, false);
    HealDeletesAnyReplacement(1, "f", failed, healthy);
    var e := Replacing(1, "f", failed, healthy);
    assert Reconciled(e).effects[1] == DeletedPod(healthy, healthy);
  }

  // ---- convergence without interference --------------------------------------

  /** What stands under the instance's three generated names. */
  datatype Slots = Slots(pvc: Option<Obj>, svc: Option<Obj>, pod: Option<Obj>)

  predicate Good(own: Uid, want: string, pod: Option<Obj>) {
    pod.Some? && OwnedBy(own, pod.value) && !pod.value.terminating && pod.value.fingerprint == want
    && (pod.value.ready || !pod.value.failed)
  }

  predicate NotForeign(own: Uid, slot: Option<Obj>) {
    slot.Some? ==> OwnedBy(own, slot.value)
  }

  predicate NoneForeign(own: Uid, s: Slots) {
    NotForeign(own, s.pvc) && NotForeign(own, s.svc) && NotForeign(own, s.pod)
  }

  /** All three objects in place and the pod as desired. */
  predicate Settled(own: Uid, want: string, s: Slots) {
    s.pvc.Some? && s.svc.Some? && Good(own, want, s.pod)
  }

  function Fresh(own: Uid, fingerprint: string, uid: Uid): Obj {
    Obj(uid, own, false, fingerprint, false, false)
  }

  /** Every call sees the slots as the pass itself leaves them. */
  function Quiet(own: Uid, want: string, s: Slots, uid: Uid): Env {
    var pvc, svc, now := Call(s.pvc, false), Call(s.svc, false), Call(s.pod, false);
    var later := Call(if s.pod.None? then Some(Fresh(own, want, uid)) else s.pod, false);
    Env(own, want, IdentityReady, pvc, pvc, svc, svc, now, now, now, later, later, later)
  }

  /** One effect on the slots: something created, or the deleted pod terminating. */
  function Left(own: Uid, want: string, uid: Uid, s: Slots, x: Effect): Slots {
    match x
    case Created(PVC) => s.(pvc := Some(Fresh(own, "", uid + 1)))
    case Created(Service) => s.(svc := Some(Fresh(own, "", uid + 2)))
    case Created(Pod) => s.(pod := Some(Fresh(own, want, uid)))
    case DeletedPod(_, hit) => s.(pod := Some(hit.(terminating := true)))
    case Status(_) => s
  }

  function Leaves(own: Uid, want: string, uid: Uid, s: Slots, effects: seq<Effect>): Slots
    decreases |effects|
  {
    if effects == [] then s else Leaves(own, want, uid, Left(own, want, uid, s, effects[0]), effects[1..])
  }

  /** One undisturbed round: the kubelet finishes a terminating pod, otherwise the controller reconciles. */
  function Round(own: Uid, want: string, uid: Uid, s: Slots): Slots {
    if s.pod.Some? && s.pod.value.terminating then s.(pod := None)
    else Leaves(own, want, uid, s, Reconciled(Quiet(own, want, s, uid)).effects)
  }

  function Distance(own: Uid, want: string, s: Slots): nat {
    if Good(own, want, s.pod) then (if Settled(own, want, s) then 0 else 1)
    else match s.pod
         case None => 1
         case Some(o) => if o.terminating then 2 else 3
  }

  /** Each round strictly decreases the distance to all three objects in place with the desired pod, which then stays. */
  lemma RoundsConverge(own: Uid, want: string, uid: Uid, s: Slots)
    requires own != NO_UID && NoneForeign(own, s)
    ensures var s' := Round(own, want, uid, s);
      && NoneForeign(own, s')
      && (if Settled(own, want, s) then s' == s else Distance(own, want, s') < Distance(own, want, s))
  {
    if s.pod.None? || !s.pod.value.terminating {
      QuietPass(own, want, uid, s);
    }
  }

  function Missing(slot: Option<Obj>, kind: Kind): seq<Effect> {
    if slot.None? then [Created(kind)] else []
  }

  /** What one undisturbed pass does to each kind of pod slot. */
  function QuietEffects(own: Uid, want: string, pod: Option<Obj>): seq<Effect> {
    if pod.None? then [Created(Pod), Status(Creating)]
    else if pod.value.fingerprint != want then [DeletedPod(pod.value, pod.value)]
    else if Good(own, want, pod) then [Status(if pod.value.ready then Ready else Creating)]
    else [Status(Failed), DeletedPod(pod.value, pod.value)]
  }

  function PodAfter(own: Uid, want: string, uid: Uid, pod: Option<Obj>): Option<Obj> {
    if pod.None? then Some(Fresh(own, want, uid)) else if Good(own, want, pod) then pod else Some(pod.value.(terminating := true))
  }

  lemma QuietPodPass(own: Uid, want: string, uid: Uid, s: Slots)
    requires own != NO_UID && NotForeign(own, s.pod) && (s.pod.Some? ==> !s.pod.value.terminating)
    ensures PodPass(Quiet(own, want, s, uid)).effects == QuietEffects(own, want, s.pod)
  {
  }

  lemma PassOfParts(own: Uid, want: string, uid: Uid, s: Slots)
    requires own != NO_UID && NotForeign(own, s.pvc) && NotForeign(own, s.svc)
    ensures var e := Quiet(own, want, s, uid);
      Reconciled(e).effects == Missing(s.pvc, PVC) + (Missing(s.svc, Service) + PodPass(e).effects)
  {
  }

  lemma LeavesMissing(own: Uid, want: string, uid: Uid, s: Slots, slot: Option<Obj>, kind: Kind, rest: seq<Effect>)
    ensures Leaves(own, want, uid, s, Missing(slot, kind) + rest) ==
      Leaves(own, want, uid, if slot.None? then Left(own, want, uid, s, Created(kind)) else s, rest)
  {
    if slot.None? {
      assert ([Created(kind)] + rest)[1..] == rest;
    } else {
      assert [] + rest == rest;
    }
  }

  lemma LeavesOne(own: Uid, want: string, uid: Uid, s: Slots, x: Effect)
    ensures Leaves(own, want, uid, s, [x]) == Left(own, want, uid, s, x)
  {
    assert [x][1..] == [];
  }

  lemma QuietLeaves(own: Uid, want: string, uid: Uid, s: Slots, pod: Option<Obj>)
    requires s.pod == pod && NotForeign(own, pod) && (pod.Some? ==> !pod.value.terminating)
    ensures Leaves(own, want, uid, s, QuietEffects(own, want, pod)) == s.(pod := PodAfter(own, want, uid, pod))
  {
    var effects := QuietEffects(own, want, pod);
    LeavesOne(own, want, uid, s, effects[0]);
    if |effects| == 2 {
      var s1 := Left(own, want, uid, s, effects[0]);
      LeavesOne(own, want, uid, s1, effects[1]);
      assert effects[1..] == [effects[1]];
    } else {
      assert effects == [effects[0]];
    }
  }

  /** What one undisturbed pass leaves. */
  lemma QuietPass(own: Uid, want: string, uid: Uid, s: Slots)
    requires own != NO_UID && NoneForeign(own, s) && (s.pod.Some? ==> !s.pod.value.terminating)
    ensures Leaves(own, want, uid, s, Reconciled(Quiet(own, want, s, uid)).effects) ==
      Slots(if s.pvc.None? then Some(Fresh(own, "", uid + 1)) else s.pvc,
            if s.svc.None? then Some(Fresh(own, "", uid + 2)) else s.svc,
            PodAfter(own, want, uid, s.pod))
  {
    PassOfParts(own, want, uid, s);
    QuietPodPass(own, want, uid, s);
    var tail := QuietEffects(own, want, s.pod);
    LeavesMissing(own, want, uid, s, s.pvc, PVC, Missing(s.svc, Service) + tail);
    var s1 := if s.pvc.None? then Left(own, want, uid, s, Created(PVC)) else s;
    LeavesMissing(own, want, uid, s1, s.svc, Service, tail);
    var s2 := if s.svc.None? then Left(own, want, uid, s1, Created(Service)) else s1;
    QuietLeaves(own, want, uid, s2, s.pod);
  }

  function Rounds(own: Uid, want: string, uid: Uid, s: Slots, n: nat): Slots
    decreases n
  {
    if n == 0 then s else Rounds(own, want, uid + 3, Round(own, want, uid, s), n - 1)
  }

  /** From any slots none of which is foreign, three undisturbed rounds end with everything in place. */
  lemma {:induction false} ThreeRoundsSuffice(own: Uid, want: string, uid: Uid, s: Slots, n: nat)
    requires own != NO_UID && NoneForeign(own, s) && n >= Distance(own, want, s)
    ensures Settled(own, want, Rounds(own, want, uid, s, n)) && Distance(own, want, s) <= 3
    decreases n
  {
    if n > 0 {
      RoundsConverge(own, want, uid, s);
      ThreeRoundsSuffice(own, want, uid + 3, Round(own, want, uid, s), n - 1);
    }
  }

  lemma ForeignPodPass(own: Uid, want: string, uid: Uid, s: Slots)
    requires !NotForeign(own, s.pod)
    ensures PodPass(Quiet(own, want, s, uid)).effects == [Status(Failed)]
  {
    assert [] + [Status(Failed)] == [Status(Failed)];
  }

  lemma ForeignRound(own: Uid, want: string, uid: Uid, s: Slots)
    requires own != NO_UID && NotForeign(own, s.pvc) && NotForeign(own, s.svc)
    requires !NotForeign(own, s.pod) && !s.pod.value.terminating
    ensures var s' := Round(own, want, uid, s); s'.pod == s.pod && NotForeign(own, s'.pvc) && NotForeign(own, s'.svc)
  {
    PassOfParts(own, want, uid, s);
    ForeignPodPass(own, want, uid, s);
    var tail := [Status(Failed)];
    assert tail[1..] == [];
    LeavesMissing(own, want, uid, s, s.pvc, PVC, Missing(s.svc, Service) + tail);
    var s1 := if s.pvc.None? then Left(own, want, uid, s, Created(PVC)) else s;
    LeavesMissing(own, want, uid, s1, s.svc, Service, tail);
  }

  /** No number of rounds replaces a foreign pod that is not itself on its way out. */
  lemma {:induction false} ForeignPodIsLeftAlone(own: Uid, want: string, uid: Uid, s: Slots, n: nat)
    requires own != NO_UID && NotForeign(own, s.pvc) && NotForeign(own, s.svc)
    requires !NotForeign(own, s.pod) && !s.pod.value.terminating
    ensures Rounds(own, want, uid, s, n).pod == s.pod
    decreases n
  {
    if n > 0 {
      ForeignRound(own, want, uid, s);
      ForeignPodIsLeftAlone(own, want, uid + 3, Round(own, want, uid, s), n - 1);
    }
  }
}

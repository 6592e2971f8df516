/**
  What one pass over an instance (InstanceObjects) creates, deletes and reports, and how it
  is scheduled again, read off what its calls found.
*/
module PassAnswers {
  import opened Common
  import opened InstanceObjects

  /** A PVC or Service in order: there and owned, or missing and created. */
  predicate InOrder(own: Uid, get: Call, create: Call) {
    !get.fault && if get.slot.Some? then own != 0 && get.slot.value.owner == own else !create.fault && create.slot.None?
  }

  predicate ReachesService(e: Env) {
    e.identity.IdentityReady? && InOrder(e.own, e.pvcGet, e.pvcCreate)
  }

  predicate ReachesPod(e: Env) {
    ReachesService(e) && InOrder(e.own, e.svcGet, e.svcCreate)
  }

  predicate PodThere(e: Env) {
    ReachesPod(e) && InOrder(e.own, e.podGet, e.podCreate) && e.podGet.slot.Some?
  }

  /** An owned pod that is not on its way out and no longer as desired. */
  predicate Drifted(e: Env) {
    PodThere(e) && !e.podGet.slot.value.terminating && e.podGet.slot.value.fingerprint != e.want
  }

  /** The delete under the pod's own UID: `hit` goes. */
  predicate Deletes(c: Call, vetted: Obj, hit: Obj) {
    !c.fault && c.slot == Some(hit) && hit.uid == vetted.uid
  }

  /** The delete neither lands nor finds the pod gone already. */
  predicate DeleteRefused(c: Call, vetted: Obj) {
    c.fault || (c.slot.Some? && c.slot.value.uid != vetted.uid)
  }

  /** The pass looks at the pod's state: it is as desired, or was just created. */
  predicate Observes(e: Env) {
    ReachesPod(e) && InOrder(e.own, e.podGet, e.podCreate)
    && (e.podGet.slot.Some? ==> !e.podGet.slot.value.terminating && e.podGet.slot.value.fingerprint == e.want)
  }

  function PhaseOf(slot: Option<Obj>): Phase {
    match slot
    case None => Creating
    case Some(o) => if o.ready then Ready else if o.failed then Failed else Creating
  }

  predicate SeesFailed(e: Env) {
    Observes(e) && !e.observe.fault && PhaseOf(e.observe.slot) == Failed
  }

  /** One of the three objects cannot be had. */
  predicate Stuck(e: Env) {
    e.identity.IdentityReady? &&
    (!ReachesPod(e) || !InOrder(e.own, e.podGet, e.podCreate) || (Drifted(e) && DeleteRefused(e.podDelete, e.podGet.slot.value)))
  }

  predicate HealRefused(e: Env) {
    e.healGet.fault || (e.healGet.slot.Some? &&
      (e.own == 0 || e.healGet.slot.value.owner != e.own || DeleteRefused(e.healDelete, e.healGet.slot.value)))
  }

  // ---- the parts of a pass -----------------------------------------------------

  predicate Missing(get: Call, create: Call) {
    !get.fault && get.slot.None? && !create.fault && create.slot.None?
  }

  lemma EnsuredSays(own: Uid, kind: Kind, get: Call, create: Call, x: Effect)
    ensures x in Ensured(own, kind, get, create).0 <==> x == Created(kind) && Missing(get, create)
    ensures Ensured(own, kind, get, create).1 <==> InOrder(own, get, create)
  {
  }

  /** The pod's own part: an owned pod that is neither on its way out nor as desired. */
  predicate PodDrifted(e: Env) {
    e.podGet.slot.Some? && InOrder(e.own, e.podGet, e.podCreate)
    && !e.podGet.slot.value.terminating && e.podGet.slot.value.fingerprint != e.want
  }

  predicate PodStuck(e: Env) {
    !InOrder(e.own, e.podGet, e.podCreate) || (PodDrifted(e) && DeleteRefused(e.podDelete, e.podGet.slot.value))
  }

  predicate PodKept(e: Env) {
    InOrder(e.own, e.podGet, e.podCreate)
    && (e.podGet.slot.Some? ==> !e.podGet.slot.value.terminating && e.podGet.slot.value.fingerprint == e.want)
  }

  lemma EnsuredPodSteps(e: Env)
    ensures EnsuredPod(e).1.Fail? <==> PodStuck(e)
    ensures EnsuredPod(e).1.Proceed? <==> PodKept(e)
  {
  }

  lemma EnsuredPodSays(e: Env, x: Effect)
    ensures x in EnsuredPod(e).0 <==> (x == Created(Pod) && Missing(e.podGet, e.podCreate)) || DriftDeletes(e, x)
  {
  }

  predicate DriftDeletes(e: Env, x: Effect) {
    PodDrifted(e) && x.DeletedPod? && e.podGet.slot == Some(x.vetted) && Deletes(e.podDelete, x.vetted, x.hit)
  }

  predicate HealDeletes(e: Env, x: Effect) {
    x.DeletedPod? && !e.healGet.fault && e.healGet.slot == Some(x.vetted) && e.own != 0 && x.vetted.owner == e.own
    && Deletes(e.healDelete, x.vetted, x.hit)
  }

  lemma HealedSays(e: Env, x: Effect)
    ensures x in Healed(e).0 <==> HealDeletes(e, x)
    ensures Healed(e).1 <==> !HealRefused(e)
  {
  }

  lemma ObserveSays(e: Env, x: Effect)
    ensures x in ObserveAndHeal(e).effects <==>
      !e.observe.fault && (x == Status(PhaseOf(e.observe.slot)) || (PhaseOf(e.observe.slot) == Failed && HealDeletes(e, x)))
  {
    HealedSays(e, x);
  }

  /** What the pod's part of a pass brings about. */
  predicate PodBrings(e: Env, x: Effect) {
    || (x == Created(Pod) && Missing(e.podGet, e.podCreate))
    || DriftDeletes(e, x)
    || (PodStuck(e) && x == Status(Failed))
    || (PodKept(e) && !e.observe.fault && x == Status(PhaseOf(e.observe.slot)))
    || (PodKept(e) && !e.observe.fault && PhaseOf(e.observe.slot) == Failed && HealDeletes(e, x))
  }

  lemma PodPassSays(e: Env, x: Effect)
    ensures x in PodPass(e).effects <==> PodBrings(e, x)
  {
    EnsuredPodSteps(e);
    EnsuredPodSays(e, x);
    ObserveSays(e, x);
    InParts(e, x);
  }

  lemma InParts(e: Env, x: Effect)
    ensures x in PodPass(e).effects <==>
      || x in EnsuredPod(e).0
      || (EnsuredPod(e).1.Fail? && x == Status(Failed))
      || (EnsuredPod(e).1.Proceed? && x in ObserveAndHeal(e).effects)
  {
  }

  /** What a whole pass brings about. */
  predicate Brings(e: Env, x: Effect) {
    && e.identity.IdentityReady?
    && (|| (x == Created(PVC) && Missing(e.pvcGet, e.pvcCreate))
        || (x == Created(Service) && ReachesService(e) && Missing(e.svcGet, e.svcCreate))
        || (!ReachesPod(e) && x == Status(Failed))
        || (ReachesPod(e) && PodBrings(e, x)))
  }

  lemma ReconciledSays(e: Env, x: Effect)
    ensures x in Reconciled(e).effects <==> Brings(e, x)
  {
    EnsuredSays(e.own, PVC, e.pvcGet, e.pvcCreate, x);
    EnsuredSays(e.own, Service, e.svcGet, e.svcCreate, x);
    PodPassSays(e, x);
  }

  // ---- what a pass does ----------------------------------------------------------

  /** Each kind is created exactly when the pass gets to it, finds nothing under its name, and the create lands. */
  lemma CreatesIff(e: Env)
    ensures Created(PVC) in Reconciled(e).effects <==>
      e.identity.IdentityReady? && !e.pvcGet.fault && e.pvcGet.slot.None? && !e.pvcCreate.fault && e.pvcCreate.slot.None?
    ensures Created(Service) in Reconciled(e).effects <==>
      ReachesService(e) && !e.svcGet.fault && e.svcGet.slot.None? && !e.svcCreate.fault && e.svcCreate.slot.None?
    ensures Created(Pod) in Reconciled(e).effects <==>
      ReachesPod(e) && !e.podGet.fault && e.podGet.slot.None? && !e.podCreate.fault && e.podCreate.slot.None?
  {
    ReconciledSays(e, Created(PVC));
    ReconciledSays(e, Created(Service));
    ReconciledSays(e, Created(Pod));
  }

  /** A pod is deleted exactly for drift, as vetted, or after it was seen failed, as vetted once more. */
  lemma DeletesIff(e: Env, vetted: Obj, hit: Obj)
    ensures DeletedPod(vetted, hit) in Reconciled(e).effects <==>
      || (Drifted(e) && e.podGet.slot == Some(vetted) && Deletes(e.podDelete, vetted, hit))
      || (SeesFailed(e) && !e.healGet.fault && e.healGet.slot == Some(vetted) && e.own != 0 && vetted.owner == e.own
          && Deletes(e.healDelete, vetted, hit))
  {
    ReconciledSays(e, DeletedPod(vetted, hit));
  }

  /** The status reported is the phase of the pod observed, or Failed when an object cannot be had; otherwise none is. */
  lemma ReportsIff(e: Env, phase: Phase)
    ensures Status(phase) in Reconciled(e).effects <==>
      (Observes(e) && !e.observe.fault && phase == PhaseOf(e.observe.slot)) || (Stuck(e) && phase == Failed)
  {
    ReconciledSays(e, Status(phase));
  }

  /** When the instance comes round again. */
  lemma ComesRound(e: Env)
    ensures Reconciled(e).next ==
      if e.identity.IdentityMissing? then Requeue
      else if e.identity.LookupFails? then Error
      else if Stuck(e) then Ends
      else if !Observes(e) then Requeue
      else if e.observe.fault then Error
      else if PhaseOf(e.observe.slot) == Failed then (if HealRefused(e) then Error else Requeue)
      else Periodic
  {
  }
}

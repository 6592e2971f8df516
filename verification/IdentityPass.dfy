/**
  What a bootstrap pass, a revocation and a second installation do to the identities
  (Identity) of a cluster.
*/
module IdentityPass {
  import opened Common
  import opened Text
  import opened Identity

  /** The cluster a pass leaves when its prune succeeds. */
  function PassOf(c: Cluster, e: Env, users: seq<string>): Cluster {
    var minted := MintedAll(c, e, users).0;
    minted - Stale(minted, e.ns, users)
  }

  ghost predicate NothingStale(c: Cluster, ns: string, users: seq<string>) {
    forall k :: k in c && Listed(ns, k, c[k]) ==> k in Wanted(ns, users)
  }

  /** Outside the wanted set nothing appears or changes, and what the prune does not list stays. */
  ghost predicate SparesTheRest(c: Cluster, d: Cluster, ns: string, users: seq<string>) {
    forall k :: k !in Wanted(ns, users) ==>
      (k in d ==> k in c && d[k] == c[k]) && (k in c && !Listed(ns, k, c[k]) ==> k in d)
  }

  /** The mints of all users together touch only what is wanted. */
  lemma {:induction false} MintAllTouches(c: Cluster, e: Env, users: seq<string>)
    ensures var d := MintedAll(c, e, users).0;
      forall k :: k !in Wanted(e.ns, users) ==> (k in c <==> k in d) && (k in c ==> c[k] == d[k])
  {
    if users != [] {
      var n := |users| - 1;
      var before, last := MintedAll(c, e, users[..n]).0, users[n];
      MintAllTouches(c, e, users[..n]);
      MintTouchesOnlyTheUsersIdentity(before, e, last);
      WantedSnoc(e.ns, users[..n], last);
      assert users == users[..n] + [last];
    }
  }

  lemma WantedSnoc(ns: string, users: seq<string>, last: string)
    ensures Wanted(ns, users + [last]) == Wanted(ns, users) + KeySet(IdentityKeys(ns, last))
  {
    forall k ensures k in Wanted(ns, users + [last]) <==> k in Wanted(ns, users) || k in IdentityKeys(ns, last) {
      assert last in users + [last];
      if k in Wanted(ns, users) {
        var u :| u in users && k in IdentityKeys(ns, u);
        assert u in users + [last];
      }
    }
  }

  /**
    Against the cluster the pass began with, and whatever the mints did: an unwanted
    object survives exactly when it is one the prune does not list, and then as it was.
  */
  lemma PruneTakesExactlyTheStale(c: Cluster, e: Env, users: seq<string>, k: Key)
    requires k !in Wanted(e.ns, users)
    ensures k in PassOf(c, e, users) <==> k in c && !Listed(e.ns, k, c[k])
    ensures k in PassOf(c, e, users) ==> PassOf(c, e, users)[k] == c[k]
  {
    MintAllTouches(c, e, users);
  }

  lemma WantedNamesItsUser(ns: string, users: seq<string>, k: Key)
    requires k in Wanted(ns, users)
    ensures k.ns == ns && exists u :: u in users && k.name == For(u)
  {
    var u :| u in users && k in IdentityKeys(ns, u);
    KeysNameTheirUser(ns, u, k);
  }

  /** A user no live instance speaks for keeps, of an identity, exactly what never was labelled. */
  lemma PruneLeavesNothingStale(c: Cluster, e: Env, users: seq<string>, user: string, k: Key)
    requires user !in users && k in IdentityKeys(e.ns, user)
    ensures k in PassOf(c, e, users) <==> k in c && !c[k].labelled
  {
    KeysNameTheirUser(e.ns, user, k);
    if k in Wanted(e.ns, users) {
      WantedNamesItsUser(e.ns, users, k);
    } else {
      PruneTakesExactlyTheStale(c, e, users, k);
    }
  }

  /** An undisturbed pass whose mints succeeded: every owner identified, nothing stale left. */
  lemma PassConverges(c: Cluster, e: Env, users: seq<string>)
    requires MintedAll(c, e, users).1
    ensures var c' := PassOf(c, e, users);
      NothingStale(c', e.ns, users) && forall u :: u in users ==> Identified(c', e, u)
  {
    var minted := MintedAll(c, e, users).0;
    MintAllIdentifies(c, e, users);
    forall u | u in users ensures Identified(PassOf(c, e, users), e, u) {
      assert Identified(minted, e, u);
      var keys := IdentityKeys(e.ns, u);
      assert keys[0] == Account(e, u) && keys[1] == TokenSecret(e.ns, For(u)) && keys[2] == KubeconfigSecret(e.ns, For(u));
      assert forall k :: k in keys ==> k in Wanted(e.ns, users);
      forall i | 0 <= i < |ROLES| ensures Binding(e.ns, ROLES[i], For(u)) in keys {
        assert keys[3 + i] == Binding(e.ns, ROLES[i], For(u));
      }
    }
  }

  /**
    One bootstrap pass: mint every owner, then prune whatever the mints did. When the
    prune succeeds nothing unwanted that the platform labelled remains, failed mints
    or not; when the mints succeed too, every owner is identified. Nothing else of the
    cluster is touched.
  */
  method EnsureBuiltin(c0: Cluster, insts: seq<Instance>, e: Env) returns (users: seq<string>, c: Cluster, mintOk: bool, pruneOk: bool)
    ensures StrictlySorted(users) && forall u :: u in users <==> u in Owners(insts)
    ensures mintOk == MintedAll(c0, e, users).1
    ensures e.faults !! Stale(MintedAll(c0, e, users).0, e.ns, users) ==> pruneOk
    ensures pruneOk ==> c == PassOf(c0, e, users) && NothingStale(c, e.ns, users)
    ensures mintOk && pruneOk ==> forall u :: u in Owners(insts) ==> Identified(c, e, u)
    ensures SparesTheRest(c0, c, e.ns, users)
  {
    users := UsersWithInstances(insts);
    c, mintOk := c0, true;
    for i := 0 to |users|
      invariant (c, mintOk) == MintedAll(c0, e, users[..i])
    {
      assert users[..i + 1][..i] == users[..i];
      var ok;
      c, ok := MintUser(c, e, users[i]);
      mintOk := mintOk && ok;
    }
    assert users[..|users|] == users;
    MintAllTouches(c0, e, users);
    c, pruneOk := Prune(c, e, users);
    if mintOk && pruneOk {
      PassConverges(c0, e, users);
    }
  }

  // ---- revocation --------------------------------------------------------------------

  predicate AnotherSpeaks(insts: seq<Instance>, inst: Instance) {
    exists i :: 0 <= i < |insts| && insts[i].uid != inst.uid && insts[i].owner == inst.owner && !insts[i].terminating
  }

  function KeySet(keys: seq<Key>): set<Key> {
    set k | k in keys
  }

  /** revokeLastIdentity: every object of the list, unless another live instance shares the owner. */
  method RevokeLastIdentity(c0: Cluster, insts: seq<Instance>, inst: Instance, e: Env) returns (c: Cluster, ok: bool)
    ensures AnotherSpeaks(insts, inst) ==> ok && c == c0
    ensures !AnotherSpeaks(insts, inst) && ok ==> c == c0 - KeySet(IdentityKeys(e.ns, inst.owner))
    ensures SameBut(c0, c, IdentityKeys(e.ns, inst.owner))
  {
    c := c0;
    for i := 0 to |insts|
      invariant forall j :: 0 <= j < i ==> !(insts[j].uid != inst.uid && insts[j].owner == inst.owner && !insts[j].terminating)
    {
      if insts[i].uid != inst.uid && insts[i].owner == inst.owner && !insts[i].terminating {
        return c, true;
      }
    }
    var keys := IdentityKeys(e.ns, inst.owner);
    for i := 0 to |keys|
      invariant c == c0 - KeySet(keys[..i])
    {
      if keys[i] in e.faults {
        return c, false;
      }
      c := c - {keys[i]};
      assert keys[..i + 1] == keys[..i] + [keys[i]];
    }
    assert keys[..|keys|] == keys;
    ok := true;
  }

  /** What a mint touches is what a revocation deletes, and revoking one user leaves every other identified. */
  lemma RevocationTakesExactlyOneUser(c: Cluster, e: Env, user: string, other: string)
    requires Identified(c, e, other) && other != user
    ensures var c' := c - KeySet(IdentityKeys(e.ns, user));
      Identified(c', e, other) && forall k :: k in IdentityKeys(e.ns, user) ==> k !in c'
  {
    forall k | k in IdentityKeys(e.ns, user) ensures k.name != For(other) {
      KeysNameTheirUser(e.ns, user, k);
    }
    IdentifiedFrame(c, c - KeySet(IdentityKeys(e.ns, user)), e, other, IdentityKeys(e.ns, user));
  }

  /** A pass mints a terminating instance's owner exactly when its own revocation would have been skipped. */
  lemma MintAndRevocationAgree(insts: seq<Instance>, inst: Instance)
    requires inst.terminating && inst.owner != ""
    requires forall i :: 0 <= i < |insts| && insts[i].uid == inst.uid ==> insts[i] == inst
    ensures inst.owner in Owners(insts) <==> AnotherSpeaks(insts, inst)
  {
    if AnotherSpeaks(insts, inst) {
      var i :| 0 <= i < |insts| && insts[i].uid != inst.uid && insts[i].owner == inst.owner && !insts[i].terminating;
      assert insts[i].owner in Owners(insts);
    }
  }

  // ---- two installations ---------------------------------------------------------------

  lemma ForeignKeysAreNotWanted(ns: string, users: seq<string>, k: Key)
    requires k.ns != ns
    ensures k !in Wanted(ns, users)
  {
    if k in Wanted(ns, users) {
      WantedNamesItsUser(ns, users, k);
    }
  }

  /**
    Bindings are cluster-scoped and told apart by the label alone: of another
    namespace's objects a pass takes exactly the labelled bindings.
  */
  lemma PassTakesOtherInstallationsBindings(c: Cluster, e: Env, users: seq<string>, k: Key)
    requires k.ns != e.ns && k in c
    ensures k in PassOf(c, e, users) <==> !(k.Binding? && c[k].labelled)
    ensures k in PassOf(c, e, users) ==> PassOf(c, e, users)[k] == c[k]
  {
    ForeignKeysAreNotWanted(e.ns, users, k);
    PruneTakesExactlyTheStale(c, e, users, k);
  }

  /** No binding of the user carries the platform's label. */
  ghost predicate BindingsUnlabelled(c: Cluster, ns: string, user: string)
    requires forall i :: 0 <= i < |ROLES| ==> Binding(ns, ROLES[i], For(user)) in c
  {
    forall i :: 0 <= i < |ROLES| ==> !c[Binding(ns, ROLES[i], For(user))].labelled
  }

  /**
    So a second installation's pass leaves a user of the first identified exactly when
    none of the bindings carries the label, and minting labels every binding it makes.
  */
  lemma SecondInstallationRevokesTheFirst(c: Cluster, e1: Env, e2: Env, users2: seq<string>, user: string)
    requires e1.ns != e2.ns && Identified(c, e1, user)
    ensures Identified(PassOf(c, e2, users2), e1, user) <==> BindingsUnlabelled(c, e1.ns, user)
  {
    var c' := PassOf(c, e2, users2);
    forall k: Key | k.ns == e1.ns && k in c
      ensures (k in c' <==> !(k.Binding? && c[k].labelled)) && (k in c' ==> c'[k] == c[k])
    {
      PassTakesOtherInstallationsBindings(c, e2, users2, k);
    }
    assert Identified(c', e1, user) ==> BindingsRight(c', e1, user, ROLES);
  }

  /** A binding the mint creates carries the label, so a freshly minted user is always revoked by the other pass. */
  lemma FreshlyMintedUserIsRevoked(c: Cluster, e1: Env, e2: Env, users2: seq<string>, user: string)
    requires e1.ns != e2.ns && Minted(c, e1, user).1
    requires Binding(e1.ns, ROLES[0], For(user)) !in c
    ensures !Identified(PassOf(Minted(c, e1, user).0, e2, users2), e1, user)
  {
    var minted := Minted(c, e1, user).0;
    MintIdentifies(c, e1, user);
    FirstBindingIsLabelled(c, e1, user);
    SecondInstallationRevokesTheFirst(minted, e1, e2, users2, user);
    assert Binding(e1.ns, ROLES[0], For(user)) in minted;
  }

  lemma {:induction false} NewBindingIsLabelled(c: Cluster, e: Env, user: string, roles: seq<string>, k: Key)
    requires roles != [] && k == Binding(e.ns, roles[0], For(user)) && k !in c && Bound(c, e, user, roles).1
    ensures k in Bound(c, e, user, roles).0 && Bound(c, e, user, roles).0[k].labelled
  {
    if |roles| == 1 {
      assert roles[..0] == [];
    } else {
      NewBindingIsLabelled(c, e, user, roles[..|roles| - 1], k);
    }
  }

  lemma FirstBindingIsLabelled(c: Cluster, e: Env, user: string)
    requires Minted(c, e, user).1 && Binding(e.ns, ROLES[0], For(user)) !in c
    ensures var k := Binding(e.ns, ROLES[0], For(user)); k in Minted(c, e, user).0 && Minted(c, e, user).0[k].labelled
  {
    var k := Binding(e.ns, ROLES[0], For(user));
    var c1 := CreatedIfMissing(c, e, Account(e, user), Plain(e, user, "")).0;
    assert k !in c1;
    NewBindingIsLabelled(c1, e, user, ROLES, k);
  }
}

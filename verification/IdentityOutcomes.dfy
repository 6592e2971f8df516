/**
  When a mint (Identity) succeeds, what it leaves of a user, and that a user minted and
  then dropped leaves nothing behind (IdentityPass).
*/
module IdentityOutcomes {
  import opened Common
  import opened Identity
  import opened IdentityPass

  // ---- when a mint succeeds ----------------------------------------------------------

  /** A binding call goes through: it does not fail, and if the role must be replaced the create after the delete does not either. */
  predicate BindingGoes(c: Cluster, e: Env, k: Key, role: string) {
    k !in e.faults && (k in c && c[k].role != role ==> k !in e.stuck)
  }

  lemma {:induction false} BoundIffEachGoes(c: Cluster, e: Env, user: string, roles: seq<string>)
    requires Distinct(roles)
    ensures Bound(c, e, user, roles).1 <==>
      forall i :: 0 <= i < |roles| ==> BindingGoes(c, e, Binding(e.ns, roles[i], For(user)), roles[i])
  {
    if roles != [] {
      var n := |roles| - 1;
      var before, k := roles[..n], Binding(e.ns, roles[n], For(user));
      BoundIffEachGoes(c, e, user, before);
      BoundTouches(c, e, user, before);
      assert k !in BindingKeys(e.ns, user, before);
      assert forall i :: 0 <= i < n ==> before[i] == roles[i];
    }
  }

  lemma RolesAreDistinct()
    ensures Distinct(ROLES)
  {
    assert |ROLES[0]| == 4 && |ROLES[1]| == 22 && |ROLES[2]| == 19;
  }

  /** None of the user's own calls fails, and the token has been filled in. */
  ghost predicate Unhindered(c: Cluster, e: Env, user: string) {
    && Account(e, user) !in e.faults && TokenSecret(e.ns, For(user)) !in e.faults && KubeconfigSecret(e.ns, For(user)) !in e.faults
    && (forall i :: 0 <= i < |ROLES| ==> BindingGoes(c, e, Binding(e.ns, ROLES[i], For(user)), ROLES[i]))
    && user in e.tokens && e.tokens[user] != ""
  }

  lemma MintSucceedsIff(c: Cluster, e: Env, user: string)
    ensures Minted(c, e, user).1 <==> Unhindered(c, e, user)
  {
    RolesAreDistinct();
    var (c1, ok1) := CreatedIfMissing(c, e, Account(e, user), Plain(e, user, ""));
    BoundIffEachGoes(c1, e, user, ROLES);
    assert forall i :: 0 <= i < |ROLES| ==>
      BindingGoes(c1, e, Binding(e.ns, ROLES[i], For(user)), ROLES[i]) == BindingGoes(c, e, Binding(e.ns, ROLES[i], For(user)), ROLES[i]);
  }

  lemma UnhinderedFrame(c: Cluster, d: Cluster, e: Env, user: string, keys: seq<Key>)
    requires SameBut(c, d, keys) && forall k :: k in keys ==> k.name != For(user)
    ensures Unhindered(c, e, user) <==> Unhindered(d, e, user)
  {
    assert forall i :: 0 <= i < |ROLES| ==>
      BindingGoes(c, e, Binding(e.ns, ROLES[i], For(user)), ROLES[i]) == BindingGoes(d, e, Binding(e.ns, ROLES[i], For(user)), ROLES[i]);
  }

  lemma MintLeavesOthersUnhindered(c: Cluster, e: Env, user: string, other: string)
    requires user != other
    ensures Unhindered(Minted(c, e, user).0, e, other) <==> Unhindered(c, e, other)
  {
    MintTouchesOnlyTheUsersIdentity(c, e, user);
    forall k | k in IdentityKeys(e.ns, user) ensures k.name != For(other) {
      KeysNameTheirUser(e.ns, user, k);
    }
    UnhinderedFrame(c, Minted(c, e, user).0, e, other, IdentityKeys(e.ns, user));
  }

  /**
    The mints of a pass fail together exactly when one of them does, and one user's
    failure costs no other user: whoever is unhindered ends identified.
  */
  lemma {:induction false} OneFailureCostsNobodyElse(c: Cluster, e: Env, users: seq<string>)
    requires Distinct(users)
    ensures MintedAll(c, e, users).1 <==> forall u :: u in users ==> Unhindered(c, e, u)
    ensures forall u :: u in users && Unhindered(c, e, u) ==> Identified(MintedAll(c, e, users).0, e, u)
    ensures forall u :: u !in users ==> (Unhindered(MintedAll(c, e, users).0, e, u) <==> Unhindered(c, e, u))
  {
    if users != [] {
      var n := |users| - 1;
      var before, last := users[..n], users[n];
      var c' := MintedAll(c, e, before).0;
      OneFailureCostsNobodyElse(c, e, before);
      assert users == before + [last] && last !in before;
      MintSucceedsIff(c', e, last);
      if Unhindered(c, e, last) {
        MintIdentifies(c', e, last);
      }
      forall u | u != last ensures Unhindered(Minted(c', e, last).0, e, u) <==> Unhindered(c', e, u) {
        MintLeavesOthersUnhindered(c', e, last, u);
      }
      forall u | u in before && Unhindered(c, e, u) ensures Identified(Minted(c', e, last).0, e, u) {
        MintSparesOthers(c', e, last, u);
      }
    }
  }

  // ---- what an identity is -------------------------------------------------------------

  /** The three cluster roles by name, each bound to the user's own account, and a kubeconfig that tells its current token. */
  lemma IdentifiedUsersHoldTheirRoles(c: Cluster, e: Env, user: string)
    requires Minted(c, e, user).1
    ensures var c' := Minted(c, e, user).0;
      forall role :: role in ["view", "cubepilot-cluster-read", "cubepilot-user-crds"] ==>
        var k := Binding(e.ns, role, For(user));
        k in c' && c'[k].role == role && c'[k].subject == ServiceAccount(e.ns, For(user))
    ensures var k := KubeconfigSecret(e.ns, For(user));
      k in Minted(c, e, user).0 && forall t :: Minted(c, e, user).0[k].data == Yaml(t) ==> user in e.tokens && t == e.tokens[user]
  {
    forall s, t | Yaml(s) == Yaml(t) ensures s == t {
      assert Yaml(s)[11..] == s && Yaml(t)[11..] == t;
    }
    MintIdentifies(c, e, user);
    assert ROLES[0] == "view" && ROLES[1] == "cubepilot-cluster-read" && ROLES[2] == "cubepilot-user-crds";
  }

  // ---- minted, then dropped --------------------------------------------------------------

  /** Of these keys nothing stands without the platform's label. */
  predicate AllLabelled(c: Cluster, keys: seq<Key>) {
    forall k :: k in keys && k in c ==> c[k].labelled
  }

  lemma {:induction false} BoundStaysLabelled(c: Cluster, e: Env, user: string, roles: seq<string>, keys: seq<Key>)
    requires AllLabelled(c, keys)
    ensures AllLabelled(Bound(c, e, user, roles).0, keys)
  {
    if roles != [] {
      BoundStaysLabelled(c, e, user, roles[..|roles| - 1], keys);
    }
  }

  lemma MintStaysLabelled(c: Cluster, e: Env, user: string)
    requires AllLabelled(c, IdentityKeys(e.ns, user))
    ensures AllLabelled(Minted(c, e, user).0, IdentityKeys(e.ns, user))
  {
    BoundStaysLabelled(CreatedIfMissing(c, e, Account(e, user), Plain(e, user, "")).0, e, user, ROLES, IdentityKeys(e.ns, user));
  }

  /**
    Minted into a cluster that held nothing foreign under its names, then without an
    instance when a pass prunes: no object of the identity is left, whether or not the
    mint got through.
  */
  lemma DroppedUserLeavesNothing(c: Cluster, e: Env, user: string, e': Env, users: seq<string>, k: Key)
    requires AllLabelled(c, IdentityKeys(e.ns, user)) && e'.ns == e.ns && user !in users && k in IdentityKeys(e.ns, user)
    ensures k !in PassOf(Minted(c, e, user).0, e', users)
  {
    MintStaysLabelled(c, e, user);
    PruneLeavesNothingStale(Minted(c, e, user).0, e', users, user, k);
  }
}

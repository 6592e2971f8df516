/**
  Per-user identity (internal/controller/builtin.go, revocation in
  agentinstance_controller.go): minted for the owners of live instances, pruned for
  everyone else. Generated names carry an injective hash of the user, so an object
  is identified here by what its name was computed from.
*/
module Identity {
  import opened Common
  import opened Text

  datatype Name = For(user: string) | Other(text: string)

  datatype Key =
    | ServiceAccount(ns: string, name: Name)
    | TokenSecret(ns: string, name: Name)
    | KubeconfigSecret(ns: string, name: Name)
    | Binding(ns: string, role: string, name: Name)      // cluster-scoped; its name carries the namespace

  /** `role`, `subject` are a binding's; `data` a kubeconfig's. */
  datatype Obj = Obj(labelled: bool, role: string, subject: Key, data: string)

  type Cluster = map<Key, Obj>

  const ROLES := ["view", "cubepilot-cluster-read", "cubepilot-user-crds"]

  datatype Instance = Instance(uid: nat, owner: string, terminating: bool)

  /** Which keys' calls fail, whose replacement create fails after its delete, and the tokens filled in so far. */
  datatype Env = Env(ns: string, faults: set<Key>, stuck: set<Key>, tokens: map<string, string>)

  function Yaml(token: string): string {
    "kubeconfig:" + token
  }

  // ---- what belongs to a user --------------------------------------------------

  function BindingKeys(ns: string, user: string, roles: seq<string>): seq<Key> {
    seq(|roles|, i requires 0 <= i < |roles| => Binding(ns, roles[i], For(user)))
  }

  /** userIdentityObjects: the one list both minting and revoking go by. */
  function IdentityKeys(ns: string, user: string): seq<Key> {
    [ServiceAccount(ns, For(user)), TokenSecret(ns, For(user)), KubeconfigSecret(ns, For(user))] + BindingKeys(ns, user, ROLES)
  }

  function Account(e: Env, user: string): Key {
    ServiceAccount(e.ns, For(user))
  }

  function WantBinding(e: Env, user: string, role: string): Obj {
    Obj(true, role, Account(e, user), "")
  }

  function Plain(e: Env, user: string, data: string): Obj {
    Obj(true, "", Account(e, user), data)
  }

  // ---- minting -----------------------------------------------------------------

  function CreatedIfMissing(c: Cluster, e: Env, k: Key, o: Obj): (Cluster, bool) {
    if k in e.faults then (c, false) else (if k in c then c else c[k := o], true)
  }

  /** reconcilePerUserCRB: create, replace on a wrong role, repair the subject, or leave. */
  function BoundTo(c: Cluster, e: Env, k: Key, want: Obj): (Cluster, bool) {
    if k in e.faults then (c, false)
    else if k !in c then (c[k := want], true)
    else if c[k].role != want.role then (if k in e.stuck then (c - {k}, false) else (c[k := want], true))
    else (c[k := c[k].(subject := want.subject)], true)
  }

  function Bound(c: Cluster, e: Env, user: string, roles: seq<string>): (Cluster, bool) {
    if roles == [] then (c, true)
    else
      var (before, ok) := Bound(c, e, user, roles[..|roles| - 1]);
      var role := roles[|roles| - 1];
      if ok then BoundTo(before, e, Binding(e.ns, role, For(user)), WantBinding(e, user, role)) else (before, false)
  }

  function Kubeconfig(c: Cluster, e: Env, user: string): (Cluster, bool) {
    var k, data := KubeconfigSecret(e.ns, For(user)), Yaml(if user in e.tokens then e.tokens[user] else "");
    if k in e.faults then (c, false)
    else if k !in c then (c[k := Plain(e, user, data)], true)
    else (c[k := c[k].(data := data)], true)
  }

  function Minted(c: Cluster, e: Env, user: string): (Cluster, bool) {
    var (c1, ok1) := CreatedIfMissing(c, e, Account(e, user), Plain(e, user, ""));
    if !ok1 then (c1, false)
    else
      var (c2, ok2) := Bound(c1, e, user, ROLES);
      if !ok2 then (c2, false)
      else
        var (c3, ok3) := CreatedIfMissing(c2, e, TokenSecret(e.ns, For(user)), Plain(e, user, ""));
        if !ok3 || user !in e.tokens || e.tokens[user] == "" then (c3, false) else Kubeconfig(c3, e, user)
  }

  /** One user after the other; a failure is remembered and the next user still minted. */
  function MintedAll(c: Cluster, e: Env, users: seq<string>): (Cluster, bool) {
    if users == [] then (c, true)
    else
      var (before, ok) := MintedAll(c, e, users[..|users| - 1]);
      var (after, ok') := Minted(before, e, users[|users| - 1]);
      (after, ok && ok')
  }

  function Wanted(ns: string, users: seq<string>): set<Key> {
    set u, k | u in users && k in IdentityKeys(ns, u) :: k
  }

  /** What the prune lists: labelled accounts and secrets of the namespace, labelled bindings of the cluster. */
  predicate Listed(ns: string, k: Key, o: Obj) {
    o.labelled && (k.Binding? || k.ns == ns)
  }

  function Stale(c: Cluster, ns: string, users: seq<string>): set<Key> {
    set k | k in c && Listed(ns, k, c[k]) && k !in Wanted(ns, users)
  }

  // ---- the methods -------------------------------------------------------------

  method MintUser(c0: Cluster, e: Env, user: string) returns (c: Cluster, ok: bool)
    ensures (c, ok) == Minted(c0, e, user)
  {
    c, ok := CreateIfMissing(c0, e, Account(e, user), Plain(e, user, ""));
    if !ok {
      return;
    }
    c, ok := BindRoles(c, e, user);
    if !ok {
      return;
    }
    c, ok := CreateIfMissing(c, e, TokenSecret(e.ns, For(user)), Plain(e, user, ""));
    if !ok {
      return;
    }
    if user !in e.tokens || e.tokens[user] == "" {
      return c, false;
    }
    var pair := Kubeconfig(c, e, user);
    c, ok := pair.0, pair.1;
  }

  method CreateIfMissing(c0: Cluster, e: Env, k: Key, o: Obj) returns (c: Cluster, ok: bool)
    ensures (c, ok) == CreatedIfMissing(c0, e, k, o)
  {
    c := c0;
    if k in e.faults {
      return c, false;
    }
    if k !in c {
      c := c[k := o];
    }
    ok := true;
  }

  method ReconcileBinding(c0: Cluster, e: Env, k: Key, want: Obj) returns (c: Cluster, ok: bool)
    ensures (c, ok) == BoundTo(c0, e, k, want)
  {
    c := c0;
    if k in e.faults {
      return c, false;
    }
    if k !in c {
      return c[k := want], true;
    }
    var have := c[k];
    if have.role != want.role {
      c := c - {k};
      if k in e.stuck {
        return c, false;
      }
      c := c[k := want];
      assert c == c0[k := want];
      return c, true;
    }
    if have.subject != want.subject {
      c := c[k := have.(subject := want.subject)];
    } else {
      assert c0[k := c0[k].(subject := want.subject)] == c0;
    }
    ok := true;
  }

  method BindRoles(c0: Cluster, e: Env, user: string) returns (c: Cluster, ok: bool)
    ensures (c, ok) == Bound(c0, e, user, ROLES)
  {
    c, ok := c0, true;
    var i := 0;
    while i < |ROLES| && ok
      invariant 0 <= i <= |ROLES| && (c, ok) == Bound(c0, e, user, ROLES[..i])
    {
      assert ROLES[..i + 1][..i] == ROLES[..i];
      c, ok := ReconcileBinding(c, e, Binding(e.ns, ROLES[i], For(user)), WantBinding(e, user, ROLES[i]));
      i := i + 1;
    }
    FailureSticks(c0, e, user, ROLES, i);
    assert ROLES[..|ROLES|] == ROLES;
  }

  /** Once one binding fails, the rest of the roles are not tried. */
  lemma {:induction false} FailureSticks(c: Cluster, e: Env, user: string, roles: seq<string>, i: nat)
    requires i <= |roles|
    ensures !Bound(c, e, user, roles[..i]).1 ==> Bound(c, e, user, roles) == Bound(c, e, user, roles[..i])
    decreases |roles| - i
  {
    if i == |roles| {
      assert roles[..i] == roles;
    } else {
      FailureSticks(c, e, user, roles, i + 1);
      assert roles[..i + 1][..i] == roles[..i];
    }
  }

  function Owners(insts: seq<Instance>): set<string> {
    set i | 0 <= i < |insts| && !insts[i].terminating && insts[i].owner != "" :: insts[i].owner
  }

  /** The owners of non-terminating instances, sorted. */
  method UsersWithInstances(insts: seq<Instance>) returns (users: seq<string>)
    ensures StrictlySorted(users) && forall u :: u in users <==> u in Owners(insts)
    ensures forall u :: u in users <==>
      u != "" && exists i :: 0 <= i < |insts| && insts[i].owner == u && !insts[i].terminating
  {
    users := [];
    for i := 0 to |insts|
      invariant Distinct(users) && forall u :: u in users <==> u in Owners(insts[..i])
    {
      var inst := insts[i];
      OwnersSnoc(insts, i);
      if !inst.terminating && inst.owner != "" && inst.owner !in users {
        DistinctSnoc(users, inst.owner);
        users := users + [inst.owner];
      }
    }
    assert insts[..|insts|] == insts;
    users := Sorted(users);
  }

  lemma OwnersSnoc(insts: seq<Instance>, i: nat)
    requires i < |insts|
    ensures Owners(insts[..i + 1]) == Owners(insts[..i]) +
      if !insts[i].terminating && insts[i].owner != "" then {insts[i].owner} else {}
  {
    var a, b := insts[..i + 1], insts[..i];
    assert a == b + [insts[i]];
    forall u ensures u in Owners(a) <==> u in Owners(b) || (!insts[i].terminating && insts[i].owner != "" && u == insts[i].owner) {
      if u in Owners(b) {
        var j :| 0 <= j < |b| && !b[j].terminating && b[j].owner != "" && b[j].owner == u;
        assert a[j] == b[j];
      }
      assert a[i] == insts[i];
    }
  }

  /** Deletes stop at the first that fails; otherwise every stale object goes. */
  method Prune(c0: Cluster, e: Env, users: seq<string>) returns (c: Cluster, ok: bool)
    ensures ok ==> c == c0 - Stale(c0, e.ns, users)
    ensures e.faults !! Stale(c0, e.ns, users) ==> ok
    ensures exists gone :: gone <= Stale(c0, e.ns, users) && c == c0 - gone
  {
    var stale := Stale(c0, e.ns, users);
    var left := stale;
    c := c0;
    while left != {}
      invariant left <= stale && c == c0 - (stale - left)
      decreases left
    {
      var k :| k in left;
      if k in e.faults {
        assert stale - left <= stale;
        return c, false;
      }
      c := c - {k};
      left := left - {k};
    }
    assert stale - left == stale;
    ok := true;
  }

  // ---- what minting touches ------------------------------------------------------

  /** Two clusters differ at most on the listed keys. */
  ghost predicate SameBut(c: Cluster, d: Cluster, keys: seq<Key>) {
    forall k :: k !in keys ==> (k in c <==> k in d) && (k in c ==> c[k] == d[k])
  }

  lemma {:induction false} BoundTouches(c: Cluster, e: Env, user: string, roles: seq<string>)
    ensures SameBut(c, Bound(c, e, user, roles).0, BindingKeys(e.ns, user, roles))
  {
    if roles != [] {
      var n := |roles| - 1;
      BoundTouches(c, e, user, roles[..n]);
      var a, b := BindingKeys(e.ns, user, roles[..n]), BindingKeys(e.ns, user, roles);
      assert b[n] == Binding(e.ns, roles[n], For(user));
      assert forall i :: 0 <= i < n ==> a[i] == b[i];
    }
  }

  /** A mint, failed or not, touches only the user's own identity objects. */
  lemma MintTouchesOnlyTheUsersIdentity(c: Cluster, e: Env, user: string)
    ensures SameBut(c, Minted(c, e, user).0, IdentityKeys(e.ns, user))
  {
    var keys := IdentityKeys(e.ns, user);
    assert keys[0] == Account(e, user) && keys[1] == TokenSecret(e.ns, For(user)) && keys[2] == KubeconfigSecret(e.ns, For(user));
    var c1 := CreatedIfMissing(c, e, Account(e, user), Plain(e, user, "")).0;
    BoundTouches(c1, e, user, ROLES);
  }

  lemma KeysNameTheirUser(ns: string, user: string, k: Key)
    requires k in IdentityKeys(ns, user)
    ensures k.name == For(user) && k.ns == ns
  {
  }

  // ---- what a successful mint leaves -----------------------------------------------

  ghost predicate BindingsRight(c: Cluster, e: Env, user: string, roles: seq<string>) {
    forall i :: 0 <= i < |roles| ==>
      var k := Binding(e.ns, roles[i], For(user));
      k in c && c[k].role == roles[i] && c[k].subject == Account(e, user)
  }

  /** Every identity object exists, its bindings with the right role and subject, its kubeconfig with the current token. */
  ghost predicate Identified(c: Cluster, e: Env, user: string) {
    && Account(e, user) in c && TokenSecret(e.ns, For(user)) in c
    && BindingsRight(c, e, user, ROLES)
    && KubeconfigSecret(e.ns, For(user)) in c && user in e.tokens
    && c[KubeconfigSecret(e.ns, For(user))].data == Yaml(e.tokens[user])
  }

  lemma {:induction false} BoundIsRight(c: Cluster, e: Env, user: string, roles: seq<string>)
    requires Bound(c, e, user, roles).1
    ensures BindingsRight(Bound(c, e, user, roles).0, e, user, roles)
  {
    if roles != [] {
      BoundIsRight(c, e, user, roles[..|roles| - 1]);
    }
  }

  lemma KubeconfigIdentifies(c: Cluster, e: Env, user: string)
    requires Account(e, user) in c && TokenSecret(e.ns, For(user)) in c && BindingsRight(c, e, user, ROLES)
    requires user in e.tokens && Kubeconfig(c, e, user).1
    ensures Identified(Kubeconfig(c, e, user).0, e, user)
  {
  }

  lemma BoundKeepsTheAccount(c: Cluster, e: Env, user: string)
    requires Account(e, user) in c
    ensures Account(e, user) in Bound(c, e, user, ROLES).0
  {
    BoundTouches(c, e, user, ROLES);
    assert Account(e, user) !in BindingKeys(e.ns, user, ROLES);
  }

  lemma MintIdentifies(c: Cluster, e: Env, user: string)
    requires Minted(c, e, user).1
    ensures Identified(Minted(c, e, user).0, e, user)
  {
    var c1 := CreatedIfMissing(c, e, Account(e, user), Plain(e, user, "")).0;
    BoundIsRight(c1, e, user, ROLES);
    BoundKeepsTheAccount(c1, e, user);
    var c3 := CreatedIfMissing(Bound(c1, e, user, ROLES).0, e, TokenSecret(e.ns, For(user)), Plain(e, user, "")).0;
    KubeconfigIdentifies(c3, e, user);
  }

  lemma IdentifiedFrame(c: Cluster, d: Cluster, e: Env, user: string, keys: seq<Key>)
    requires Identified(c, e, user) && SameBut(c, d, keys) && forall k :: k in keys ==> k.name != For(user)
    ensures Identified(d, e, user)
  {
  }

  lemma MintSparesOthers(c: Cluster, e: Env, user: string, other: string)
    requires Identified(c, e, other) && other != user
    ensures Identified(Minted(c, e, user).0, e, other)
  {
    MintTouchesOnlyTheUsersIdentity(c, e, user);
    forall k | k in IdentityKeys(e.ns, user) ensures k.name != For(other) {
      KeysNameTheirUser(e.ns, user, k);
    }
    IdentifiedFrame(c, Minted(c, e, user).0, e, other, IdentityKeys(e.ns, user));
  }

  lemma {:induction false} MintAllIdentifies(c: Cluster, e: Env, users: seq<string>)
    requires MintedAll(c, e, users).1
    ensures forall u :: u in users ==> Identified(MintedAll(c, e, users).0, e, u)
  {
    if users != [] {
      var n := |users| - 1;
      var before, last := MintedAll(c, e, users[..n]).0, users[n];
      MintAllIdentifies(c, e, users[..n]);
      MintIdentifies(before, e, last);
      assert users == users[..n] + [last];
      forall u | u in users && u != last ensures Identified(Minted(before, e, last).0, e, u) {
        MintSparesOthers(before, e, last, u);
      }
    }
  }
}

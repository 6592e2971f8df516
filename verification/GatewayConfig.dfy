/**
  From agent templates to the gateway configuration: the merge of every template's
  providers (internal/controller/openclawconfig_controller.go) and the rendered
  model map, allow list and primary (internal/gateway/render.go).
*/
module GatewayConfig {
  import opened Common
  import opened Text
  import opened ModelKeys

  datatype Template = Template(name: string, providers: seq<Provider>, defaultModel: string)

  /** One provider of one template. */
  datatype Claim = Claim(template: string, defaultModel: string, provider: Provider)

  // ---- the order of the templates --------------------------------------------

  function Names(ts: seq<Template>): seq<string> {
    seq(|ts|, i requires 0 <= i < |ts| => ts[i].name)
  }

  function Named(ts: seq<Template>, name: string): (t: Template)
    requires name in Names(ts)
    ensures t in ts && t.name == name
  {
    var last := ts[|ts| - 1];
    if last.name == name then last
    else
      assert forall i :: 0 <= i < |ts| - 1 ==> Names(ts)[i] == Names(ts[..|ts| - 1])[i];
      Named(ts[..|ts| - 1], name)
  }

  /** The templates sorted by name, which is unique in a namespace. */
  function ByName(ts: seq<Template>): (r: seq<Template>)
    requires Distinct(Names(ts))
    ensures StrictlySorted(Names(r)) && (forall t :: t in r <==> t in ts)
  {
    var names := Sorted(Names(ts));
    var r := seq(|names|, i requires 0 <= i < |names| => (assert names[i] in Names(ts); Named(ts, names[i])));
    ByNameIsSorted(ts, names, r);
    r
  }

  lemma ByNameIsSorted(ts: seq<Template>, names: seq<string>, r: seq<Template>)
    requires Distinct(Names(ts)) && StrictlySorted(names) && (forall n :: n in names <==> n in Names(ts)) && |r| == |names|
    requires forall i :: 0 <= i < |names| ==> r[i] == Named(ts, names[i])
    ensures Names(r) == names && forall t :: t in r <==> t in ts
  {
    assert Names(r) == names;
    forall i | 0 <= i < |ts| ensures ts[i] in r {
      assert Names(ts)[i] in names;
      var k :| 0 <= k < |names| && names[k] == ts[i].name;
      OneOfAName(ts, r[k], ts[i]);
    }
    assert forall i :: 0 <= i < |r| ==> r[i] in ts;
  }

  lemma OneOfAName(ts: seq<Template>, t: Template, u: Template)
    requires Distinct(Names(ts)) && t in ts && u in ts && t.name == u.name
    ensures t == u
  {
    var i :| 0 <= i < |ts| && ts[i] == t;
    var j :| 0 <= j < |ts| && ts[j] == u;
    assert Names(ts)[i] == Names(ts)[j];
  }

  /** The order in which the API lists the templates does not matter. */
  lemma ListOrderDoesNotMatter(ts: seq<Template>, us: seq<Template>)
    requires Distinct(Names(ts)) && Distinct(Names(us)) && forall t :: t in ts <==> t in us
    ensures ByName(ts) == ByName(us)
  {
    var a, b := ByName(ts), ByName(us);
    SameNames(a, b);
    SortedUnique(Names(a), Names(b));
    assert |a| == |Names(a)| == |b|;
    forall i | 0 <= i < |a| ensures a[i] == b[i] {
      assert Names(a)[i] == Names(b)[i];
      OneOfAName(ts, a[i], b[i]);
    }
  }

  lemma SameNames(a: seq<Template>, b: seq<Template>)
    requires forall t :: t in a <==> t in b
    ensures forall n :: n in Names(a) <==> n in Names(b)
  {
    forall n ensures n in Names(a) <==> n in Names(b) {
      NameOfMember(a, n);
      NameOfMember(b, n);
    }
  }

  lemma NameOfMember(a: seq<Template>, n: string)
    ensures n in Names(a) <==> exists t :: t in a && t.name == n
  {
    if n in Names(a) {
      var i :| 0 <= i < |a| && Names(a)[i] == n;
      assert a[i] in a;
    }
    if t :| t in a && t.name == n {
      var i :| 0 <= i < |a| && a[i] == t;
      assert Names(a)[i] == n;
    }
  }

  // ---- merge -----------------------------------------------------------------

  function ClaimsOf(t: Template): seq<Claim> {
    seq(|t.providers|, i requires 0 <= i < |t.providers| => Claim(t.name, t.defaultModel, t.providers[i]))
  }

  /** All providers of a list of templates, in order. */
  function Claims(ts: seq<Template>): seq<Claim> {
    if ts == [] then [] else Claims(ts[..|ts| - 1]) + ClaimsOf(ts[|ts| - 1])
  }

  /** Renderable: it has an endpoint and models, and its credential, if it names one, exists. */
  predicate Eligible(secrets: set<string>, p: Provider) {
    && p.endpoint != "" && p.models != []
    && (p.credential.None? || p.credential.value == "" || p.credential.value in secrets)
  }

  function EligibleNames(secrets: set<string>, cs: seq<Claim>): set<string> {
    set i | 0 <= i < |cs| && Eligible(secrets, cs[i].provider) :: cs[i].provider.name
  }

  /** The claims that win: eligible, and the first eligible of their name. */
  function Winners(secrets: set<string>, cs: seq<Claim>): seq<Claim> {
    if cs == [] then []
    else
      var n := |cs| - 1;
      Winners(secrets, cs[..n]) +
      if Eligible(secrets, cs[n].provider) && cs[n].provider.name !in EligibleNames(secrets, cs[..n]) then [cs[n]] else []
  }

  predicate DefaultIsServed(c: Claim) {
    c.defaultModel != "" && c.defaultModel in Refs(c.provider)
  }

  /** The default of the first winner that serves its own template's default. */
  function FirstDefault(ws: seq<Claim>): string {
    if ws == [] then ""
    else
      var before := FirstDefault(ws[..|ws| - 1]);
      if before == "" && DefaultIsServed(ws[|ws| - 1]) then ws[|ws| - 1].defaultModel else before
  }

  function Primary(ws: seq<Claim>): string {
    var d := FirstDefault(ws);
    if d == "" && ws != [] && ws[0].provider.models != [] then ModelKey(ws[0].provider.name, ws[0].provider.models[0]) else d
  }

  lemma WinnersSnoc(secrets: set<string>, cs: seq<Claim>, c: Claim)
    ensures Winners(secrets, cs + [c]) == Winners(secrets, cs) +
      if Eligible(secrets, c.provider) && c.provider.name !in EligibleNames(secrets, cs) then [c] else []
    ensures EligibleNames(secrets, cs + [c]) == EligibleNames(secrets, cs) + if Eligible(secrets, c.provider) then {c.provider.name} else {}
  {
    var all := cs + [c];
    assert all[..|cs|] == cs;
    assert all[|cs|] == c;
    forall x ensures x in EligibleNames(secrets, all) <==>
      x in EligibleNames(secrets, cs) || (Eligible(secrets, c.provider) && x == c.provider.name) {
      if x in EligibleNames(secrets, cs) {
        var i :| 0 <= i < |cs| && Eligible(secrets, cs[i].provider) && cs[i].provider.name == x;
        assert all[i] == cs[i];
      }
    }
  }

  /** One provider of the inner loop: skipped, or claimed and rendered. */
  method Consider(secrets: set<string>, c: Claim, claimed: set<string>, primary0: string, winners0: seq<Claim>)
    returns (claimed': set<string>, primary: string, winners: seq<Claim>)
    ensures var wins := Eligible(secrets, c.provider) && c.provider.name !in claimed;
      && claimed' == (if wins then claimed + {c.provider.name} else claimed)
      && winners == (if wins then winners0 + [c] else winners0)
      && primary == if wins && primary0 == "" && DefaultIsServed(c) then c.defaultModel else primary0
  {
    claimed', primary, winners := claimed, primary0, winners0;
    var pr := c.provider;
    if pr.endpoint == "" || |pr.models| == 0 {
      return;
    }
    if pr.name in claimed {
      return;
    }
    if pr.credential.Some? && pr.credential.value != "" && pr.credential.value !in secrets {
      return;
    }
    claimed' := claimed + {pr.name};
    if primary == "" {
      var j := 0;
      while j < |pr.models|
        invariant 0 <= j <= |pr.models| && primary == ""
        invariant forall k :: 0 <= k < j ==> ModelKey(pr.name, pr.models[k]) != c.defaultModel
      {
        if ModelKey(pr.name, pr.models[j]) == c.defaultModel {
          assert c.defaultModel in Refs(pr);
          primary := c.defaultModel;
          break;
        }
        j := j + 1;
      }
    }
    winners := winners + [c];
  }

  method ConsiderNext(secrets: set<string>, ghost cs: seq<Claim>, c: Claim, claimed0: set<string>, primary0: string, winners0: seq<Claim>)
    returns (claimed: set<string>, primary: string, winners: seq<Claim>)
    requires Merged(secrets, cs, claimed0, primary0, winners0)
    ensures Merged(secrets, cs + [c], claimed, primary, winners)
  {
    MergedSnoc(secrets, cs, claimed0, primary0, winners0, c);
    claimed, primary, winners := Consider(secrets, c, claimed0, primary0, winners0);
  }

  lemma ClaimsOneMore(before: seq<Claim>, t: Template, j: nat)
    requires j < |t.providers|
    ensures before + ClaimsOf(t)[..j] + [Claim(t.name, t.defaultModel, t.providers[j])] == before + ClaimsOf(t)[..j + 1]
  {
  }

  lemma ClaimsEnds(before: seq<Claim>, t: Template)
    ensures before + ClaimsOf(t)[..0] == before && before + ClaimsOf(t)[..|t.providers|] == before + ClaimsOf(t)
  {
  }

  /** The inner loop: one template's providers in their order. */
  method MergeTemplate(secrets: set<string>, t: Template, ghost before: seq<Claim>, claimed0: set<string>, primary0: string, winners0: seq<Claim>)
    returns (claimed: set<string>, primary: string, winners: seq<Claim>)
    requires Merged(secrets, before, claimed0, primary0, winners0)
    ensures Merged(secrets, before + ClaimsOf(t), claimed, primary, winners)
  {
    claimed, primary, winners := claimed0, primary0, winners0;
    ClaimsEnds(before, t);
    ghost var done := before;
    for j := 0 to |t.providers|
      invariant done == before + ClaimsOf(t)[..j]
      invariant Merged(secrets, done, claimed, primary, winners)
    {
      var c := Claim(t.name, t.defaultModel, t.providers[j]);
      claimed, primary, winners := ConsiderNext(secrets, done, c, claimed, primary, winners);
      ClaimsOneMore(before, t, j);
      done := done + [c];
    }
  }

  /** The templates are listed in any order and sorted by name before the merge. */
  method Merge(ts: seq<Template>, secrets: set<string>) returns (winners: seq<Claim>, primary: string)
    requires Distinct(Names(ts))
    ensures winners == Winners(secrets, Claims(ByName(ts))) && primary == Primary(winners)
  {
    var templates := ByName(ts);
    winners, primary := [], "";
    var claimed: set<string> := {};
    for i := 0 to |templates|
      invariant Merged(secrets, Claims(templates[..i]), claimed, primary, winners)
    {
      assert templates[..i + 1][..i] == templates[..i];
      claimed, primary, winners := MergeTemplate(secrets, templates[i], Claims(templates[..i]), claimed, primary, winners);
    }
    assert templates[..|templates|] == templates;
    if primary == "" && |winners| > 0 && |winners[0].provider.models| > 0 {
      primary := ModelKey(winners[0].provider.name, winners[0].provider.models[0]);
    }
  }

  ghost predicate Merged(secrets: set<string>, cs: seq<Claim>, claimed: set<string>, primary: string, winners: seq<Claim>) {
    claimed == EligibleNames(secrets, cs) && winners == Winners(secrets, cs) && primary == FirstDefault(winners)
  }

  lemma MergedSnoc(secrets: set<string>, cs: seq<Claim>, claimed: set<string>, primary: string, winners: seq<Claim>, c: Claim)
    requires Merged(secrets, cs, claimed, primary, winners)
    ensures var wins := Eligible(secrets, c.provider) && c.provider.name !in claimed;
      Merged(secrets, cs + [c],
        if wins then claimed + {c.provider.name} else claimed,
        if wins && primary == "" && DefaultIsServed(c) then c.defaultModel else primary,
        if wins then winners + [c] else winners)
  {
    WinnersSnoc(secrets, cs, c);
    assert (winners + [c])[..|winners|] == winners;
  }

  /** Winners' names are pairwise distinct, and exactly the eligible names. */
  lemma {:induction false} WinnersAreDistinct(secrets: set<string>, cs: seq<Claim>)
    ensures var ws := Winners(secrets, cs);
      && (forall i, j :: 0 <= i < j < |ws| ==> ws[i].provider.name != ws[j].provider.name)
      && (forall i :: 0 <= i < |ws| ==> Eligible(secrets, ws[i].provider) && ws[i].provider.name in EligibleNames(secrets, cs))
  {
    if cs != [] {
      var n := |cs| - 1;
      WinnersAreDistinct(secrets, cs[..n]);
      assert cs == cs[..n] + [cs[n]];
      WinnersSnoc(secrets, cs[..n], cs[n]);
    }
  }

  ghost predicate FirstOfItsName(secrets: set<string>, cs: seq<Claim>, i: nat) {
    && i < |cs| && Eligible(secrets, cs[i].provider)
    && forall j :: 0 <= j < i ==> Eligible(secrets, cs[j].provider) ==> cs[j].provider.name != cs[i].provider.name
  }

  /** The first eligible claimant of a name wins it, and nobody else does. */
  lemma {:induction false} FirstEligibleClaimantWins(secrets: set<string>, cs: seq<Claim>, c: Claim)
    ensures c in Winners(secrets, cs) <==> exists i: nat :: FirstOfItsName(secrets, cs, i) && cs[i] == c
  {
    if cs != [] {
      var n := |cs| - 1;
      var before := cs[..n];
      assert cs == before + [cs[n]];
      WinnersSnoc(secrets, before, cs[n]);
      FirstEligibleClaimantWins(secrets, before, c);
      if c in Winners(secrets, before) {
        var i: nat :| FirstOfItsName(secrets, before, i) && before[i] == c;
        FirstInPrefix(secrets, cs, n, i);
        assert FirstOfItsName(secrets, cs, i) && cs[i] == c;
      } else if c in Winners(secrets, cs) {
        assert c == cs[n];
        FirstAtTheEnd(secrets, before, c);
        assert FirstOfItsName(secrets, cs, n) && cs[n] == c;
      }
      if i: nat :| FirstOfItsName(secrets, cs, i) && cs[i] == c {
        if i < n {
          FirstInPrefix(secrets, cs, n, i);
          assert FirstOfItsName(secrets, before, i) && before[i] == c;
        } else {
          FirstAtTheEnd(secrets, before, c);
        }
      }
    }
  }

  lemma FirstInPrefix(secrets: set<string>, cs: seq<Claim>, n: nat, i: nat)
    requires i < n <= |cs|
    ensures FirstOfItsName(secrets, cs[..n], i) <==> FirstOfItsName(secrets, cs, i)
  {
    var before := cs[..n];
    assert forall j :: 0 <= j <= i ==> before[j] == cs[j];
  }

  lemma FirstAtTheEnd(secrets: set<string>, before: seq<Claim>, c: Claim)
    ensures FirstOfItsName(secrets, before + [c], |before|) <==>
      Eligible(secrets, c.provider) && c.provider.name !in EligibleNames(secrets, before)
  {
    var cs := before + [c];
    assert forall j :: 0 <= j < |before| ==> cs[j] == before[j];
  }

  // ---- the winner of a name, by template name ----------------------------------

  /** The template has an eligible provider of this name. */
  ghost predicate Offers(secrets: set<string>, t: Template, name: string) {
    exists j :: 0 <= j < |t.providers| && Eligible(secrets, t.providers[j]) && t.providers[j].name == name
  }

  lemma {:induction false} NamesAreOffered(secrets: set<string>, us: seq<Template>, name: string)
    ensures name in EligibleNames(secrets, Claims(us)) <==> exists m :: 0 <= m < |us| && Offers(secrets, us[m], name)
  {
    if us != [] {
      var n := |us| - 1;
      NamesAreOffered(secrets, us[..n], name);
      NamesAppend(secrets, Claims(us[..n]), us[n], name);
      assert us == us[..n] + [us[n]];
      if m :| 0 <= m < |us[..n]| && Offers(secrets, us[..n][m], name) {
        assert Offers(secrets, us[m], name);
      }
      if m :| 0 <= m < |us| && Offers(secrets, us[m], name) {
        assert m < n ==> Offers(secrets, us[..n][m], name);
      }
    }
  }

  lemma NamesAppend(secrets: set<string>, cs: seq<Claim>, t: Template, name: string)
    ensures name in EligibleNames(secrets, cs + ClaimsOf(t)) <==> name in EligibleNames(secrets, cs) || Offers(secrets, t, name)
  {
    var all := cs + ClaimsOf(t);
    if name in EligibleNames(secrets, all) {
      var i :| 0 <= i < |all| && Eligible(secrets, all[i].provider) && all[i].provider.name == name;
      assert i < |cs| ==> all[i] == cs[i];
      assert i >= |cs| ==> all[i].provider == t.providers[i - |cs|];
    }
    if name in EligibleNames(secrets, cs) {
      var i :| 0 <= i < |cs| && Eligible(secrets, cs[i].provider) && cs[i].provider.name == name;
      assert all[i] == cs[i];
    }
    if Offers(secrets, t, name) {
      var j :| 0 <= j < |t.providers| && Eligible(secrets, t.providers[j]) && t.providers[j].name == name;
      assert all[|cs| + j].provider == t.providers[j];
    }
  }

  ghost predicate WinsAt(secrets: set<string>, us: seq<Template>, m: nat, k: nat, c: Claim) {
    && m < |us| && FirstOfItsName(secrets, ClaimsOf(us[m]), k) && c == ClaimsOf(us[m])[k]
    && c.provider.name !in EligibleNames(secrets, Claims(us[..m]))
  }

  lemma FirstAfter(secrets: set<string>, cs: seq<Claim>, ds: seq<Claim>, k: nat)
    requires k < |ds|
    ensures FirstOfItsName(secrets, cs + ds, |cs| + k) <==>
      FirstOfItsName(secrets, ds, k) && ds[k].provider.name !in EligibleNames(secrets, cs)
  {
    var all := cs + ds;
    assert forall j :: 0 <= j < |cs| ==> all[j] == cs[j];
    assert forall j :: 0 <= j < |ds| ==> ds[j] == all[|cs| + j];
  }

  ghost predicate WinsLater(secrets: set<string>, cs: seq<Claim>, ds: seq<Claim>, c: Claim) {
    && c.provider.name !in EligibleNames(secrets, cs)
    && exists k: nat :: FirstOfItsName(secrets, ds, k) && ds[k] == c
  }

  lemma WinnersAppend(secrets: set<string>, cs: seq<Claim>, ds: seq<Claim>, c: Claim)
    ensures c in Winners(secrets, cs + ds) <==> c in Winners(secrets, cs) || WinsLater(secrets, cs, ds, c)
  {
    var all := cs + ds;
    assert all[..|cs|] == cs;
    FirstEligibleClaimantWins(secrets, all, c);
    FirstEligibleClaimantWins(secrets, cs, c);
    if i: nat :| FirstOfItsName(secrets, all, i) && all[i] == c {
      if i < |cs| {
        FirstInPrefix(secrets, all, |cs|, i);
        assert FirstOfItsName(secrets, cs, i) && cs[i] == c;
      } else {
        FirstAfter(secrets, cs, ds, i - |cs|);
      }
    }
    if i: nat :| FirstOfItsName(secrets, cs, i) && cs[i] == c {
      FirstInPrefix(secrets, all, |cs|, i);
      assert FirstOfItsName(secrets, all, i) && all[i] == c;
    }
    if WinsLater(secrets, cs, ds, c) {
      var k: nat :| FirstOfItsName(secrets, ds, k) && ds[k] == c;
      FirstAfter(secrets, cs, ds, k);
      assert FirstOfItsName(secrets, all, |cs| + k) && all[|cs| + k] == c;
    }
  }

  lemma WinsInPrefix(secrets: set<string>, us: seq<Template>, m: nat, k: nat, c: Claim)
    requires us != [] && m < |us| - 1
    ensures WinsAt(secrets, us, m, k, c) <==> WinsAt(secrets, us[..|us| - 1], m, k, c)
  {
    assert us[..|us| - 1][..m] == us[..m];
  }

  lemma {:induction false} WinnersAt(secrets: set<string>, us: seq<Template>, c: Claim)
    ensures c in Winners(secrets, Claims(us)) <==> exists m: nat, k: nat :: WinsAt(secrets, us, m, k, c)
  {
    if us != [] {
      var n := |us| - 1;
      var before := us[..n];
      WinnersAt(secrets, before, c);
      WinnersAppend(secrets, Claims(before), ClaimsOf(us[n]), c);
      if m: nat, k: nat :| WinsAt(secrets, before, m, k, c) {
        WinsInPrefix(secrets, us, m, k, c);
      }
      if m: nat, k: nat :| WinsAt(secrets, us, m, k, c) {
        if m < n {
          WinsInPrefix(secrets, us, m, k, c);
        }
      }
      if WinsLater(secrets, Claims(before), ClaimsOf(us[n]), c) {
        var k: nat :| FirstOfItsName(secrets, ClaimsOf(us[n]), k) && ClaimsOf(us[n])[k] == c;
        assert WinsAt(secrets, us, n, k, c);
      }
    }
  }

  /** Its template's first eligible provider of the name, and no template of an earlier name offers one. */
  ghost predicate WinsByName(secrets: set<string>, ts: seq<Template>, t: Template, k: nat) {
    && t in ts && FirstOfItsName(secrets, ClaimsOf(t), k)
    && forall u :: u in ts && Before(u.name, t.name) ==> !Offers(secrets, u, t.providers[k].name)
  }

  lemma EarlierIsBefore(us: seq<Template>, m: nat, u: Template)
    requires StrictlySorted(Names(us)) && m < |us|
    ensures u in us[..m] <==> u in us && Before(u.name, us[m].name)
  {
    if u in us[..m] {
      var i :| 0 <= i < m && us[i] == u;
      SortedPairwise(Names(us), i, m);
    }
    if u in us && Before(u.name, us[m].name) {
      var i :| 0 <= i < |us| && us[i] == u;
      if i == m {
        BeforeIsStrict(u.name);
      } else if m < i {
        SortedPairwise(Names(us), m, i);
        BeforeIsTransitive(u.name, us[m].name, u.name);
        BeforeIsStrict(u.name);
      }
      assert i < m && us[..m][i] == u;
    }
  }

  lemma WinsAtIsByName(secrets: set<string>, ts: seq<Template>, us: seq<Template>, m: nat, k: nat)
    requires StrictlySorted(Names(us)) && (forall t :: t in us <==> t in ts) && m < |us| && k < |us[m].providers|
    ensures WinsAt(secrets, us, m, k, ClaimsOf(us[m])[k]) <==> WinsByName(secrets, ts, us[m], k)
  {
    var name := us[m].providers[k].name;
    NamesAreOffered(secrets, us[..m], name);
    if u :| u in ts && Before(u.name, us[m].name) && Offers(secrets, u, name) {
      EarlierIsBefore(us, m, u);
      var i :| 0 <= i < m && us[..m][i] == u;
      assert Offers(secrets, us[..m][i], name);
    }
    if i :| 0 <= i < |us[..m]| && Offers(secrets, us[..m][i], name) {
      EarlierIsBefore(us, m, us[..m][i]);
      assert us[..m][i] in us[..m] && us[..m][i] in ts;
    }
  }

  /** The earliest template by name that can serve a provider's name wins it, whatever order the templates are listed in. */
  lemma {:induction false} EarliestTemplateWins(secrets: set<string>, ts: seq<Template>, c: Claim)
    requires Distinct(Names(ts))
    ensures c in Winners(secrets, Claims(ByName(ts))) <==>
      exists t, k: nat :: WinsByName(secrets, ts, t, k) && c == ClaimsOf(t)[k]
  {
    var us := ByName(ts);
    WinnersAt(secrets, us, c);
    if m: nat, k: nat :| WinsAt(secrets, us, m, k, c) {
      WinsAtIsByName(secrets, ts, us, m, k);
      assert WinsByName(secrets, ts, us[m], k) && c == ClaimsOf(us[m])[k];
    }
    if t, k: nat :| WinsByName(secrets, ts, t, k) && c == ClaimsOf(t)[k] {
      var m: nat :| m < |us| && us[m] == t;
      WinsAtIsByName(secrets, ts, us, m, k);
      assert WinsAt(secrets, us, m, k, c);
    }
  }

  // ---- render ----------------------------------------------------------------

  /** Every reference of the list. */
  function AllRefs(ps: seq<Provider>): set<string> {
    if ps == [] then {} else AllRefs(ps[..|ps| - 1]) + Refs(ps[|ps| - 1])
  }

  /** A reference is somebody's. */
  lemma {:induction false} AllRefsAre(ps: seq<Provider>, r: string)
    ensures r in AllRefs(ps) <==> exists i :: 0 <= i < |ps| && r in Refs(ps[i])
  {
    if ps != [] {
      var n := |ps| - 1;
      AllRefsAre(ps[..n], r);
      if i :| 0 <= i < |ps[..n]| && r in Refs(ps[..n][i]) {
        assert r in Refs(ps[i]);
      }
      if i :| 0 <= i < |ps| && r in Refs(ps[i]) {
        assert i < n ==> r in Refs(ps[..n][i]);
      }
    }
  }

  function AllIds(ps: seq<Provider>): multiset<string> {
    if ps == [] then multiset{} else AllIds(ps[..|ps| - 1]) + multiset(ps[|ps| - 1].models)
  }

  /** `models` maps each reference to its alias, if it has one; `routes` each provider name to its endpoint. */
  datatype Config = Config(primary: string, routes: map<string, string>, models: map<string, Option<string>>, allow: seq<string>)

  /** The alias of a key stands for one of the ids that have that key, and only while the id is unique. */
  ghost predicate AliasFits(ps: seq<Provider>, key: string, alias: Option<string>) {
    exists i, id :: 0 <= i < |ps| && id in ps[i].models && ModelKey(ps[i].name, id) == key
      && alias == if AllIds(ps)[id] == 1 then Some(id) else None
  }

  ghost predicate Counts(idCount: map<string, nat>, m: multiset<string>) {
    forall id :: (id in idCount <==> id in m) && (id in idCount ==> idCount[id] == m[id])
  }

  method CountIds(ps: seq<Provider>) returns (idCount: map<string, nat>)
    ensures Counts(idCount, AllIds(ps))
  {
    idCount := map[];
    for i := 0 to |ps|
      invariant Counts(idCount, AllIds(ps[..i]))
    {
      assert ps[..i + 1][..i] == ps[..i];
      idCount := CountMore(idCount, AllIds(ps[..i]), ps[i].models);
    }
    assert ps[..|ps|] == ps;
  }

  method CountMore(idCount0: map<string, nat>, ghost m: multiset<string>, ids: seq<string>) returns (idCount: map<string, nat>)
    requires Counts(idCount0, m)
    ensures Counts(idCount, m + multiset(ids))
  {
    idCount := idCount0;
    for j := 0 to |ids|
      invariant Counts(idCount, m + multiset(ids[..j]))
    {
      assert ids[..j + 1] == ids[..j] + [ids[j]];
      idCount := idCount[ids[j] := (if ids[j] in idCount then idCount[ids[j]] else 0) + 1];
    }
    assert ids[..|ids|] == ids;
  }

  /** What the rendering loop has built for the references seen so far. */
  ghost predicate Built(ps: seq<Provider>, refs: set<string>, models: map<string, Option<string>>, allowed: set<string>, allow: seq<string>) {
    && models.Keys == allowed == refs && Distinct(allow) && (forall r :: r in allow <==> r in refs)
    && forall k :: k in models ==> AliasFits(ps, k, models[k])
  }

  lemma BuiltPut(ps: seq<Provider>, refs: set<string>, models: map<string, Option<string>>, allowed: set<string>, allow: seq<string>,
      key: string, alias: Option<string>)
    requires Built(ps, refs, models, allowed, allow) && AliasFits(ps, key, alias)
    ensures Built(ps, refs + {key}, models[key := alias], allowed + {key}, if key in allowed then allow else allow + [key])
  {
    if key in allowed {
      assert refs + {key} == refs;
    } else {
      DistinctSnoc(allow, key);
    }
  }

  lemma AliasOfId(ps: seq<Provider>, i: nat, j: nat, idCount: map<string, nat>)
    requires i < |ps| && j < |ps[i].models| && Counts(idCount, AllIds(ps))
    ensures var id := ps[i].models[j];
      AliasFits(ps, ModelKey(ps[i].name, id), if id in idCount && idCount[id] == 1 then Some(id) else None)
  {
    var id := ps[i].models[j];
    assert id in ps[i].models;
  }

  function IdRefs(name: string, ids: seq<string>): set<string> {
    set id | id in ids :: ModelKey(name, id)
  }

  lemma IdRefsSnoc(name: string, ids: seq<string>, id: string)
    ensures IdRefs(name, ids + [id]) == IdRefs(name, ids) + {ModelKey(name, id)}
  {
    assert forall x :: x in ids + [id] <==> x in ids || x == id;
  }

  lemma IdRefsUpTo(p: Provider, refs: set<string>, j: nat)
    requires j <= |p.models|
    ensures refs + IdRefs(p.name, p.models[..0]) == refs
    ensures j < |p.models| ==>
      refs + IdRefs(p.name, p.models[..j + 1]) == refs + IdRefs(p.name, p.models[..j]) + {ModelKey(p.name, p.models[j])}
    ensures j == |p.models| ==> IdRefs(p.name, p.models[..j]) == Refs(p)
  {
    if j < |p.models| {
      assert p.models[..j + 1] == p.models[..j] + [p.models[j]];
      IdRefsSnoc(p.name, p.models[..j], p.models[j]);
    } else {
      assert p.models[..j] == p.models;
    }
  }

  /** One id: its entry in the model map, and its key in the allow list when it is new. */
  method RenderModel(ps: seq<Provider>, i: nat, j: nat, idCount: map<string, nat>, ghost refs: set<string>,
      models0: map<string, Option<string>>, allowed0: set<string>, allow0: seq<string>)
    returns (models: map<string, Option<string>>, allowed: set<string>, allow: seq<string>)
    requires i < |ps| && j < |ps[i].models| && Counts(idCount, AllIds(ps)) && Built(ps, refs, models0, allowed0, allow0)
    ensures Built(ps, refs + {ModelKey(ps[i].name, ps[i].models[j])}, models, allowed, allow)
  {
    var id := ps[i].models[j];
    var key := ModelKey(ps[i].name, id);
    var alias := if id in idCount && idCount[id] == 1 then Some(id) else None;
    AliasOfId(ps, i, j, idCount);
    BuiltPut(ps, refs, models0, allowed0, allow0, key, alias);
    models, allowed, allow := models0[key := alias], allowed0, allow0;
    if key !in allowed {
      allowed := allowed + {key};
      allow := allow + [key];
    } else {
      assert allowed + {key} == allowed;
    }
  }

  method RenderModels(ps: seq<Provider>, i: nat, idCount: map<string, nat>, ghost refs: set<string>,
      models0: map<string, Option<string>>, allowed0: set<string>, allow0: seq<string>)
    returns (models: map<string, Option<string>>, allowed: set<string>, allow: seq<string>)
    requires i < |ps| && Counts(idCount, AllIds(ps)) && Built(ps, refs, models0, allowed0, allow0)
    ensures Built(ps, refs + Refs(ps[i]), models, allowed, allow)
  {
    models, allowed, allow := models0, allowed0, allow0;
    ghost var done := refs;
    IdRefsUpTo(ps[i], refs, 0);
    for j := 0 to |ps[i].models|
      invariant Built(ps, done, models, allowed, allow)
      invariant done == refs + IdRefs(ps[i].name, ps[i].models[..j])
    {
      models, allowed, allow := RenderModel(ps, i, j, idCount, done, models, allowed, allow);
      IdRefsUpTo(ps[i], refs, j);
      done := done + {ModelKey(ps[i].name, ps[i].models[j])};
    }
    IdRefsUpTo(ps[i], refs, |ps[i].models|);
  }

  /**
    The rendered allow list is strictly sorted, and it, the model map's keys and the
    image of ModelKey are one set; every alias stands for an id of its key.
  */
  method Render(primary: string, ps: seq<Provider>) returns (cfg: Config)
    ensures cfg.primary == primary && StrictlySorted(cfg.allow)
    ensures (forall r :: r in cfg.allow <==> r in AllRefs(ps)) && cfg.models.Keys == AllRefs(ps)
    ensures forall k :: k in cfg.models ==> AliasFits(ps, k, cfg.models[k])
    ensures cfg.routes == Routes(ps)
  {
    var idCount := CountIds(ps);
    var models: map<string, Option<string>> := map[];
    var routes: map<string, string> := map[];
    var allowed: set<string> := {};
    var allow: seq<string> := [];
    for i := 0 to |ps|
      invariant Built(ps, AllRefs(ps[..i]), models, allowed, allow)
      invariant routes == Routes(ps[..i])
    {
      assert ps[..i + 1][..i] == ps[..i];
      models, allowed, allow := RenderModels(ps, i, idCount, AllRefs(ps[..i]), models, allowed, allow);
      routes := routes[ps[i].name := ps[i].endpoint];
    }
    assert ps[..|ps|] == ps;
    cfg := Config(primary, routes, models, Sorted(allow));
  }

  function Routes(ps: seq<Provider>): map<string, string> {
    if ps == [] then map[] else Routes(ps[..|ps| - 1])[ps[|ps| - 1].name := ps[|ps| - 1].endpoint]
  }

  lemma {:induction false} IdIsCounted(ps: seq<Provider>, i: nat, j: nat)
    requires i < |ps| && j < |ps[i].models|
    ensures ps[i].models[j] in AllIds(ps)
  {
    var n := |ps| - 1;
    if i < n {
      IdIsCounted(ps[..n], i, j);
    }
  }

  // ---- merge and render together ---------------------------------------------

  function Rendered(ws: seq<Claim>): seq<Provider> {
    seq(|ws|, i requires 0 <= i < |ws| => ws[i].provider)
  }

  lemma {:induction false} CountSeenTwice(ps: seq<Provider>, i: nat, j: nat, id: string)
    requires i < j < |ps| && id in ps[i].models && id in ps[j].models
    ensures AllIds(ps)[id] >= 2
  {
    var n := |ps| - 1;
    assert id in multiset(ps[j].models);
    if j < n {
      CountSeenTwice(ps[..n], i, j, id);
    } else {
      var k :| 0 <= k < |ps[i].models| && ps[i].models[k] == id;
      assert ps[..n][i] == ps[i];
      IdIsCounted(ps[..n], i, k);
    }
  }

  lemma AliasOwner(ps: seq<Provider>, k: string, alias: string) returns (i: nat)
    requires AliasFits(ps, k, Some(alias))
    ensures i < |ps| && alias in ps[i].models && ModelKey(ps[i].name, alias) == k && AllIds(ps)[alias] == 1
  {
    var j: nat, id :| j < |ps| && id in ps[j].models && ModelKey(ps[j].name, id) == k
      && Some(alias) == if AllIds(ps)[id] == 1 then Some(id) else None;
    i := j;
  }

  /** No alias names two references. */
  lemma AliasNamesOneReference(ps: seq<Provider>, k: string, k': string, alias: string)
    requires AliasFits(ps, k, Some(alias)) && AliasFits(ps, k', Some(alias))
    ensures k == k'
  {
    var i := AliasOwner(ps, k, alias);
    var j := AliasOwner(ps, k', alias);
    if i < j {
      CountSeenTwice(ps, i, j, alias);
    } else if j < i {
      CountSeenTwice(ps, j, i, alias);
    }
  }

  /** An alias that is not its own key can spell only another provider's reference. */
  lemma AliasSpellsOnlyAForeignReference(ps: seq<Provider>, i: nat, j: nat, id: string, id': string)
    requires i < |ps| && j < |ps| && id in ps[i].models && id' in ps[j].models
    requires Trim(id') != "" && ModelKey(ps[j].name, id') == id && ModelKey(ps[i].name, id) != id
    ensures ps[i].name != ps[j].name
  {
    KeyIsIdempotentIffIdNotBlank(ps[j].name, id');
  }

  /** What a template's validation admits: label names, and ids that are not empty and carry no outer whitespace. */
  ghost predicate ValidProviders(ps: seq<Provider>) {
    forall j :: 0 <= j < |ps| ==> IsLabel(ps[j].name) && forall m :: m in ps[j].models ==> m != "" && Trim(m) == m
  }

  /** The provider writes its prefix before this id, and so spells the given reference. */
  ghost predicate Spells(p: Provider, m: string, ref: string) {
    m in p.models && !(p.name + "/" <= Lower(m)) && ref == p.name + "/" + m
  }

  ghost predicate SpelledByAnother(ps: seq<Provider>, i: nat, ref: string)
    requires i < |ps|
  {
    exists j, m :: 0 <= j < |ps| && ps[j].name != ps[i].name && Spells(ps[j], m, ref)
  }

  /**
    An alias is also a reference exactly when it is its own key, or another provider's
    name, a slash and an id of that provider which does not carry the prefix itself.
  */
  lemma {:induction false} AliasIsAReferenceIff(ps: seq<Provider>, i: nat, id: string)
    requires ValidProviders(ps) && i < |ps| && id in ps[i].models && AllIds(ps)[id] == 1
    ensures id in AllRefs(ps) <==> ModelKey(ps[i].name, id) == id || SpelledByAnother(ps, i, id)
  {
    AllRefsAre(ps, id);
    if id in AllRefs(ps) && ModelKey(ps[i].name, id) != id {
      var j: nat :| j < |ps| && id in Refs(ps[j]);
      var m :| m in ps[j].models && ModelKey(ps[j].name, m) == id;
      ForeignKeySpells(ps, i, j, id, m);
    }
    if j, m :| 0 <= j < |ps| && ps[j].name != ps[i].name && Spells(ps[j], m, id) {
      LabelIsPlain(ps[j].name);
      assert ModelKey(ps[j].name, m) in Refs(ps[j]);
    }
    if ModelKey(ps[i].name, id) == id {
      assert ModelKey(ps[i].name, id) in Refs(ps[i]);
    }
  }

  lemma {:induction false} ForeignKeySpells(ps: seq<Provider>, i: nat, j: nat, id: string, m: string)
    requires ValidProviders(ps) && i < |ps| && j < |ps| && id in ps[i].models && AllIds(ps)[id] == 1
    requires m in ps[j].models && ModelKey(ps[j].name, m) == id && ModelKey(ps[i].name, id) != id
    ensures ps[j].name != ps[i].name && Spells(ps[j], m, id)
  {
    LabelIsPlain(ps[j].name);
    AliasSpellsOnlyAForeignReference(ps, i, j, id, m);
    if m == id {
      if i < j {
        CountSeenTwice(ps, i, j, id);
      } else {
        CountSeenTwice(ps, j, i, id);
      }
    }
  }

  lemma AliasCanSpellAForeignReference()
    ensures var ps := [Provider("a", "http://a", ["b/x"], None), Provider("b", "http://b", ["x"], None)];
      && AliasFits(ps, "a/b/x", Some("b/x")) && "b/x" in Refs(ps[1])
  {
    var pa, pb := Provider("a", "http://a", ["b/x"], None), Provider("b", "http://b", ["x"], None);
    var ps := [pa, pb];
    TrimmedIsOwnTrim("a");
    TrimmedIsOwnTrim("b");
    TrimmedIsOwnTrim("b/x");
    TrimmedIsOwnTrim("x");
    assert Lower("b/x")[0] == 'b' && (Lower("a") + "/")[0] == 'a';
    assert |Lower("x")| == 1 && |Lower("b") + "/"| == 2;
    assert "a" + "/" + "b/x" == "a/b/x" && "b" + "/" + "x" == "b/x";
    assert [pa][..0] == [] && ps[..1] == [pa];
    assert AllIds([pa]) == AllIds([]) + multiset(["b/x"]);
    assert AllIds(ps) == AllIds([pa]) + multiset(["x"]);
    assert AllIds(ps)["b/x"] == 1;
    assert "b/x" in ps[0].models && ModelKey(ps[0].name, "b/x") == "a/b/x";
    assert "x" in pb.models;
  }

  lemma {:induction false} FirstDefaultIsServed(ws: seq<Claim>)
    ensures FirstDefault(ws) != "" ==> FirstDefault(ws) in AllRefs(Rendered(ws))
  {
    if ws != [] {
      var n := |ws| - 1;
      FirstDefaultIsServed(ws[..n]);
      var ps := Rendered(ws);
      assert ps[..n] == Rendered(ws[..n]) && ps[n] == ws[n].provider;
    }
  }

  lemma FirstModelIsServed(ws: seq<Claim>)
    requires ws != [] && ws[0].provider.models != []
    ensures ModelKey(ws[0].provider.name, ws[0].provider.models[0]) in AllRefs(Rendered(ws))
  {
    var p := ws[0].provider;
    assert Rendered(ws)[0] == p && p.models[0] in p.models;
    assert ModelKey(p.name, p.models[0]) in Refs(p);
    AllRefsAre(Rendered(ws), ModelKey(p.name, p.models[0]));
  }

  /** Whenever any provider is rendered, the primary is in the allow list. */
  lemma PrimaryIsAllowed(secrets: set<string>, cs: seq<Claim>)
    requires Winners(secrets, cs) != []
    ensures var ws := Winners(secrets, cs); Primary(ws) in AllRefs(Rendered(ws))
  {
    var ws := Winners(secrets, cs);
    WinnersAreDistinct(secrets, cs);
    assert Eligible(secrets, ws[0].provider);
    FirstModelIsServed(ws);
    FirstDefaultIsServed(ws);
  }

  /** Each winner's name routes to its own endpoint. */
  lemma {:induction false} WinnersRouteToThemselves(ps: seq<Provider>, i: nat)
    requires i < |ps| && forall a, b :: 0 <= a < b < |ps| ==> ps[a].name != ps[b].name
    ensures ps[i].name in Routes(ps) && Routes(ps)[ps[i].name] == ps[i].endpoint
  {
    var n := |ps| - 1;
    if i < n {
      WinnersRouteToThemselves(ps[..n], i);
    }
  }

  lemma AllowedIffWon(secrets: set<string>, cs: seq<Claim>, ref: string)
    ensures ref in AllRefs(Rendered(Winners(secrets, cs))) <==> exists c :: c in Winners(secrets, cs) && ref in Refs(c.provider)
  {
    var ws := Winners(secrets, cs);
    AllRefsAre(Rendered(ws), ref);
    if c :| c in ws && ref in Refs(c.provider) {
      var j :| 0 <= j < |ws| && ws[j] == c;
      assert Rendered(ws)[j] == c.provider;
    }
    if j :| 0 <= j < |Rendered(ws)| && ref in Refs(Rendered(ws)[j]) {
      assert ws[j] in ws && ref in Refs(ws[j].provider);
    }
  }

  /** A reference is allowed exactly when some winning provider serves it. */
  lemma AllowedIffAWinnerServesIt(secrets: set<string>, ts: seq<Template>, ref: string)
    requires Distinct(Names(ts))
    ensures ref in AllRefs(Rendered(Winners(secrets, Claims(ByName(ts))))) <==>
      exists t, k: nat :: WinsByName(secrets, ts, t, k) && ref in Refs(t.providers[k])
  {
    var cs := Claims(ByName(ts));
    AllowedIffWon(secrets, cs, ref);
    if c :| c in Winners(secrets, cs) && ref in Refs(c.provider) {
      EarliestTemplateWins(secrets, ts, c);
    }
    if t, k: nat :| WinsByName(secrets, ts, t, k) && ref in Refs(t.providers[k]) {
      var c := ClaimsOf(t)[k];
      EarliestTemplateWins(secrets, ts, c);
      assert c in Winners(secrets, cs) && ref in Refs(c.provider);
    }
  }

  /**
    The resolver accepts a selection that some provider of its own template serves; the
    allow list holds it exactly when the winner of that provider's name serves it too.
  */
  lemma ResolvedIsAllowedIffTheWinnerServesIt(secrets: set<string>, ts: seq<Template>, t: Template, k: nat, ref: string)
    requires Distinct(Names(ts)) && forall u, j :: u in ts && 0 <= j < |u.providers| ==> IsLabel(u.providers[j].name)
    requires t in ts && k < |t.providers| && ref in Refs(t.providers[k])
    ensures ref in AllRefs(Rendered(Winners(secrets, Claims(ByName(ts))))) <==>
      exists u, j: nat :: WinsByName(secrets, ts, u, j) && u.providers[j].name == t.providers[k].name && ref in Refs(u.providers[j])
  {
    AllowedIffAWinnerServesIt(secrets, ts, ref);
    var id :| id in t.providers[k].models && ModelKey(t.providers[k].name, id) == ref;
    forall u, j: nat | WinsByName(secrets, ts, u, j) && ref in Refs(u.providers[j]) ensures u.providers[j].name == t.providers[k].name {
      var id' :| id' in u.providers[j].models && ModelKey(u.providers[j].name, id') == ref;
      DistinctProvidersServeDisjointRefs(u.providers[j].name, t.providers[k].name, id', id);
    }
  }

  lemma ClaimsOfTwo(ta: Template, tb: Template)
    requires |ta.providers| == 1 && |tb.providers| == 1
    ensures Claims([ta, tb]) == [ClaimsOf(ta)[0], ClaimsOf(tb)[0]]
  {
    var ts := [ta, tb];
    assert [ta][..0] == [] && ts[..1] == [ta];
    assert Claims([ta]) == Claims([]) + ClaimsOf(ta);
    assert Claims(ts) == Claims([ta]) + ClaimsOf(tb);
  }

  lemma ByNameOfTwo(ta: Template, tb: Template)
    requires Before(ta.name, tb.name)
    ensures Distinct(Names([ta, tb])) && ByName([ta, tb]) == [ta, tb]
  {
    var ts := [ta, tb];
    BeforeIsStrict(ta.name);
    assert Names(ts) == [ta.name, tb.name];
    var r := ByName(ts);
    SameNames(r, ts);
    SortedUnique(Names(r), Names(ts));
    assert |r| == |Names(r)| == 2;
    OneOfAName(ts, r[0], ta);
    OneOfAName(ts, r[1], tb);
  }

  lemma SecondClaimantLoses(c: Claim, d: Claim)
    requires Eligible({}, c.provider) && d.provider.name == c.provider.name
    ensures Winners({}, [c, d]) == [c]
  {
    WinnersSnoc({}, [], c);
    assert [] + [c] == [c];
    WinnersSnoc({}, [c], d);
    assert [c] + [d] == [c, d];
  }

  lemma EarlierTemplateAlone(ta: Template, tb: Template)
    requires Before(ta.name, tb.name) && |ta.providers| == 1 && |tb.providers| == 1
    requires Eligible({}, ta.providers[0]) && tb.providers[0].name == ta.providers[0].name
    ensures Distinct(Names([ta, tb]))
    ensures AllRefs(Rendered(Winners({}, Claims(ByName([ta, tb]))))) == Refs(ta.providers[0])
  {
    ByNameOfTwo(ta, tb);
    ClaimsOfTwo(ta, tb);
    SecondClaimantLoses(ClaimsOf(ta)[0], ClaimsOf(tb)[0]);
    var p := ta.providers[0];
    assert Rendered([ClaimsOf(ta)[0]]) == [p] && [p][..0] == [];
  }

  lemma OneIdRefs(p: Provider, id: string)
    requires p.models == [id]
    ensures Refs(p) == {ModelKey(p.name, id)}
  {
  }

  lemma ShortKeys()
    ensures ModelKey("p", "m1") == "p/m1" && ModelKey("p", "m2") == "p/m2"
  {
    TrimmedIsOwnTrim("p");
    TrimmedIsOwnTrim("m1");
    TrimmedIsOwnTrim("m2");
    assert Lower("m1")[0] == 'm' && Lower("m2")[0] == 'm' && (Lower("p") + "/")[0] == 'p';
    assert "p" + "/" + "m1" == "p/m1" && "p" + "/" + "m2" == "p/m2";
  }

  /**
    The resolver checks a selection against its own template alone, so one it
    accepts need not be allowed: the name may have been claimed first elsewhere.
  */
  lemma {:induction false} ResolvedSelectionMayNotBeAllowed() returns (ts: seq<Template>, t: Template, ref: string)
    ensures Distinct(Names(ts)) && t in ts && |t.providers| == 1 && ref in Refs(t.providers[0])
    ensures ref !in AllRefs(Rendered(Winners({}, Claims(ByName(ts)))))
  {
    var p, q := Provider("p", "http://1", ["m1"], None), Provider("p", "http://2", ["m2"], None);
    var first := Template("a", [p], "");
    t, ref := Template("b", [q], ""), "p/m2";
    ts := [first, t];
    assert Before("a", "b");
    EarlierTemplateAlone(first, t);
    ShortKeys();
    OneIdRefs(p, "m1");
    OneIdRefs(q, "m2");
  }
}

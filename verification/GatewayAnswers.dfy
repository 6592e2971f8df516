/**
  What the merged gateway configuration (GatewayConfig) contains, read off the templates:
  which providers are rendered at all, and which model is the primary.
*/
module GatewayAnswers {
  import opened Common
  import opened Text
  import opened ModelKeys
  import opened GatewayConfig

  /** It has an endpoint and models, and the credential it names, if any, exists. */
  predicate Renderable(secrets: set<string>, p: Provider) {
    p.endpoint != "" && |p.models| > 0 && (p.credential.GetOr("") != "" ==> p.credential.value in secrets)
  }

  /** Every winner is a renderable provider of one of the templates, with that template's default. */
  lemma WinnersAreRenderable(secrets: set<string>, ts: seq<Template>, c: Claim)
    requires Distinct(Names(ts)) && c in Winners(secrets, Claims(ByName(ts)))
    ensures Renderable(secrets, c.provider)
    ensures exists t :: t in ts && c.provider in t.providers && c.template == t.name && c.defaultModel == t.defaultModel
  {
    EarliestTemplateWins(secrets, ts, c);
    var t, k: nat :| WinsByName(secrets, ts, t, k) && c == ClaimsOf(t)[k];
    assert t.providers[k] in t.providers;
  }

  /** Every name some template can serve is rendered. */
  lemma EveryServableNameIsRendered(secrets: set<string>, ts: seq<Template>, t: Template, p: Provider)
    requires Distinct(Names(ts)) && t in ts && p in t.providers && Renderable(secrets, p)
    ensures exists c :: c in Winners(secrets, Claims(ByName(ts))) && c.provider.name == p.name
  {
    var us := ByName(ts);
    var m :| 0 <= m < |us| && us[m] == t;
    var k :| 0 <= k < |t.providers| && t.providers[k] == p;
    assert Eligible(secrets, p) && Offers(secrets, us[m], p.name);
    NamesAreOffered(secrets, us, p.name);
    NameIsWon(secrets, Claims(us), p.name);
  }

  lemma {:induction false} NameIsWon(secrets: set<string>, cs: seq<Claim>, name: string)
    requires name in EligibleNames(secrets, cs)
    ensures exists c :: c in Winners(secrets, cs) && c.provider.name == name
  {
    var n := |cs| - 1;
    var before := cs[..n];
    assert cs == before + [cs[n]];
    WinnersSnoc(secrets, before, cs[n]);
    if name in EligibleNames(secrets, before) {
      NameIsWon(secrets, before, name);
      var c :| c in Winners(secrets, before) && c.provider.name == name;
      assert c in Winners(secrets, cs);
    } else {
      assert cs[n] in Winners(secrets, cs);
    }
  }

  /** The claim's own provider serves its template's default. */
  predicate ServesOwnDefault(c: Claim) {
    c.defaultModel != "" && exists k :: 0 <= k < |c.provider.models| && ModelKey(c.provider.name, c.provider.models[k]) == c.defaultModel
  }

  /**
    The primary is the default of the first winner that serves its own template's
    default; when none does, the first model of the first winner; when nothing is
    rendered, none.
  */
  lemma {:induction false} PrimaryIsTheFirstServedDefault(ws: seq<Claim>) returns (i: Option<nat>)
    ensures i.Some? ==> i.value < |ws| && ServesOwnDefault(ws[i.value]) && Primary(ws) == ws[i.value].defaultModel
    ensures forall j :: 0 <= j < (if i.Some? then i.value else |ws|) ==> !ServesOwnDefault(ws[j])
    ensures i.None? && ws != [] && ws[0].provider.models != [] ==> Primary(ws) == ModelKey(ws[0].provider.name, ws[0].provider.models[0])
    ensures i.None? && ws == [] ==> Primary(ws) == ""
  {
    i := FirstServed(ws);
  }

  lemma {:induction false} FirstServed(ws: seq<Claim>) returns (i: Option<nat>)
    ensures i.Some? ==> i.value < |ws| && ServesOwnDefault(ws[i.value]) && FirstDefault(ws) == ws[i.value].defaultModel
    ensures i.None? ==> FirstDefault(ws) == ""
    ensures forall j :: 0 <= j < (if i.Some? then i.value else |ws|) ==> !ServesOwnDefault(ws[j])
  {
    if ws == [] {
      i := None;
    } else {
      var n := |ws| - 1;
      i := FirstServed(ws[..n]);
      if i.None? {
        DefaultIsServedIff(ws[n]);
        i := if ServesOwnDefault(ws[n]) then Some(n) else None;
      }
    }
  }

  lemma DefaultIsServedIff(c: Claim)
    ensures DefaultIsServed(c) <==> ServesOwnDefault(c)
  {
    if DefaultIsServed(c) {
      var id :| id in c.provider.models && ModelKey(c.provider.name, id) == c.defaultModel;
      var k :| 0 <= k < |c.provider.models| && c.provider.models[k] == id;
    }
    if k :| 0 <= k < |c.provider.models| && ModelKey(c.provider.name, c.provider.models[k]) == c.defaultModel {
      assert c.provider.models[k] in c.provider.models;
    }
  }
}

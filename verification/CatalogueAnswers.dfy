/**
  What each request to the provider catalogue (Catalogue) is answered and leaves in the
  template, field by field.
*/
module CatalogueAnswers {
  import opened Common
  import opened Text
  import opened ModelKeys
  import opened Catalogue

  // ---- the list of ids ---------------------------------------------------------------

  /** `at[k]` is where the k-th stored id is first asked for. */
  ghost predicate FirstAsked(ids: seq<string>, out: seq<string>, at: seq<nat>) {
    && |at| == |out|
    && (forall j, k :: 0 <= j < k < |at| ==> at[j] < at[k])
    && (forall k :: 0 <= k < |at| ==> at[k] < |ids| && Trim(ids[at[k]]) == out[k] && out[k] != "")
    && (forall k, i :: 0 <= k < |at| && 0 <= i < at[k] ==> Trim(ids[i]) != out[k])
    && (forall i :: 0 <= i < |ids| && Trim(ids[i]) != "" ==> Trim(ids[i]) in out)
  }

  lemma FirstAskedSnoc(ids: seq<string>, out: seq<string>, at: seq<nat>, x: string)
    requires FirstAsked(ids, out, at)
    ensures Trim(x) == "" || Trim(x) in out ==> FirstAsked(ids + [x], out, at)
    ensures Trim(x) != "" && Trim(x) !in out ==> FirstAsked(ids + [x], out + [Trim(x)], at + [|ids|])
  {
    var all := ids + [x];
    assert forall i :: 0 <= i < |ids| ==> all[i] == ids[i];
    if Trim(x) != "" && Trim(x) !in out {
      var out', at' := out + [Trim(x)], at + [|ids|];
      forall i | 0 <= i < |all| && Trim(all[i]) != "" ensures Trim(all[i]) in out' {
        assert i < |ids| ==> Trim(ids[i]) in out;
        assert out'[|out|] == Trim(x);
      }
      forall i | 0 <= i < |ids| ensures Trim(all[i]) != Trim(x) {
        assert Trim(ids[i]) != "" ==> Trim(ids[i]) in out;
      }
    }
  }

  /** The stored ids are the trimmed ones, without blanks and repeats, in the order they were first asked for. */
  lemma {:induction false} NormalizedKeepsTheOrder(ids: seq<string>) returns (at: seq<nat>)
    ensures FirstAsked(ids, Normalized(ids), at)
  {
    if ids == [] {
      at := [];
    } else {
      var n := |ids| - 1;
      var before := NormalizedKeepsTheOrder(ids[..n]);
      FirstAskedSnoc(ids[..n], Normalized(ids[..n]), before, ids[n]);
      assert ids[..n] + [ids[n]] == ids;
      at := if Normalized(ids) == Normalized(ids[..n]) then before else before + [n];
    }
  }

  // ---- adding ------------------------------------------------------------------------

  /** A provider of this name is in the catalogue. */
  ghost predicate Has(t: Template, name: string) {
    exists i :: 0 <= i < |t.providers| && t.providers[i].name == name
  }

  lemma FindIffHas(t: Template, name: string)
    ensures Find(t.providers, name).Some? <==> Has(t, name)
  {
  }

  /** The provider an add asks for: keyed under a Secret of its own name, or public. */
  ghost predicate IsAskedFor(p: Provider, req: Request) {
    && p.name == req.name && req.endpoint == Some(p.endpoint)
    && p.models == Normalized(req.models)
    && p.credential == (if req.apiKey == "" then None else Some("llm-" + req.name))
  }

  /** The catalogue with the provider asked for at its end, and nothing else changed. */
  ghost predicate Appended(t: Template, t': Template, req: Request) {
    && |t'.providers| == |t.providers| + 1 && t.providers <= t'.providers && t'.defaultModel == t.defaultModel
    && IsAskedFor(t'.providers[|t.providers|], req) && ValidProvider(t'.providers[|t.providers|])
  }

  /** The request itself is wrong: no endpoint, both or neither of key and public, or a provider that does not validate. */
  ghost predicate BadAdd(req: Request) {
    req.endpoint.None? || req.isPublic == (req.apiKey != "") || forall p :: IsAskedFor(p, req) ==> !ValidProvider(p)
  }

  /**
    An add appends the provider it asks for exactly when the request is sound, the name
    free and a place left; otherwise it leaves the template alone. A taken name is a
    conflict.
  */
  lemma AddCommitsIff(t: Template, req: Request)
    ensures Added(t, req).0 ==
      if BadAdd(req) then BadRequest else if Has(t, req.name) then Conflict else if |t.providers| >= 32 then BadRequest else Committed
    ensures if Added(t, req).0.Committed? then Appended(t, Added(t, req).1, req) else Added(t, req).1 == t
  {
    FindIffHas(t, req.name);
    if req.endpoint.Some? {
      assert IsAskedFor(NewProvider(req), req);
      assert forall p :: IsAskedFor(p, req) ==> p == NewProvider(req);
    }
  }

  /** A committed add serves every id it was asked for, under its key, from its own endpoint. */
  lemma AddServesItsIds(t: Template, req: Request, id: string)
    requires Added(t, req).0.Committed? && id in req.models && Trim(id) != ""
    ensures exists p :: p in Added(t, req).1.providers && IsAskedFor(p, req) && ModelKey(req.name, id) in Refs(p)
  {
    var t' := Added(t, req).1;
    var p := t'.providers[|t.providers|];
    AddCommitsIff(t, req);
    TrimIdempotent(id);
    assert Trim(id) in p.models;
    assert ModelKey(p.name, Trim(id)) in Refs(p);
    assert ModelKey(p.name, Trim(id)) == ModelKey(req.name, id);
  }

  // ---- updating ----------------------------------------------------------------------

  /**
    What an update makes of a provider: its name stays, endpoint and ids are the
    request's; a new key goes where the provider already keeps one, none and no word of
    public keeps the stored reference, and public clears it.
  */
  ghost predicate IsEdited(before: Provider, after: Provider, req: Request) {
    && after.name == before.name && req.endpoint == Some(after.endpoint) && after.models == Normalized(req.models)
    && (req.apiKey == "" && !req.isPublic ==> after.credential == before.credential)
    && (req.apiKey == "" && req.isPublic ==> after.credential == None)
    && (req.apiKey != "" && before.credential.GetOr("") != "" ==> after.credential == before.credential)
    && (req.apiKey != "" && before.credential.GetOr("") == "" ==> after.credential == Some("llm-" + before.name))
  }

  /** Some instance of the template stores a reference that the change takes away and nobody else serves. */
  ghost predicate StillSelected(t: Template, insts: seq<Instance>, i: nat, kept: set<string>)
    requires i < |t.providers|
  {
    exists x :: x in insts && x.templateRef == "cubepilot" && x.selected in Refs(t.providers[i]) && x.selected !in kept
      && !ServedByAnother(t, i, x.selected)
  }

  ghost predicate ServedByAnother(t: Template, i: nat, ref: string) {
    exists j :: 0 <= j < |t.providers| && j != i && ref in Refs(t.providers[j])
  }

  lemma SelectingIff(t: Template, insts: seq<Instance>, i: nat, kept: set<string>)
    requires i < |t.providers|
    ensures Selecting(insts, Refs(t.providers[i]) - kept - OthersRefs(t.providers, i)) != [] <==> StillSelected(t, insts, i, kept)
  {
    var refs := Refs(t.providers[i]) - kept - OthersRefs(t.providers, i);
    SelectingIsExact(insts, refs);
    assert forall ref :: ref in OthersRefs(t.providers, i) <==> ServedByAnother(t, i, ref);
    if Selecting(insts, refs) != [] {
      assert Selecting(insts, refs)[0] in Selecting(insts, refs);
    }
    if x :| x in insts && x.templateRef == BUILTIN && x.selected in refs {
      assert x in Selecting(insts, refs);
    }
  }

  /** A committed update edits one provider in its place; the default goes only when this edit drops it. */
  lemma UpdateEditsOneProvider(t: Template, insts: seq<Instance>, name: string, req: Request) returns (i: nat)
    requires Updated(t, insts, name, req).0.Committed?
    ensures var t' := Updated(t, insts, name, req).1;
      && i < |t.providers| && t.providers[i].name == name && |t'.providers| == |t.providers|
      && IsEdited(t.providers[i], t'.providers[i], req) && ValidProvider(t'.providers[i])
      && (forall j :: 0 <= j < |t.providers| && j != i ==> t'.providers[j] == t.providers[j])
      && !StillSelected(t, insts, i, Refs(t'.providers[i]))
      && t'.defaultModel == if t.defaultModel in Refs(t.providers[i]) - Refs(t'.providers[i]) then "" else t.defaultModel
  {
    i := Find(t.providers, name).value;
    SelectingIff(t, insts, i, Refs(Edited(t.providers[i], req)));
  }

  lemma EditedIsTheEdit(before: Provider, p: Provider, req: Request)
    requires req.endpoint.Some? && !(req.isPublic && req.apiKey != "")
    ensures IsEdited(before, p, req) <==> p == Edited(before, req)
  {
  }

  /** What an update is answered, in the order of its checks; a refused one leaves the template alone. */
  lemma UpdateAnswers(t: Template, insts: seq<Instance>, name: string, req: Request) returns (i: nat)
    ensures Has(t, name) ==> Named(t, i, name)
    ensures Updated(t, insts, name, req).0 ==
      if req.endpoint.None? || (req.isPublic && req.apiKey != "") then BadRequest
      else if !Has(t, name) then NotFound
      else if BadEdit(t.providers[i], req) then BadRequest
      else if DropsSelected(t, insts, i, req) then Conflict
      else Committed
    ensures !Updated(t, insts, name, req).0.Committed? ==> Updated(t, insts, name, req).1 == t
  {
    FindIffHas(t, name);
    i := 0;
    if Has(t, name) && req.endpoint.Some? && !(req.isPublic && req.apiKey != "") {
      i := Find(t.providers, name).value;
      EditAnswers(t, insts, i, req);
    } else if Has(t, name) {
      i := Find(t.providers, name).value;
    }
  }

  lemma EditAnswers(t: Template, insts: seq<Instance>, i: nat, req: Request)
    requires i < |t.providers| && req.endpoint.Some? && !(req.isPublic && req.apiKey != "")
    ensures var before, after := t.providers[i], Edited(t.providers[i], req);
      && (BadEdit(before, req) <==> (req.apiKey == "" && !req.isPublic && before.credential.None?) || !ValidProvider(after))
      && (DropsSelected(t, insts, i, req) <==> Selecting(insts, Refs(before) - Refs(after) - OthersRefs(t.providers, i)) != [])
  {
    var before, after := t.providers[i], Edited(t.providers[i], req);
    forall p ensures IsEdited(before, p, req) <==> p == after {
      EditedIsTheEdit(before, p, req);
    }
    SelectingIff(t, insts, i, Refs(after));
  }

  predicate Named(t: Template, i: nat, name: string) {
    i < |t.providers| && t.providers[i].name == name
  }

  ghost predicate DropsSelected(t: Template, insts: seq<Instance>, i: nat, req: Request)
    requires i < |t.providers|
  {
    exists p :: IsEdited(t.providers[i], p, req) && StillSelected(t, insts, i, Refs(p))
  }

  /** Neither a key to keep, nor a new one, nor public; or the edited provider is not valid. */
  ghost predicate BadEdit(before: Provider, req: Request) {
    (req.apiKey == "" && !req.isPublic && before.credential.None?) || forall p :: IsEdited(before, p, req) ==> !ValidProvider(p)
  }

  // ---- deleting ----------------------------------------------------------------------

  /** Some instance of the template stores one of these references. */
  ghost predicate AnySelects(insts: seq<Instance>, refs: set<string>) {
    exists x :: x in insts && x.templateRef == "cubepilot" && x.selected in refs
  }

  /** A delete of a provider by this name takes it alone, unless an instance selects one of its references. */
  lemma DeleteTakesOneProvider(t: Template, insts: seq<Instance>, name: string) returns (i: nat)
    ensures Deleted(t, insts, name).0.NotFound? <==> !Has(t, name)
    ensures Has(t, name) ==> Named(t, i, name)
    ensures Has(t, name) ==> Deleted(t, insts, name).0 == if AnySelects(insts, Refs(t.providers[i])) then Conflict else Committed
    ensures !Deleted(t, insts, name).0.Committed? ==> Deleted(t, insts, name).1 == t
    ensures Deleted(t, insts, name).0.Committed? ==>
      var t' := Deleted(t, insts, name).1;
      && t'.providers == t.providers[..i] + t.providers[i + 1..]
      && t'.defaultModel == if t.defaultModel in Refs(t.providers[i]) then "" else t.defaultModel
  {
    FindIffHas(t, name);
    i := 0;
    if Has(t, name) {
      i := Find(t.providers, name).value;
      var refs := Refs(t.providers[i]);
      SelectingIsExact(insts, refs);
      assert Selecting(insts, refs) != [] ==> Selecting(insts, refs)[0] in Selecting(insts, refs);
    }
  }
}

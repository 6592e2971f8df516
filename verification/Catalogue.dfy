/**
  The provider catalogue of the builtin template (internal/server/handlers_llms.go):
  adding, updating and deleting a provider as one write of the template each, and
  the instance selections that must keep resolving (internal/resolver/resolver.go).
*/
module Catalogue {
  import opened Common
  import opened Text
  import opened ModelKeys

  datatype Template = Template(providers: seq<Provider>, defaultModel: string)

  datatype Instance = Instance(name: string, owner: string, templateRef: string, selected: string)

  const BUILTIN := "cubepilot"
  const MAX_PROVIDERS := 32

  // ---- validation ------------------------------------------------------------

  predicate NoBlankChar(id: string) {
    ' ' !in id && '\t' !in id && '\n' !in id && '\r' !in id
  }

  predicate ValidModelID(id: string) {
    && id != "" && id != "*" && Trim(id) == id && NoBlankChar(id)
    && id[0] != '/' && id[|id| - 1] != '/' && Index(id, "//") == None
  }

  predicate ValidModels(ids: seq<string>) {
    && 1 <= |ids| <= 64
    && (forall i, j :: 0 <= i < j < |ids| ==> ids[i] != ids[j])
    && forall i :: 0 <= i < |ids| ==> |ids[i]| <= 256 && ValidModelID(ids[i])
  }

  predicate ValidProvider(p: Provider) {
    && IsLabel(p.name) && 0 < |p.endpoint| <= 2048
    && (p.credential.Some? ==> p.credential.value != "") && ValidModels(p.models)
  }

  predicate UniqueNames(ps: seq<Provider>) {
    forall i, j :: 0 <= i < j < |ps| ==> ps[i].name != ps[j].name
  }

  /** What the API server admits: valid providers under unique names, at most 32, and a default that is served. */
  ghost predicate ValidTemplate(t: Template) {
    && |t.providers| <= MAX_PROVIDERS && UniqueNames(t.providers)
    && (forall i :: 0 <= i < |t.providers| ==> ValidProvider(t.providers[i]))
    && (t.defaultModel == "" || Serves(t.providers, t.defaultModel))
  }

  // ---- references ------------------------------------------------------------

  /** Some provider of the list serves the reference. */
  ghost predicate Serves(ps: seq<Provider>, ref: string) {
    exists i :: 0 <= i < |ps| && ref in Refs(ps[i])
  }

  /** resolveModel finds the trimmed selection. */
  ghost predicate Resolves(t: Template, inst: Instance) {
    Serves(t.providers, Trim(inst.selected))
  }

  method ResolveModel(ps: seq<Provider>, selected: string) returns (ref: Option<string>)
    ensures ref == None || ref == Some(selected)
    ensures ref.Some? <==> Serves(ps, selected)
  {
    var i := 0;
    while i < |ps|
      invariant 0 <= i <= |ps| && forall j :: 0 <= j < i ==> selected !in Refs(ps[j])
    {
      var k := 0;
      while k < |ps[i].models|
        invariant 0 <= k <= |ps[i].models|
        invariant forall j :: 0 <= j < k ==> ModelKey(ps[i].name, ps[i].models[j]) != selected
      {
        if ModelKey(ps[i].name, ps[i].models[k]) == selected {
          assert selected in Refs(ps[i]);
          return Some(selected);
        }
        k := k + 1;
      }
      i := i + 1;
    }
    ref := None;
  }

  method ProviderModelRefs(p: Provider) returns (refs: set<string>)
    ensures refs == Refs(p)
  {
    refs := {};
    for i := 0 to |p.models|
      invariant refs == set id | id in p.models[..i] :: ModelKey(p.name, id)
    {
      assert p.models[..i + 1] == p.models[..i] + [p.models[i]];
      refs := refs + {ModelKey(p.name, p.models[i])};
    }
    assert p.models[..|p.models|] == p.models;
  }

  function OthersRefs(ps: seq<Provider>, edited: nat): set<string> {
    set i, ref | 0 <= i < |ps| && i != edited && ref in Refs(ps[i]) :: ref
  }

  /** References the edit takes out of the catalogue: served before, not kept, served by nobody else. */
  method DroppedModelRefs(ps: seq<Provider>, edited: nat, served: set<string>, kept: set<string>) returns (dropped: set<string>)
    ensures dropped == served - kept - OthersRefs(ps, edited)
  {
    var other: set<string> := {};
    for i := 0 to |ps|
      invariant other == set j, ref | 0 <= j < i && j != edited && ref in Refs(ps[j]) :: ref
    {
      if i != edited {
        var refs := ProviderModelRefs(ps[i]);
        other := other + refs;
      }
    }
    dropped := served - kept - other;
  }

  /** Names of the builtin template's instances whose stored selection is one of the references. */
  function Selecting(insts: seq<Instance>, refs: set<string>): seq<Instance> {
    if insts == [] then []
    else
      var last := insts[|insts| - 1];
      Selecting(insts[..|insts| - 1], refs) + if last.templateRef == BUILTIN && last.selected in refs then [last] else []
  }

  method InstancesSelecting(insts: seq<Instance>, refs: set<string>) returns (out: seq<Instance>)
    ensures out == Selecting(insts, refs)
  {
    out := [];
    for i := 0 to |insts|
      invariant out == Selecting(insts[..i], refs)
    {
      assert insts[..i + 1][..i] == insts[..i];
      if insts[i].templateRef == BUILTIN && insts[i].selected in refs {
        out := out + [insts[i]];
      }
    }
    assert insts[..|insts|] == insts;
  }

  lemma {:induction false} SelectingIsExact(insts: seq<Instance>, refs: set<string>)
    ensures forall x :: x in Selecting(insts, refs) <==> x in insts && x.templateRef == BUILTIN && x.selected in refs
  {
    if insts != [] {
      var n := |insts| - 1;
      SelectingIsExact(insts[..n], refs);
      assert insts == insts[..n] + [insts[n]];
    }
  }

  // ---- requests --------------------------------------------------------------

  /** `name` is the sanitized name and `endpoint` the normalized one, None when rejected. */
  datatype Request = Request(name: string, endpoint: Option<string>, models: seq<string>, apiKey: string, isPublic: bool)

  datatype Reply = Committed | BadRequest | NotFound | Conflict

  function Normalized(ids: seq<string>): (out: seq<string>)
    ensures forall i, j :: 0 <= i < j < |out| ==> out[i] != out[j]
    ensures forall x :: x in out <==> x != "" && exists i :: 0 <= i < |ids| && Trim(ids[i]) == x
  {
    if ids == [] then []
    else
      var before := Normalized(ids[..|ids| - 1]);
      var id := Trim(ids[|ids| - 1]);
      if id == "" || id in before then before else before + [id]
  }

  lemma NormalizedNext(ids: seq<string>, i: nat)
    requires i < |ids|
    ensures var before, id := Normalized(ids[..i]), Trim(ids[i]);
      Normalized(ids[..i + 1]) == if id == "" || id in before then before else before + [id]
  {
    assert ids[..i + 1][..i] == ids[..i];
  }

  method NormalizeModels(ids: seq<string>) returns (out: seq<string>)
    ensures out == Normalized(ids)
  {
    out := [];
    var seen: set<string> := {};
    for i := 0 to |ids|
      invariant out == Normalized(ids[..i]) && forall x :: x in seen <==> x in out
    {
      var id := Trim(ids[i]);
      NormalizedNext(ids, i);
      if id != "" && id !in seen {
        seen := seen + {id};
        out := out + [id];
      }
    }
    assert ids[..|ids|] == ids;
  }

  function CredentialName(provider: string): string {
    "llm-" + provider
  }

  function Find(ps: seq<Provider>, name: string): Option<nat> {
    FindFrom(ps, name, 0)
  }

  function FindFrom(ps: seq<Provider>, name: string, from: nat): (r: Option<nat>)
    requires from <= |ps|
    ensures r.Some? ==> from <= r.value < |ps| && ps[r.value].name == name
    ensures r.None? ==> forall i :: from <= i < |ps| ==> ps[i].name != name
    decreases |ps| - from
  {
    if from == |ps| then None else if ps[from].name == name then Some(from) else FindFrom(ps, name, from + 1)
  }

  function NewProvider(req: Request): Provider {
    Provider(req.name, req.endpoint.GetOr(""), Normalized(req.models),
             if req.apiKey != "" then Some(CredentialName(req.name)) else None)
  }

  function Added(t: Template, req: Request): (Reply, Template) {
    if req.endpoint.None? || req.isPublic == (req.apiKey != "") || !ValidProvider(NewProvider(req)) then (BadRequest, t)
    else if Find(t.providers, req.name).Some? then (Conflict, t)
    else if |t.providers| >= MAX_PROVIDERS then (BadRequest, t)
    else (Committed, t.(providers := t.providers + [NewProvider(req)]))
  }

  /** The stored provider with the request's endpoint, ids and credential choice. */
  function Edited(current: Provider, req: Request): Provider {
    Provider(current.name, req.endpoint.GetOr(""), Normalized(req.models),
      if req.apiKey != "" then
        (if current.credential.Some? && current.credential.value != "" then current.credential else Some(CredentialName(current.name)))
      else if req.isPublic then None
      else current.credential)
  }

  function Updated(t: Template, insts: seq<Instance>, name: string, req: Request): (Reply, Template) {
    if req.endpoint.None? || (req.isPublic && req.apiKey != "") then (BadRequest, t)
    else if Find(t.providers, name).None? then (NotFound, t)
    else
      var idx := Find(t.providers, name).value;
      var current := t.providers[idx];
      var p := Edited(current, req);
      if req.apiKey == "" && !req.isPublic && current.credential.None? then (BadRequest, t)
      else if !ValidProvider(p) then (BadRequest, t)
      else if Selecting(insts, Refs(current) - Refs(p) - OthersRefs(t.providers, idx)) != [] then (Conflict, t)
      else
        (Committed, Template(t.providers[idx := p],
          if t.defaultModel in Refs(current) && t.defaultModel !in Refs(p) then "" else t.defaultModel))
  }

  function Deleted(t: Template, insts: seq<Instance>, name: string): (Reply, Template) {
    if Find(t.providers, name).None? then (NotFound, t)
    else
      var idx := Find(t.providers, name).value;
      var refs := Refs(t.providers[idx]);
      if Selecting(insts, refs) != [] then (Conflict, t)
      else (Committed, Template(t.providers[..idx] + t.providers[idx + 1..], if t.defaultModel in refs then "" else t.defaultModel))
  }

  /** The template the handlers edit; each call reads it, decides, and writes it once. */
  class Server {
    var tmpl: Template
    var instances: seq<Instance>

    constructor (tmpl: Template, instances: seq<Instance>)
      ensures this.tmpl == tmpl && this.instances == instances
    {
      this.tmpl, this.instances := tmpl, instances;
    }

    method IndexOf(name: string) returns (idx: int)
      ensures idx == match Find(tmpl.providers, name) { case Some(i) => i case None => -1 }
    {
      idx := 0;
      while idx < |tmpl.providers|
        invariant 0 <= idx <= |tmpl.providers|
        invariant Find(tmpl.providers, name) == FindFrom(tmpl.providers, name, idx)
      {
        if tmpl.providers[idx].name == name {
          return;
        }
        idx := idx + 1;
      }
      idx := -1;
    }

    method HandleAddLLM(req: Request) returns (reply: Reply)
      modifies this`tmpl
      ensures (reply, tmpl) == Added(old(tmpl), req)
    {
      if req.endpoint.None? || (req.isPublic && req.apiKey != "") || (!req.isPublic && req.apiKey == "") {
        return BadRequest;
      }
      var models := NormalizeModels(req.models);
      var provider := Provider(req.name, req.endpoint.value, models, None);
      if req.apiKey != "" {
        provider := provider.(credential := Some(CredentialName(req.name)));
      }
      if !ValidProvider(provider) {
        return BadRequest;
      }
      var idx := IndexOf(req.name);
      if idx >= 0 {
        return Conflict;
      }
      if |tmpl.providers| >= MAX_PROVIDERS {
        return BadRequest;
      }
      tmpl := tmpl.(providers := tmpl.providers + [provider]);
      reply := Committed;
    }

    method HandleUpdateLLM(name: string, req: Request) returns (reply: Reply)
      modifies this`tmpl
      ensures (reply, tmpl) == Updated(old(tmpl), instances, name, req)
    {
      if req.endpoint.None? || (req.isPublic && req.apiKey != "") {
        return BadRequest;
      }
      var idx := IndexOf(name);
      if idx < 0 {
        return NotFound;
      }
      var current := tmpl.providers[idx];
      if req.apiKey == "" && !req.isPublic && current.credential.None? {
        return BadRequest;
      }
      var models := NormalizeModels(req.models);
      var provider := current.(endpoint := req.endpoint.value, models := models);
      if req.apiKey != "" {
        if current.credential.None? || current.credential.value == "" {
          provider := provider.(credential := Some(CredentialName(current.name)));
        }
      } else if req.isPublic {
        provider := provider.(credential := None);
      }
      assert provider == Edited(current, req);
      if !ValidProvider(provider) {
        return BadRequest;
      }
      var served := ProviderModelRefs(current);
      var kept := ProviderModelRefs(provider);
      var dropped := DroppedModelRefs(tmpl.providers, idx, served, kept);
      var selecting := InstancesSelecting(instances, dropped);
      if selecting != [] {
        return Conflict;
      }
      var default := tmpl.defaultModel;
      if default in served && default !in kept {
        default := "";
      }
      tmpl := Template(tmpl.providers[idx := provider], default);
      reply := Committed;
    }

    method HandleDeleteLLM(name: string) returns (reply: Reply)
      modifies this`tmpl
      ensures (reply, tmpl) == Deleted(old(tmpl), instances, name)
    {
      var idx := IndexOf(name);
      if idx < 0 {
        return NotFound;
      }
      var refs := ProviderModelRefs(tmpl.providers[idx]);
      var selecting := InstancesSelecting(instances, refs);
      if selecting != [] {
        return Conflict;
      }
      var default := tmpl.defaultModel;
      if default in refs {
        default := "";
      }
      tmpl := Template(tmpl.providers[..idx] + tmpl.providers[idx + 1..], default);
      reply := Committed;
    }
  }

  // ---- steps -----------------------------------------------------------------

  datatype Op = Add(req: Request) | Update(name: string, req: Request) | Delete(name: string)

  function Apply(t: Template, insts: seq<Instance>, op: Op): (Reply, Template) {
    match op
    case Add(req) => Added(t, req)
    case Update(name, req) => Updated(t, insts, name, req)
    case Delete(name) => Deleted(t, insts, name)
  }

  /** What each step leaves of the catalogue: every reference but those it drops. */
  lemma AddKeepsRefs(t: Template, req: Request, ref: string)
    requires Serves(t.providers, ref)
    ensures Serves(Added(t, req).1.providers, ref)
  {
    var i :| 0 <= i < |t.providers| && ref in Refs(t.providers[i]);
    assert ref in Refs(Added(t, req).1.providers[i]);
  }

  lemma UpdateKeepsRefs(t: Template, insts: seq<Instance>, name: string, req: Request, ref: string)
    requires Updated(t, insts, name, req).0.Committed?
    ensures var idx := Find(t.providers, name).value;
      Serves(Updated(t, insts, name, req).1.providers, ref) <==>
        ref in OthersRefs(t.providers, idx) || ref in Refs(Edited(t.providers[idx], req))
  {
    var idx := Find(t.providers, name).value;
    var t' := Updated(t, insts, name, req).1;
    if ref in OthersRefs(t.providers, idx) {
      var i :| 0 <= i < |t.providers| && i != idx && ref in Refs(t.providers[i]);
      assert ref in Refs(t'.providers[i]);
    }
    if ref in Refs(Edited(t.providers[idx], req)) {
      assert ref in Refs(t'.providers[idx]);
    }
  }

  lemma ServesConcat(a: seq<Provider>, b: seq<Provider>, ref: string)
    ensures Serves(a + b, ref) <==> Serves(a, ref) || Serves(b, ref)
  {
    var all := a + b;
    if i :| 0 <= i < |a| && ref in Refs(a[i]) {
      assert all[i] == a[i];
    }
    if i :| 0 <= i < |b| && ref in Refs(b[i]) {
      assert all[|a| + i] == b[i];
    }
    if i :| 0 <= i < |all| && ref in Refs(all[i]) {
      assert all[i] == if i < |a| then a[i] else b[i - |a|];
    }
  }

  /** The others are those before and those after. */
  lemma OthersAre(ps: seq<Provider>, idx: nat, ref: string)
    requires idx < |ps|
    ensures ref in OthersRefs(ps, idx) <==> Serves(ps[..idx], ref) || Serves(ps[idx + 1..], ref)
  {
    var a, b := ps[..idx], ps[idx + 1..];
    if i :| 0 <= i < |ps| && i != idx && ref in Refs(ps[i]) {
      assert ps[i] == if i < idx then a[i] else b[i - idx - 1];
    }
    if i :| 0 <= i < |a| && ref in Refs(a[i]) {
      assert ps[i] == a[i];
    }
    if i :| 0 <= i < |b| && ref in Refs(b[i]) {
      assert ps[idx + 1 + i] == b[i];
    }
  }

  lemma DeleteKeepsRefs(t: Template, insts: seq<Instance>, name: string, ref: string)
    requires Deleted(t, insts, name).0.Committed?
    ensures Serves(Deleted(t, insts, name).1.providers, ref) <==> ref in OthersRefs(t.providers, Find(t.providers, name).value)
  {
    var idx := Find(t.providers, name).value;
    ServesConcat(t.providers[..idx], t.providers[idx + 1..], ref);
    OthersAre(t.providers, idx, ref);
  }

  lemma ServesSplits(ps: seq<Provider>, idx: nat, ref: string)
    requires idx < |ps|
    ensures Serves(ps, ref) <==> ref in Refs(ps[idx]) || ref in OthersRefs(ps, idx)
  {
  }

  /** In a valid template no other provider ever serves a provider's references, so every unkept one is dropped. */
  lemma DroppedIsServedMinusKept(t: Template, idx: nat, kept: set<string>)
    requires ValidTemplate(t) && idx < |t.providers|
    ensures Refs(t.providers[idx]) - kept - OthersRefs(t.providers, idx) == Refs(t.providers[idx]) - kept
  {
    var p := t.providers[idx];
    forall ref | ref in Refs(p) ensures ref !in OthersRefs(t.providers, idx) {
      if ref in OthersRefs(t.providers, idx) {
        var id :| id in p.models && ModelKey(p.name, id) == ref;
        var i :| 0 <= i < |t.providers| && i != idx && ref in Refs(t.providers[i]);
        var id' :| id' in t.providers[i].models && ModelKey(t.providers[i].name, id') == ref;
        DistinctProvidersServeDisjointRefs(p.name, t.providers[i].name, id, id');
      }
    }
  }

  /** Every step keeps the template valid: names unique within the cap, providers valid, the default empty or served. */
  lemma StepsKeepTheTemplateValid(t: Template, insts: seq<Instance>, op: Op)
    requires ValidTemplate(t)
    ensures ValidTemplate(Apply(t, insts, op).1)
  {
    match op {
      case Add(req) => AddKeepsValid(t, req);
      case Update(name, req) => UpdateKeepsValid(t, insts, name, req);
      case Delete(name) => DeleteKeepsValid(t, insts, name);
    }
  }

  lemma AddKeepsValid(t: Template, req: Request)
    requires ValidTemplate(t)
    ensures ValidTemplate(Added(t, req).1)
  {
    if t.defaultModel != "" {
      AddKeepsRefs(t, req, t.defaultModel);
    }
  }

  lemma UpdateKeepsValid(t: Template, insts: seq<Instance>, name: string, req: Request)
    requires ValidTemplate(t)
    ensures ValidTemplate(Updated(t, insts, name, req).1)
  {
    if Updated(t, insts, name, req).0.Committed? {
      UpdateKeepsRefs(t, insts, name, req, t.defaultModel);
      ServesSplits(t.providers, Find(t.providers, name).value, t.defaultModel);
    }
  }

  lemma DeleteKeepsValid(t: Template, insts: seq<Instance>, name: string)
    requires ValidTemplate(t)
    ensures ValidTemplate(Deleted(t, insts, name).1)
  {
    if Deleted(t, insts, name).0.Committed? {
      DeleteKeepsRefs(t, insts, name, t.defaultModel);
      ServesSplits(t.providers, Find(t.providers, name).value, t.defaultModel);
    }
  }

  /** The references a step removes from the catalogue. */
  function Lost(t: Template, op: Op): set<string> {
    match op
    case Add(_) => {}
    case Update(name, req) =>
      if Find(t.providers, name).None? then {}
      else var current := t.providers[Find(t.providers, name).value]; Refs(current) - Refs(Edited(current, req))
    case Delete(name) =>
      if Find(t.providers, name).None? then {} else Refs(t.providers[Find(t.providers, name).value])
  }

  /** A committed step leaves a selection unresolved exactly when it loses the trimmed reference. */
  lemma ResolvesAfterIff(t: Template, insts: seq<Instance>, op: Op, inst: Instance)
    requires ValidTemplate(t) && Apply(t, insts, op).0.Committed? && Resolves(t, inst)
    ensures Resolves(Apply(t, insts, op).1, inst) <==> Trim(inst.selected) !in Lost(t, op)
  {
    var ref := Trim(inst.selected);
    match op {
      case Add(req) => AddKeepsRefs(t, req, ref);
      case Update(name, req) =>
        var idx := Find(t.providers, name).value;
        UpdateKeepsRefs(t, insts, name, req, ref);
        ServesSplits(t.providers, idx, ref);
        DroppedIsServedMinusKept(t, idx, {});
      case Delete(name) =>
        var idx := Find(t.providers, name).value;
        DeleteKeepsRefs(t, insts, name, ref);
        ServesSplits(t.providers, idx, ref);
        DroppedIsServedMinusKept(t, idx, {});
    }
  }

  /** The refusal: a committed step loses no reference stored, as it stands, by an instance of the template. */
  lemma CommittedLosesNoStoredSelection(t: Template, insts: seq<Instance>, op: Op, inst: Instance)
    requires ValidTemplate(t) && Apply(t, insts, op).0.Committed? && inst in insts && inst.templateRef == BUILTIN
    ensures inst.selected !in Lost(t, op)
  {
    match op {
      case Add(_) =>
      case Update(name, req) =>
        var idx := Find(t.providers, name).value;
        var kept := Refs(Edited(t.providers[idx], req));
        DroppedIsServedMinusKept(t, idx, kept);
        SelectingIsExact(insts, Refs(t.providers[idx]) - kept);
        assert Selecting(insts, Refs(t.providers[idx]) - kept) == [];
      case Delete(name) =>
        SelectingIsExact(insts, Refs(t.providers[Find(t.providers, name).value]));
    }
  }

  /**
    A selection that resolves before any step still resolves after it, unless it is
    stored with white space around a reference the step loses: the resolver trims
    what the refusal compares as it stands.
  */
  lemma SelectionsSurviveUnlessStoredUntrimmed(t: Template, insts: seq<Instance>, op: Op, inst: Instance)
    requires ValidTemplate(t) && inst in insts && inst.templateRef == BUILTIN && Resolves(t, inst)
    ensures var (reply, t') := Apply(t, insts, op);
      Resolves(t', inst) <==> !(reply.Committed? && inst.selected != Trim(inst.selected) && Trim(inst.selected) in Lost(t, op))
  {
    if Apply(t, insts, op).0.Committed? {
      ResolvesAfterIff(t, insts, op, inst);
      CommittedLosesNoStoredSelection(t, insts, op, inst);
    }
  }

  /** Such a selection: deleting its provider is not refused, and it stops resolving. */
  lemma UntrimmedSelectionIsStranded()
    ensures var p := Provider("p", "http://e", ["m"], None);
      var t, inst := Template([p], ""), Instance("i", "u", BUILTIN, " p/m");
      && Deleted(t, [inst], "p").0.Committed?
      && Resolves(t, inst) && !Resolves(Deleted(t, [inst], "p").1, inst)
  {
    var p := Provider("p", "http://e", ["m"], None);
    var t, inst := Template([p], ""), Instance("i", "u", BUILTIN, " p/m");
    TrimmedIsOwnTrim("p");
    TrimmedIsOwnTrim("m");
    TrimCore(" ", "p/m", "");
    assert " " + "p/m" + "" == " p/m";
    assert ModelKey("p", "m") == "p/m" by {
      assert |Lower("m")| == 1 && |Lower("p") + "/"| == 2;
      assert "p" + "/" + "m" == "p/m";
    }
    assert "m" in p.models && Refs(p) == {"p/m"};
    assert "p/m" in Refs(t.providers[0]);
    SelectingIsExact([inst], Refs(p));
    assert Selecting([inst], Refs(p)) == [];
    assert t.providers[..0] + t.providers[1..] == [];
  }
}

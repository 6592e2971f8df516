/** The canonical model reference (internal/gateway/modelkey.go) and what its users rest on. */
module ModelKeys {
  import opened Common
  import opened Text

  const KELVIN: char := '\U{212A}'
  const DOTTED_I: char := '\U{0130}'

  predicate IsUpper(c: char) {
    'A' <= c <= 'Z'
  }

  function LowerAsciiChar(c: char): (d: char)
    ensures IsUpper(c) ==> 'a' <= d <= 'z'
  {
    if IsUpper(c) then (c as int + 32) as char else c
  }

  /**
    strings.ToLower on one rune. Beyond ASCII only the Kelvin sign and the dotted
    capital I have an ASCII lower case; the others stand for themselves here, which
    no comparison with an ASCII provider name can tell apart.
  */
  function LowerChar(c: char): char {
    if c == KELVIN then 'k' else if c == DOTTED_I then 'i' else LowerAsciiChar(c)
  }

  function Lower(s: string): string {
    seq(|s|, i requires 0 <= i < |s| => LowerChar(s[i]))
  }

  function LowerAscii(s: string): string {
    seq(|s|, i requires 0 <= i < |s| => LowerAsciiChar(s[i]))
  }

  function ModelKey(provider: string, modelID: string): string {
    var p, model := Trim(provider), Trim(modelID);
    if p == "" then model
    else if model == "" then p
    else if Lower(p) + "/" <= Lower(model) then model
    else p + "/" + model
  }

  /** A lowercase DNS-1123 label. */
  predicate IsLabelChar(c: char) {
    'a' <= c <= 'z' || '0' <= c <= '9' || c == '-'
  }

  predicate IsLabel(s: string) {
    && 0 < |s| <= 63 && (forall i :: 0 <= i < |s| ==> IsLabelChar(s[i]))
    && s[0] != '-' && s[|s| - 1] != '-'
  }

  lemma TrimmedIsOwnTrim(s: string)
    requires Trimmed(s)
    ensures Trim(s) == s
  {
    TrimCore([], s, []);
    assert [] + s + [] == s;
  }

  lemma LabelChars(p: string)
    requires IsLabel(p)
    ensures Trimmed(p) && forall i :: 0 <= i < |p| ==> LowerChar(p[i]) == LowerAsciiChar(p[i]) == p[i] && p[i] != '/'
  {
    forall i | 0 <= i < |p| ensures LowerChar(p[i]) == LowerAsciiChar(p[i]) == p[i] && p[i] != '/' && !IsSpace(p[i]) {
      assert IsLabelChar(p[i]);
    }
  }

  lemma LabelIsPlain(p: string)
    requires IsLabel(p)
    ensures Trim(p) == p && Lower(p) == p && LowerAscii(p) == p && '/' !in p
  {
    LabelChars(p);
    TrimmedIsOwnTrim(p);
  }

  /** A reference's lower case begins with its provider's name and a slash, or is the bare name of a blank id. */
  lemma KeyNamesItsProvider(p: string, id: string)
    requires IsLabel(p)
    ensures var r := ModelKey(p, id); if Trim(id) == "" then r == p else p + "/" <= Lower(r)
  {
    LabelIsPlain(p);
    var m := Trim(id);
    if m != "" && !(p + "/" <= Lower(m)) {
      var r := p + "/" + m;
      assert forall i :: 0 <= i < |p| ==> Lower(r)[i] == p[i];
      assert Lower(r)[|p|] == '/';
      assert Lower(r)[..|p| + 1] == p + "/";
    }
  }

  /** One letter of an id stands for one of a provider's name, upper case or not; two letters beyond ASCII do too. */
  predicate StandsFor(c: char, d: char) {
    c == d || ('A' <= c <= 'Z' && c as int + 32 == d as int) || (c == KELVIN && d == 'k') || (c == DOTTED_I && d == 'i')
  }

  predicate SpellsPrefix(p: string, id: string) {
    |p| < |id| && id[|p|] == '/' && forall i :: 0 <= i < |p| ==> StandsFor(id[i], p[i])
  }

  /**
    The key is the id without the white space around it, as it stands if it spells its
    provider's prefix, and behind that prefix otherwise.
  */
  lemma KeyKeepsTheId(p: string, a: string, id: string, b: string)
    requires IsLabel(p) && Blank(a) && Blank(b) && Trimmed(id) && id != ""
    ensures ModelKey(p, a + id + b) == if SpellsPrefix(p, id) then id else p + "/" + id
  {
    LabelIsPlain(p);
    TrimCore(a, id, b);
    assert forall i :: 0 <= i < |id| ==> Lower(id)[i] == LowerChar(id[i]);
    if p + "/" <= Lower(id) {
      assert Lower(id)[|p|] == (p + "/")[|p|];
      assert forall i :: 0 <= i < |p| ==> Lower(id)[i] == (p + "/")[i] == p[i];
    }
    if SpellsPrefix(p, id) {
      assert forall i :: 0 <= i < |p| ==> IsLabelChar(p[i]) && Lower(id)[i] == p[i];
      assert Lower(id)[..|p| + 1] == p + "/";
    }
  }

  lemma OnePrefix(p: string, q: string, s: string)
    requires p + "/" <= s && q + "/" <= s && '/' !in p && '/' !in q
    ensures p == q
  {
    assert s[|p|] == (p + "/")[|p|] && s[|q|] == (q + "/")[|q|];
    assert forall i :: 0 <= i < |p| ==> s[i] == (p + "/")[i] == p[i];
    assert forall i :: 0 <= i < |q| ==> s[i] == (q + "/")[i] == q[i];
    assert s[|p|] == '/' && s[|q|] == '/';
    assert forall i :: 0 <= i < |p| || 0 <= i < |q| ==> s[i] != '/';
    assert |p| == |q|;
    assert p == s[..|p|] && q == s[..|q|];
  }

  lemma PrefixHasSlash(p: string, q: string)
    requires p + "/" <= q
    ensures '/' in q
  {
    assert q[|p|] == (p + "/")[|p|];
  }

  /** Two different providers never serve one reference, whatever their ids. */
  lemma DistinctProvidersServeDisjointRefs(p: string, q: string, id: string, id': string)
    requires IsLabel(p) && IsLabel(q) && ModelKey(p, id) == ModelKey(q, id')
    ensures p == q
  {
    var r := ModelKey(p, id);
    KeyNamesItsProvider(p, id);
    KeyNamesItsProvider(q, id');
    LabelIsPlain(p);
    LabelIsPlain(q);
    if Trim(id) != "" && Trim(id') != "" {
      OnePrefix(p, q, Lower(r));
    } else if Trim(id) != "" {
      PrefixHasSlash(p, q);
    } else if Trim(id') != "" {
      PrefixHasSlash(q, p);
    }
  }

  function Folded(fold: char -> char, s: string): string {
    seq(|s|, i requires 0 <= i < |s| => fold(s[i]))
  }

  /** The model key under any lower-casing of single characters. */
  function KeyWith(fold: char -> char, provider: string, modelID: string): string {
    var p, model := Trim(provider), Trim(modelID);
    if p == "" then model
    else if model == "" then p
    else if Folded(fold, p) + "/" <= Folded(fold, model) then model
    else p + "/" + model
  }

  lemma ModelKeyFolds(provider: string, id: string)
    ensures ModelKey(provider, id) == KeyWith(LowerChar, provider, id)
  {
    assert forall s: string :: Folded(LowerChar, s) == Lower(s);
  }

  /** Whatever letters the folding maps, and however: only the slash must stand for itself. */
  lemma KeyIsIdempotentUnderAnyFold(fold: char -> char, provider: string, id: string)
    requires fold('/') == '/'
    ensures KeyWith(fold, provider, KeyWith(fold, provider, id)) == KeyWith(fold, provider, id) <==> Trim(id) != "" || Trim(provider) == ""
  {
    var p, m := Trim(provider), Trim(id);
    TrimIdempotent(provider);
    TrimIdempotent(id);
    var r := KeyWith(fold, provider, id);
    if p != "" && m == "" {
      assert |Folded(fold, p) + "/"| > |Folded(fold, p)|;
      assert |p + "/" + p| > |p|;
    } else if p != "" && !(Folded(fold, p) + "/" <= Folded(fold, m)) {
      TrimmedIsOwnTrim(r);
      assert Folded(fold, r)[..|p| + 1] == Folded(fold, p) + "/" by {
        assert forall i :: 0 <= i < |p| ==> Folded(fold, r)[i] == Folded(fold, p)[i];
      }
    }
  }

  /** Keying a key changes nothing, exactly when the id is not blank or there is no provider to prefix. */
  lemma KeyIsIdempotentIffIdNotBlank(provider: string, id: string)
    ensures ModelKey(provider, ModelKey(provider, id)) == ModelKey(provider, id) <==> Trim(id) != "" || Trim(provider) == ""
  {
    ModelKeyFolds(provider, id);
    ModelKeyFolds(provider, ModelKey(provider, id));
    KeyIsIdempotentUnderAnyFold(LowerChar, provider, id);
  }

  // ---- the API server's rule -------------------------------------------------

  /** The reference the defaultModel rule of the custom resource computes, which lowercases ASCII only. */
  function CelRef(provider: string, id: string): string {
    if provider + "/" <= LowerAscii(id) then id else provider + "/" + id
  }

  predicate FoldsBeyondAscii(c: char) {
    c == KELVIN || c == DOTTED_I
  }

  predicate PlainPrefix(id: string, n: nat) {
    n <= |id| && forall i :: 0 <= i < n ==> !FoldsBeyondAscii(id[i])
  }

  lemma AsciiPrefixIsPlain(p: string, id: string)
    requires IsLabel(p) && p + "/" <= LowerAscii(id)
    ensures p + "/" <= Lower(id) && PlainPrefix(id, |p|)
  {
    var n := |p|;
    assert (p + "/")[n] == '/' && LowerAscii(id)[n] == (p + "/")[n];
    assert forall i :: 0 <= i < n ==> (p + "/")[i] == p[i];
    assert forall i :: 0 <= i < n ==> LowerAscii(id)[i] == p[i] && IsLabelChar(p[i]) && !FoldsBeyondAscii(id[i]);
    assert Lower(id)[..n + 1] == p + "/";
  }

  lemma PlainPrefixIsAscii(p: string, id: string)
    requires p + "/" <= Lower(id) && PlainPrefix(id, |p|)
    ensures p + "/" <= LowerAscii(id)
  {
    var n := |p|;
    assert (p + "/")[n] == '/' && Lower(id)[n] == (p + "/")[n];
    assert forall i :: 0 <= i < n ==> Lower(id)[i] == (p + "/")[i];
    assert LowerAscii(id)[..n + 1] == p + "/";
  }

  /**
    The platform's reference and the API server's are the same, except for an id
    that spells its provider's prefix with a letter only Unicode folds to ASCII.
  */
  lemma CelAgreesUnlessTheIdFoldsBeyondAscii(p: string, id: string)
    requires IsLabel(p) && id != "" && Trim(id) == id
    ensures ModelKey(p, id) == CelRef(p, id) <==>
      (p + "/" <= Lower(id) ==> PlainPrefix(id, |p|))
  {
    LabelIsPlain(p);
    if p + "/" <= LowerAscii(id) {
      AsciiPrefixIsPlain(p, id);
    }
    if p + "/" <= Lower(id) && PlainPrefix(id, |p|) {
      PlainPrefixIsAscii(p, id);
    }
    assert |p + "/" + id| > |id|;
  }

  /** Such an id exists and is accepted: provider "k8s" and an id spelling its prefix with the Kelvin sign. */
  lemma KelvinIdIsKeyedDifferently()
    ensures var id := [KELVIN] + "8s/x";
      IsLabel("k8s") && Trim(id) == id && ModelKey("k8s", id) == id && CelRef("k8s", id) == "k8s/" + id
  {
    var id := [KELVIN] + "8s/x";
    TrimmedIsOwnTrim(id);
    TrimmedIsOwnTrim("k8s");
    assert Lower("k8s") == "k8s";
    assert Lower(id) == "k8s/x";
    assert "k8s/x"[..4] == "k8s/";
    assert LowerAscii(id)[0] == KELVIN;
    assert "k8s" + "/" == "k8s/";
  }

  // ---- providers ---------------------------------------------------------------

  /** A model provider as a template declares it. */
  datatype Provider = Provider(name: string, endpoint: string, models: seq<string>, credential: Option<string>)

  /** The image of the model key over the provider's ids. */
  function Refs(p: Provider): set<string> {
    set id | id in p.models :: ModelKey(p.name, id)
  }
}

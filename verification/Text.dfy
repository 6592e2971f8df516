/** Searching, trimming and ordering strings, with the few facts the protocols rest on. */
module Text {
  import opened Common

  // ---- searching -----------------------------------------------------------

  predicate OccursAt(s: string, p: string, i: nat) {
    i + |p| <= |s| && s[i..i + |p|] == p
  }

  ghost predicate Contains(s: string, p: string) {
    exists i: nat :: OccursAt(s, p, i)
  }

  /** `r` is the first occurrence of p in s. */
  ghost predicate IsIndex(s: string, p: string, r: Option<nat>) {
    match r
    case Some(i) => OccursAt(s, p, i) && forall k: nat :: k < i ==> !OccursAt(s, p, k)
    case None => !Contains(s, p)
  }

  function IndexFrom(s: string, p: string, from: nat): (r: Option<nat>)
    ensures r.Some? ==> from <= r.value && OccursAt(s, p, r.value) && forall k: nat :: from <= k < r.value ==> !OccursAt(s, p, k)
    ensures r.None? ==> forall k: nat :: from <= k ==> !OccursAt(s, p, k)
    decreases |s| - from
  {
    if from + |p| > |s| then None
    else if OccursAt(s, p, from) then Some(from)
    else if from == |s| then None
    else IndexFrom(s, p, from + 1)
  }

  function Index(s: string, p: string): (r: Option<nat>)
    ensures IsIndex(s, p, r)
  {
    IndexFrom(s, p, 0)
  }

  lemma IndexUnique(s: string, p: string, r: Option<nat>)
    requires IsIndex(s, p, r)
    ensures Index(s, p) == r
  {
  }

  ghost predicate NoNewline(p: string) {
    '\n' !in p
  }

  /** An occurrence that stays within `a`, `sep` or `b` of a concatenation. */
  lemma OccursInLeft(a: string, b: string, p: string, i: nat)
    requires i + |p| <= |a|
    ensures OccursAt(a + b, p, i) <==> OccursAt(a, p, i)
  {
    assert (a + b)[i..i + |p|] == a[i..i + |p|];
  }

  lemma OccursInRight(a: string, b: string, p: string, i: nat)
    requires i >= |a|
    ensures OccursAt(a + b, p, i) <==> OccursAt(b, p, i - |a|)
  {
    if i + |p| <= |a + b| {
      assert (a + b)[i..i + |p|] == b[i - |a|..i - |a| + |p|];
    }
  }

  lemma CharOfOccurrence(s: string, p: string, i: nat, k: nat)
    requires OccursAt(s, p, i) && i <= k < i + |p|
    ensures s[k] in p
  {
    assert s[i..i + |p|][k - i] == s[k];
  }

  /** A pattern without newlines never straddles a newline. */
  lemma NoStraddle(a: string, b: string, p: string, i: nat)
    requires NoNewline(p) && p != [] && OccursAt(a + "\n" + b, p, i)
    ensures (i + |p| <= |a| && OccursAt(a, p, i)) || (i > |a| && OccursAt(b, p, i - |a| - 1))
  {
    var s := a + "\n" + b;
    assert s == a + ("\n" + b);
    assert s[|a|] == '\n';
    if i <= |a| && |a| < i + |p| {
      CharOfOccurrence(s, p, i, |a|);
    }
    if i + |p| <= |a| {
      OccursInLeft(a, "\n" + b, p, i);
    } else {
      OccursInRight(a + "\n", b, p, i);
    }
  }

  lemma ContainsAcrossNewline(a: string, b: string, p: string)
    requires NoNewline(p) && p != [] && !Contains(a, p) && !Contains(b, p)
    ensures !Contains(a + "\n" + b, p)
  {
    forall i: nat ensures !OccursAt(a + "\n" + b, p, i) {
      if OccursAt(a + "\n" + b, p, i) {
        NoStraddle(a, b, p, i);
      }
    }
  }

  /** The first occurrence after a prefix that holds none and ends with a newline. */
  lemma IndexAfterLine(a: string, b: string, p: string)
    requires NoNewline(p) && p != [] && !Contains(a, p) && OccursAt(b, p, 0)
    ensures Index(a + "\n" + b, p) == Some(|a| + 1)
  {
    OccursInRight(a + "\n", b, p, |a| + 1);
    forall k: nat | k < |a| + 1 ensures !OccursAt(a + "\n" + b, p, k) {
      if OccursAt(a + "\n" + b, p, k) {
        NoStraddle(a, b, p, k);
      }
    }
    IndexUnique(a + "\n" + b, p, Some(|a| + 1));
  }

  lemma SliceOfSlice<T>(s: seq<T>, i: nat, j: nat, k: nat, l: nat)
    requires i <= j <= |s| && k <= l <= j - i
    ensures s[i..j][k..l] == s[i + k..i + l]
  {
    var a, b := s[i..j][k..l], s[i + k..i + l];
    forall x | 0 <= x < l - k ensures a[x] == b[x] {
    }
  }

  lemma ContainsSub(s: string, i: nat, j: nat, p: string)
    requires i <= j <= |s| && Contains(s[i..j], p)
    ensures Contains(s, p)
  {
    var k: nat :| OccursAt(s[i..j], p, k);
    SliceOfSlice(s, i, j, k, k + |p|);
    assert OccursAt(s, p, i + k);
  }

  // ---- trimming ------------------------------------------------------------

  /** unicode.IsSpace. */
  predicate IsSpace(c: char) {
    || '\t' <= c <= '\r' || c == ' ' || c == '\U{0085}' || c == '\U{00A0}' || c == '\U{1680}'
    || '\U{2000}' <= c <= '\U{200A}' || c == '\U{2028}' || c == '\U{2029}' || c == '\U{202F}'
    || c == '\U{205F}' || c == '\U{3000}'
  }

  predicate Blank(s: string) {
    forall i :: 0 <= i < |s| ==> IsSpace(s[i])
  }

  function TrimLeft(s: string): string {
    if s != [] && IsSpace(s[0]) then TrimLeft(s[1..]) else s
  }

  function TrimRight(s: string): string {
    if s != [] && IsSpace(s[|s| - 1]) then TrimRight(s[..|s| - 1]) else s
  }

  function Trim(s: string): string {
    TrimRight(TrimLeft(s))
  }

  /** Neither end is white space. */
  predicate Trimmed(s: string) {
    s != [] ==> !IsSpace(s[0]) && !IsSpace(s[|s| - 1])
  }

  lemma {:induction false} TrimLeftIs(ws: string, s: string)
    requires Blank(ws) && (s != [] ==> !IsSpace(s[0]))
    ensures TrimLeft(ws + s) == s
  {
    if ws == [] {
      assert ws + s == s;
    } else {
      assert (ws + s)[1..] == ws[1..] + s;
      TrimLeftIs(ws[1..], s);
    }
  }

  lemma {:induction false} TrimRightIs(s: string, ws: string)
    requires Blank(ws) && (s != [] ==> !IsSpace(s[|s| - 1]))
    ensures TrimRight(s + ws) == s
  {
    if ws == [] {
      assert s + ws == s;
    } else {
      assert (s + ws)[..|s + ws| - 1] == s + ws[..|ws| - 1];
      TrimRightIs(s, ws[..|ws| - 1]);
    }
  }

  /** A trimmed core inside white space is what Trim returns. */
  lemma TrimCore(a: string, core: string, b: string)
    requires Blank(a) && Blank(b) && Trimmed(core)
    ensures Trim(a + core + b) == core
  {
    if core == [] {
      assert a + core + b == (a + b) + [];
      TrimLeftIs(a + b, []);
    } else {
      assert a + core + b == a + (core + b);
      TrimLeftIs(a, core + b);
      TrimRightIs(core, b);
    }
  }

  lemma {:induction false} TrimLeftSplit(s: string) returns (k: nat)
    ensures k <= |s| && Blank(s[..k]) && TrimLeft(s) == s[k..]
    ensures k < |s| ==> !IsSpace(s[k])
  {
    if s != [] && IsSpace(s[0]) {
      var k' := TrimLeftSplit(s[1..]);
      k := k' + 1;
      assert s[1..][k'..] == s[k..];
      forall i | 0 <= i < |s[..k]| ensures IsSpace(s[..k][i]) {
        assert s[..k][i] == s[i];
        assert 0 < i ==> s[1..][..k'][i - 1] == s[i];
      }
    } else {
      k := 0;
    }
  }

  lemma {:induction false} TrimRightSplit(s: string) returns (k: nat)
    ensures k <= |s| && Blank(s[k..]) && TrimRight(s) == s[..k]
    ensures 0 < k ==> !IsSpace(s[k - 1])
  {
    if s != [] && IsSpace(s[|s| - 1]) {
      var n := |s| - 1;
      k := TrimRightSplit(s[..n]);
      assert s[..n][..k] == s[..k];
      forall i | 0 <= i < |s[k..]| ensures IsSpace(s[k..][i]) {
        assert s[k..][i] == s[k + i];
        assert k + i < n ==> s[..n][k..][i] == s[k + i];
      }
    } else {
      k := |s|;
    }
  }

  /** Trim cuts white space off both ends and nothing else. */
  lemma TrimSplits(s: string) returns (i: nat, j: nat)
    ensures i <= j <= |s| && Trim(s) == s[i..j] && Trimmed(Trim(s))
    ensures Blank(s[..i]) && Blank(s[j..])
  {
    i := TrimLeftSplit(s);
    var k := TrimRightSplit(s[i..]);
    j := i + k;
    assert s[i..][..k] == s[i..j];
    assert s[i..][k..] == s[j..];
  }

  lemma BlankEnds(s: string, i: nat, j: nat, k: nat)
    requires i <= |s| && j <= |s| && k < |s| && Blank(s[..i]) && Blank(s[j..])
    ensures !IsSpace(s[k]) ==> i <= k < j
  {
    assert k < i ==> s[..i][k] == s[k];
    assert j <= k ==> s[j..][k - j] == s[k];
  }

  lemma TrimIdempotent(s: string)
    ensures Trimmed(Trim(s)) && Trim(Trim(s)) == Trim(s)
    ensures |Trim(s)| <= |s|
    ensures forall p :: Contains(Trim(s), p) ==> Contains(s, p)
  {
    var i, j := TrimSplits(s);
    TrimCore([], Trim(s), []);
    assert [] + Trim(s) + [] == Trim(s);
    forall p | Contains(Trim(s), p) ensures Contains(s, p) {
      ContainsSub(s, i, j, p);
    }
  }

  // ---- lexicographic order, and sorting by it ------------------------------------

  predicate Before(a: string, b: string)
    decreases |a|
  {
    b != "" && (a == "" || a[0] < b[0] || (a[0] == b[0] && Before(a[1..], b[1..])))
  }

  lemma {:induction false} BeforeIsTotal(a: string, b: string)
    ensures a == b || Before(a, b) || Before(b, a)
    decreases |a|
  {
    if a != "" && b != "" && a[0] == b[0] {
      BeforeIsTotal(a[1..], b[1..]);
      assert a == [a[0]] + a[1..] && b == [b[0]] + b[1..];
    }
  }

  lemma {:induction false} BeforeIsTransitive(a: string, b: string, c: string)
    requires Before(a, b) && Before(b, c)
    ensures Before(a, c)
    decreases |a|
  {
    if a != "" && a[0] == b[0] && b[0] == c[0] {
      BeforeIsTransitive(a[1..], b[1..], c[1..]);
    }
  }

  lemma {:induction false} BeforeIsStrict(a: string)
    ensures !Before(a, a)
    decreases |a|
  {
    if a != "" {
      BeforeIsStrict(a[1..]);
    }
  }

  predicate StrictlySorted(s: seq<string>) {
    forall i :: 0 < i < |s| ==> Before(s[i - 1], s[i])
  }

  /** Neighbours in order are everybody in order. */
  lemma {:induction false} SortedPairwise(s: seq<string>, i: nat, j: nat)
    requires StrictlySorted(s) && i < j < |s|
    ensures Before(s[i], s[j])
    decreases j
  {
    if i < j - 1 {
      SortedPairwise(s, i, j - 1);
      BeforeIsTransitive(s[i], s[j - 1], s[j]);
    }
  }

  function Insert(s: seq<string>, x: string): (r: seq<string>)
    requires StrictlySorted(s) && x !in s
    ensures StrictlySorted(r) && (forall y :: y in r <==> y == x || y in s)
    ensures r[0] == x || (s != [] && r[0] == s[0])
  {
    if s == [] then [x]
    else
      BeforeIsTotal(x, s[0]);
      if Before(x, s[0]) then [x] + s
      else
        var t := Insert(s[1..], x);
        assert s == [s[0]] + s[1..];
        [s[0]] + t
  }

  /** The sorted sequence of distinct strings. */
  function Sorted(s: seq<string>): (r: seq<string>)
    requires Distinct(s)
    ensures StrictlySorted(r) && forall y :: y in r <==> y in s
  {
    if s == [] then []
    else
      assert s == s[..|s| - 1] + [s[|s| - 1]];
      Insert(Sorted(s[..|s| - 1]), s[|s| - 1])
  }

  lemma NonEmptyHasAMember(b: seq<string>)
    ensures b != [] ==> exists x :: x in b
  {
    if b != [] {
      assert b[0] in b;
    }
  }

  /** A strictly sorted sequence is determined by its members. */
  lemma {:induction false} SortedUnique(a: seq<string>, b: seq<string>)
    requires StrictlySorted(a) && StrictlySorted(b) && forall x :: x in a <==> x in b
    ensures a == b
  {
    if a == [] {
      NonEmptyHasAMember(b);
    } else {
      SameFirst(a, b);
      TailMembers(a);
      TailMembers(b);
      SortedUnique(a[1..], b[1..]);
      assert a == [a[0]] + a[1..] && b == [b[0]] + b[1..];
    }
  }

  lemma NotInTail(a: seq<string>)
    requires StrictlySorted(a) && a != []
    ensures a[0] !in a[1..] && forall x :: x in a && x != a[0] ==> Before(a[0], x)
  {
    forall j: nat | 0 < j < |a| ensures Before(a[0], a[j]) && a[j] != a[0] {
      SortedPairwise(a, 0, j);
      BeforeIsStrict(a[0]);
    }
  }

  lemma TailMembers(a: seq<string>)
    requires StrictlySorted(a) && a != []
    ensures forall x :: x in a[1..] <==> x in a && x != a[0]
  {
    NotInTail(a);
    forall x ensures x in a[1..] <==> x in a && x != a[0] {
      if x in a && x != a[0] {
        var i :| 0 <= i < |a| && a[i] == x;
        assert a[1..][i - 1] == x;
      }
    }
  }

  lemma SameFirst(a: seq<string>, b: seq<string>)
    requires StrictlySorted(a) && StrictlySorted(b) && a != [] && forall x :: x in a <==> x in b
    ensures b != [] && a[0] == b[0]
  {
    assert a[0] in b && b[0] in b;
    if a[0] != b[0] {
      NotInTail(a);
      NotInTail(b);
      BeforeIsTransitive(a[0], b[0], a[0]);
      BeforeIsStrict(a[0]);
    }
  }
}

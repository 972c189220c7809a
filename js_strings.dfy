/** The string operations the routes and pages use: `trim`, `startsWith`
    and `includes`, with JavaScript's notion of white space. */
module JsStrings {

  /** ECMAScript WhiteSpace and LineTerminator code points: what `trim`
      removes. */
  predicate IsSpace(c: char) {
    || c == '\t' || c == '\n' || c == '\U{000B}' || c == '\U{000C}' || c == '\r' || c == ' '
    || c == '\U{00A0}' || c == '\U{1680}' || ('\U{2000}' <= c <= '\U{200A}')
    || c == '\U{2028}' || c == '\U{2029}' || c == '\U{202F}' || c == '\U{205F}'
    || c == '\U{3000}' || c == '\U{FEFF}'
  }

  /** `s.startsWith(p)`. */
  predicate StartsWith(s: string, p: string) {
    |p| <= |s| && s[..|p|] == p
  }

  /** `s.includes(p)`: p occurs somewhere in s. */
  predicate Contains(s: string, p: string) {
    StartsWith(s, p) || (s != [] && Contains(s[1..], p))
  }

  /** The first index at or after i that does not hold white space (|s|
      when there is none). */
  function SpaceEnd(s: string, i: nat): (k: nat)
    requires i <= |s|
    ensures i <= k <= |s|
    ensures forall j :: i <= j < k ==> IsSpace(s[j])
    ensures k < |s| ==> !IsSpace(s[k])
    decreases |s| - i
  {
    if i < |s| && IsSpace(s[i]) then SpaceEnd(s, i + 1) else i
  }

  /** The start of the run of white space that ends at j. */
  function SpaceStart(s: string, j: nat): (k: nat)
    requires j <= |s|
    ensures k <= j
    ensures forall i :: k <= i < j ==> IsSpace(s[i])
    ensures k > 0 ==> !IsSpace(s[k - 1])
  {
    if j > 0 && IsSpace(s[j - 1]) then SpaceStart(s, j - 1) else j
  }

  /** The two scans are determined by what they promise. */
  lemma SpaceEndUnique(s: string, i: nat, k: nat)
    requires i <= k <= |s|
    requires forall j :: i <= j < k ==> IsSpace(s[j])
    requires k < |s| ==> !IsSpace(s[k])
    ensures SpaceEnd(s, i) == k
  {
  }

  lemma SpaceStartUnique(s: string, j: nat, k: nat)
    requires k <= j <= |s|
    requires forall i :: k <= i < j ==> IsSpace(s[i])
    requires k > 0 ==> !IsSpace(s[k - 1])
    ensures SpaceStart(s, j) == k
  {
  }

  /** White space is removed from the front and nothing else: the result is
      a suffix of s that does not begin with white space. */
  function TrimStart(s: string): (r: string)
    ensures |r| <= |s| && r == s[|s| - |r|..]
    ensures forall i :: 0 <= i < |s| - |r| ==> IsSpace(s[i])
    ensures r != [] ==> !IsSpace(r[0])
  {
    s[SpaceEnd(s, 0)..]
  }

  /** White space is removed from the end and nothing else: the result is a
      prefix of s that does not end with white space. */
  function TrimEnd(s: string): (r: string)
    ensures |r| <= |s| && r == s[..|r|]
    ensures forall i :: |r| <= i < |s| ==> IsSpace(s[i])
    ensures r != [] ==> !IsSpace(r[|r| - 1])
  {
    s[..SpaceStart(s, |s|)]
  }

  /** `s.trim()`. */
  function Trim(s: string): string {
    TrimEnd(TrimStart(s))
  }

  /** The trimmed string is a slice of s with white space, and only white
      space, cut from both ends. */
  lemma TrimIsSlice(s: string) returns (a: nat, b: nat)
    ensures a <= b <= |s| && Trim(s) == s[a..b]
    ensures forall i :: 0 <= i < a ==> IsSpace(s[i])
    ensures forall i :: b <= i < |s| ==> IsSpace(s[i])
    ensures Trim(s) != [] ==> !IsSpace(Trim(s)[0]) && !IsSpace(Trim(s)[|Trim(s)| - 1])
  {
    a := SpaceEnd(s, 0);
    var t := s[a..];
    var c := SpaceStart(t, |t|);
    b := a + c;
    assert Trim(s) == t[..c];
    assert t[..c] == s[a..b];
    forall i | b <= i < |s|
      ensures IsSpace(s[i])
    {
      assert s[i] == t[i - a];
    }
    if c > 0 {
      assert t[..c][0] == t[0];
      SpaceStartUnique(t, 0, 0);
    }
  }

  /** A string that neither begins nor ends with white space is its own
      trim; so trimming twice is trimming once. */
  lemma TrimFixed(s: string)
    requires s != [] ==> !IsSpace(s[0]) && !IsSpace(s[|s| - 1])
    ensures Trim(s) == s
  {
    SpaceEndUnique(s, 0, 0);
    assert s[0..] == s;
    SpaceStartUnique(s, |s|, |s|);
    assert s[..|s|] == s;
  }

  lemma TrimIdempotent(s: string)
    ensures Trim(Trim(s)) == Trim(s)
  {
    var a, b := TrimIsSlice(s);
    TrimFixed(Trim(s));
  }

  /** The trim is empty exactly when every character is white space. */
  lemma TrimEmpty(s: string)
    ensures Trim(s) == [] <==> forall i :: 0 <= i < |s| ==> IsSpace(s[i])
  {
    var a, b := TrimIsSlice(s);
    if Trim(s) == [] {
      forall i | 0 <= i < |s| ensures IsSpace(s[i]) {
        if i < a {} else {}
      }
    } else {
      assert !IsSpace(s[a]);
    }
  }

  /** Appending white space to s appends it to s's left trim, or leaves
      that trim empty. */
  lemma TrimStartAppendSpace(s: string, c: char)
    requires IsSpace(c)
    ensures TrimStart(s) == [] ==> TrimStart(s + [c]) == []
    ensures TrimStart(s) != [] ==> TrimStart(s + [c]) == TrimStart(s) + [c]
  {
    var u := s + [c];
    var a := SpaceEnd(s, 0);
    if a == |s| {
      SpaceEndUnique(u, 0, |u|);
    } else {
      SpaceEndUnique(u, 0, a);
      assert u[a..] == s[a..] + [c];
    }
  }

  /** White space appended to t does not survive the right trim. */
  lemma TrimEndDropsSpace(t: string, c: char)
    requires IsSpace(c)
    ensures TrimEnd(t + [c]) == TrimEnd(t)
  {
    var m := SpaceStart(t, |t|);
    SpaceStartUnique(t + [c], |t| + 1, m);
    assert (t + [c])[..m] == t[..m];
  }

  /** Trailing white space does not reach the trim. */
  lemma TrimDropsTrailingSpace(s: string, c: char)
    requires IsSpace(c)
    ensures Trim(s + [c]) == Trim(s)
  {
    TrimStartAppendSpace(s, c);
    if TrimStart(s) != [] {
      TrimEndDropsSpace(TrimStart(s), c);
    }
  }

  /** A string that does not contain p has no slice that contains p. */
  lemma {:induction false} NotContainsSuffix(s: string, p: string, a: nat)
    requires a <= |s| && !Contains(s, p)
    ensures !Contains(s[a..], p)
  {
    if a > 0 {
      NotContainsSuffix(s[1..], p, a - 1);
      assert s[1..][a - 1..] == s[a..];
    }
  }

  lemma {:induction false} NotContainsPrefix(s: string, p: string, b: nat)
    requires b <= |s| && !Contains(s, p)
    ensures !Contains(s[..b], p)
  {
    if b > 0 {
      NotContainsPrefix(s[1..], p, b - 1);
      assert s[..b][1..] == s[1..][..b - 1];
    }
  }

  lemma NotContainsSlice(s: string, p: string, a: nat, b: nat)
    requires a <= b <= |s| && !Contains(s, p)
    ensures !Contains(s[a..b], p)
  {
    NotContainsPrefix(s, p, b);
    NotContainsSuffix(s[..b], p, a);
    assert s[..b][a..] == s[a..b];
  }

  /** Trimming cannot create an occurrence of p. */
  lemma TrimKeepsAbsence(s: string, p: string)
    requires !Contains(s, p)
    ensures !Contains(Trim(s), p)
  {
    var a, b := TrimIsSlice(s);
    NotContainsSlice(s, p, a, b);
  }
}

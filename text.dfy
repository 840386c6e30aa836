/**
 * String operations the core relies on: JavaScript's `String.prototype.trim`,
 * ASCII case folding (how the model reads the regular-expression `i` flag),
 * literal substring search, and `String.prototype.replace` with a string pattern.
 */
module Text {
  import opened Wrappers

  /**
   * The characters `trim` removes: WhiteSpace and LineTerminator of ECMA-262
   * (sections 12.2 and 12.3), with the space separators of Unicode category Zs written out.
   */
  predicate IsJsWhitespace(c: char)
  {
    c == '\t' || c == '\n' || c == '\U{B}' || c == '\U{C}' || c == '\r' || c == ' '
    || c == '\U{A0}' || c == '\U{1680}' || ('\U{2000}' <= c <= '\U{200A}')
    || c == '\U{2028}' || c == '\U{2029}' || c == '\U{202F}' || c == '\U{205F}'
    || c == '\U{3000}' || c == '\U{FEFF}'
  }

  predicate AllWhitespace(s: string)
  {
    forall i :: 0 <= i < |s| ==> IsJsWhitespace(s[i])
  }

  /** Neither end of `s` is whitespace. */
  predicate Trimmed(s: string)
  {
    s == [] || (!IsJsWhitespace(s[0]) && !IsJsWhitespace(s[|s| - 1]))
  }

  function TrimStart(s: string): (r: string)
    ensures |r| <= |s| && r == s[|s| - |r|..]
    ensures AllWhitespace(s[..|s| - |r|])
    ensures r == [] || !IsJsWhitespace(r[0])
  {
    if s != [] && IsJsWhitespace(s[0]) then TrimStart(s[1..]) else s
  }

  function TrimEnd(s: string): (r: string)
    ensures |r| <= |s| && r == s[..|r|]
    ensures AllWhitespace(s[|r|..])
    ensures r == [] || !IsJsWhitespace(r[|r| - 1])
  {
    if s != [] && IsJsWhitespace(s[|s| - 1]) then TrimEnd(s[..|s| - 1]) else s
  }

  /** `s.trim()`: a slice of `s`, whitespace-free at both ends, with only whitespace cut off. */
  function Trim(s: string): (r: string)
    ensures Trimmed(r)
    ensures exists i, j :: 0 <= i <= j <= |s| && r == s[i..j] && AllWhitespace(s[..i]) && AllWhitespace(s[j..])
  {
    var a := TrimStart(s);
    var r := TrimEnd(a);
    var i := |s| - |a|;
    assert r == s[i..i + |r|];
    assert s[i + |r|..] == a[|r|..];
    assert r != [] ==> r[0] == a[0];
    r
  }

  /** Trimming is exactly cutting off leading and trailing whitespace: `trim` of `w1 + m + w2` is `m`. */
  lemma {:induction false} TrimOfPadded(w1: string, m: string, w2: string)
    requires AllWhitespace(w1) && AllWhitespace(w2) && Trimmed(m)
    ensures Trim(w1 + m + w2) == m
  {
    if m == [] {
      assert w1 + m + w2 == (w1 + w2) + [];
      TrimStartOfPadded(w1 + w2, []);
    } else {
      assert w1 + m + w2 == w1 + (m + w2);
      TrimStartOfPadded(w1, m + w2);
      TrimEndOfPadded(m, w2);
    }
  }

  lemma {:induction false} TrimStartOfPadded(w: string, m: string)
    requires AllWhitespace(w) && (m == [] || !IsJsWhitespace(m[0]))
    ensures TrimStart(w + m) == m
  {
    if w != [] {
      assert (w + m)[1..] == w[1..] + m;
      TrimStartOfPadded(w[1..], m);
    }
  }

  lemma {:induction false} TrimEndOfPadded(m: string, w: string)
    requires AllWhitespace(w) && (m == [] || !IsJsWhitespace(m[|m| - 1]))
    ensures TrimEnd(m + w) == m
  {
    if w != [] {
      assert (m + w)[..|m + w| - 1] == m + w[..|w| - 1];
      TrimEndOfPadded(m, w[..|w| - 1]);
    } else {
      assert m + w == m;
    }
  }

  /** A string trims to the empty string exactly when it is all whitespace. */
  lemma TrimBlank(s: string)
    ensures Trim(s) == [] <==> AllWhitespace(s)
  {
    if AllWhitespace(s) {
      assert s == s + [] + [];
      TrimOfPadded(s, [], []);
    }
  }

  /** `s.trim().trim() == s.trim()`. */
  lemma TrimIdempotent(s: string)
    ensures Trim(Trim(s)) == Trim(s)
  {
    var t := Trim(s);
    TrimmedIsFixed(t);
  }

  /** A string with no whitespace at either end trims to itself. */
  lemma TrimmedIsFixed(t: string)
    requires Trimmed(t)
    ensures Trim(t) == t
  {
    assert t == [] + t + [];
    TrimOfPadded([], t, []);
  }

  /** ASCII lower case; every other character is its own folding. */
  function Lower(c: char): (r: char)
    ensures 'A' <= c <= 'Z' ==> r as int == c as int + 32
    ensures !('A' <= c <= 'Z') ==> r == c
  {
    if 'A' <= c <= 'Z' then (c as int + 32) as char else c
  }

  function Fold(s: string): (r: string)
    ensures |r| == |s|
    ensures forall i :: 0 <= i < |s| ==> r[i] == Lower(s[i])
  {
    seq(|s|, i requires 0 <= i < |s| => Lower(s[i]))
  }

  predicate StartsWith(t: string, p: string)
  {
    |p| <= |t| && t[..|p|] == p
  }

  /** `p` occurs in `t` at index `i`. */
  predicate OccursAt(t: string, p: string, i: int)
  {
    0 <= i && i + |p| <= |t| && t[i..i + |p|] == p
  }

  /** `t` contains `p` as a substring, by scanning `t` from the left. */
  predicate Contains(t: string, p: string)
    decreases |t|
  {
    StartsWith(t, p) || (t != [] && Contains(t[1..], p))
  }

  /** The scan agrees with the positional definition of a substring. */
  lemma {:induction false} ContainsIffOccurs(t: string, p: string)
    ensures Contains(t, p) <==> exists i :: OccursAt(t, p, i)
    decreases |t|
  {
    if StartsWith(t, p) {
      assert OccursAt(t, p, 0);
    } else if t == [] {
      assert forall i :: !OccursAt(t, p, i);
    } else {
      ContainsIffOccurs(t[1..], p);
      forall i | OccursAt(t[1..], p, i) ensures OccursAt(t, p, i + 1) {
        OccursShift(t, p, i + 1);
      }
      forall i | OccursAt(t, p, i) ensures OccursAt(t[1..], p, i - 1) {
        assert i != 0 by { assert t[..|p|] == t[0..|p|]; }
        OccursShift(t, p, i);
      }
    }
  }

  lemma OccursShift(t: string, p: string, j: int)
    requires t != [] && 1 <= j
    ensures OccursAt(t, p, j) <==> OccursAt(t[1..], p, j - 1)
  {
    if j + |p| <= |t| {
      var a, b := t[j..j + |p|], t[1..][j - 1..j - 1 + |p|];
      forall k | 0 <= k < |p| ensures a[k] == b[k] {
        assert a[k] == t[j + k] && b[k] == t[1..][j - 1 + k];
      }
      assert a == b;
    }
  }

  /** `t` contains `p` when upper and lower case are not told apart. */
  predicate ContainsIgnoringCase(t: string, p: string)
  {
    Contains(Fold(t), Fold(p))
  }

  /** `t.indexOf(p)`: the first index at which `p` occurs, None for -1. */
  function IndexOf(t: string, p: string): (r: Option<nat>)
    ensures r.Some? ==> OccursAt(t, p, r.value) && forall j :: 0 <= j < r.value ==> !OccursAt(t, p, j)
    ensures r.None? ==> forall j :: !OccursAt(t, p, j)
    decreases |t|
  {
    if StartsWith(t, p) then Some(0)
    else if t == [] then None
    else
      var rest := IndexOf(t[1..], p);
      assert !OccursAt(t, p, 0) by { if |p| <= |t| { assert t[..|p|] == t[0..|p|]; } }
      assert forall j :: 1 <= j ==> (OccursAt(t, p, j) <==> OccursAt(t[1..], p, j - 1)) by {
        forall j | 1 <= j ensures OccursAt(t, p, j) <==> OccursAt(t[1..], p, j - 1) {
          OccursShift(t, p, j);
        }
      }
      match rest
      case None => None
      case Some(i) => Some(i + 1)
  }

  /** `t.replace(p, rep)` with a string pattern: only the first occurrence is replaced. */
  function ReplaceFirst(t: string, p: string, rep: string): (r: string)
    ensures IndexOf(t, p).None? ==> r == t
    ensures IndexOf(t, p).Some? ==>
      var i := IndexOf(t, p).value; r == t[..i] + rep + t[i + |p|..]
  {
    match IndexOf(t, p)
    case None => t
    case Some(i) => t[..i] + rep + t[i + |p|..]
  }
}

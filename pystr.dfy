/** The few operations on Python `str` values that the bot applies to the
    language model's reply: substring search (`in`), `split(sep)[0]`,
    `split(sep)[1]` and `strip()`. Strings are sequences of code points. */
module PyStr {
  import opened Wrappers

  /** `p` occurs in `s` starting at index `j`. */
  predicate Occurs(s: string, p: string, j: int)
  {
    0 <= j && j + |p| <= |s| && s[j..j + |p|] == p
  }

  /** The index of the first occurrence of `p` in `s` at or after index `i`. */
  function FindFrom(s: string, p: string, i: nat): (r: Option<nat>)
    ensures r.Some? ==> i <= r.value && Occurs(s, p, r.value)
    ensures r.Some? ==> forall j :: i <= j < r.value ==> !Occurs(s, p, j)
    ensures r.None? ==> forall j :: i <= j ==> !Occurs(s, p, j)
    decreases |s| - i
  {
    if i + |p| > |s| then None
    else if s[i..i + |p|] == p then Some(i)
    else FindFrom(s, p, i + 1)
  }

  /** The index of the first occurrence of `p` in `s` (what `s.find(p)` returns
      when it is not -1). */
  function Find(s: string, p: string): (r: Option<nat>)
    ensures r.Some? ==> Occurs(s, p, r.value)
    ensures r.Some? ==> forall j :: 0 <= j < r.value ==> !Occurs(s, p, j)
    ensures r.None? ==> forall j :: !Occurs(s, p, j)
  {
    FindFrom(s, p, 0)
  }

  /** Python's `p in s`. */
  predicate Contains(s: string, p: string)
  {
    Find(s, p).Some?
  }

  /** The index of the first occurrence of `p`, given that there is one. */
  function FirstIndex(s: string, p: string): (i: nat)
    requires Contains(s, p)
    ensures Occurs(s, p, i)
    ensures forall j :: 0 <= j < i ==> !Occurs(s, p, j)
  {
    Find(s, p).value
  }

  /** Python's `s.split(p)[0]`: the text before the first occurrence of `p`,
      or all of `s` when `p` does not occur. Python raises `ValueError` for
      an empty separator, hence `p` is non-empty. */
  function Before(s: string, p: string): (r: string)
    requires |p| > 0
    ensures r <= s
    ensures forall j :: 0 <= j < |r| ==> !Occurs(s, p, j)
    ensures r == s || Occurs(s, p, |r|)
  {
    match Find(s, p)
    case None => s
    case Some(i) => s[..i]
  }

  /** The text after the first occurrence of `p`, up to the end. */
  function After(s: string, p: string): (r: string)
    requires Contains(s, p)
    ensures |r| + |p| <= |s| && r == s[|s| - |r|..]
    ensures s == s[..FirstIndex(s, p)] + p + r
  {
    s[FirstIndex(s, p) + |p|..]
  }

  /** Python's `s.split(p)[1]`: the text between the first and the second
      occurrence of `p`, or from the first occurrence to the end when there
      is no second one. Python raises `IndexError` when `p` does not occur
      and `ValueError` when it is empty; every caller here passes a fence
      and tests `p in s` first. */
  function SplitSecond(s: string, p: string): (r: string)
    requires |p| > 0 && Contains(s, p)
    ensures r <= After(s, p)
    ensures forall j :: 0 <= j < |r| ==> !Occurs(After(s, p), p, j)
    ensures r == After(s, p) || Occurs(After(s, p), p, |r|)
  {
    Before(After(s, p), p)
  }

  /** `Occurs` is inherited by a longer string that starts with the same text. */
  lemma OccursInPrefix(s: string, t: string, p: string, j: int)
    requires t <= s && Occurs(t, p, j)
    ensures Occurs(s, p, j)
  {
    assert s[j..j + |p|] == t[j..j + |p|];
  }

  /** The text before the first occurrence of a non-empty `p` does not contain `p`. */
  lemma BeforeHasNoOccurrence(s: string, p: string)
    requires |p| > 0
    ensures !Contains(Before(s, p), p)
  {
    var b := Before(s, p);
    forall j | Occurs(b, p, j) ensures Occurs(s, p, j) && j < |b| {
      OccursInPrefix(s, b, p, j);
    }
  }

  /** Cutting at the first occurrence is idempotent. */
  lemma {:induction false} BeforeIdempotent(s: string, p: string)
    requires |p| > 0
    ensures Before(Before(s, p), p) == Before(s, p)
  {
    BeforeHasNoOccurrence(s, p);
  }

  /** A string that contains a pattern contains every piece of that pattern. */
  lemma ContainsPiece(s: string, p: string, k: nat, l: nat)
    requires Contains(s, p) && k <= l <= |p|
    ensures Contains(s, p[k..l])
  {
    var i := FirstIndex(s, p);
    forall m | 0 <= m < l - k ensures s[i + k..i + l][m] == p[k..l][m] {
      assert s[i..i + |p|][k + m] == p[k + m];
    }
    assert s[i + k..i + l] == p[k..l];
    assert Occurs(s, p[k..l], i + k);
  }

  /** A slice of a string that does not contain `p` does not contain it either. */
  lemma SliceLacks(s: string, a: nat, b: nat, t: string, p: string)
    requires a <= b <= |s| && t == s[a..b] && !Contains(s, p)
    ensures !Contains(t, p)
  {
    forall j | Occurs(t, p, j) ensures Occurs(s, p, a + j) {
      forall k | 0 <= k < |p| ensures s[a + j..a + j + |p|][k] == p[k] {
        assert t[j..j + |p|][k] == p[k];
      }
    }
  }

  /** The whitespace of Python's `str.isspace()`: the code points whose
      bidirectional class is WS, B or S, or whose category is Zs. */
  predicate IsSpace(c: char)
  {
    || ('\t' <= c <= '\r')                      // \t \n \v \f \r
    || ('\U{001C}' <= c <= ' ')                  // file, group, record, unit separators; space
    || c == '\U{0085}' || c == '\U{00A0}' || c == '\U{1680}'
    || ('\U{2000}' <= c <= '\U{200A}')
    || c == '\U{2028}' || c == '\U{2029}' || c == '\U{202F}' || c == '\U{205F}'
    || c == '\U{3000}'
  }

  /** Every character of `s` from index `i` up to (excluding) `j` is whitespace. */
  predicate SpaceBetween(s: string, i: int, j: int)
    requires 0 <= i && j <= |s|
  {
    forall k {:trigger IsSpace(s[k])} :: i <= k < j ==> IsSpace(s[k])
  }

  /** Where the run of whitespace that starts at index `i` ends. */
  function LeadEnd(s: string, i: nat): (r: nat)
    requires i <= |s|
    ensures i <= r <= |s| && SpaceBetween(s, i, r)
    ensures r == |s| || !IsSpace(s[r])
    decreases |s| - i
  {
    if i < |s| && IsSpace(s[i]) then LeadEnd(s, i + 1) else i
  }

  /** Where the run of whitespace that ends at index `j` starts, looking no
      further left than `lo`. */
  function TrailStart(s: string, lo: nat, j: nat): (r: nat)
    requires lo <= j <= |s|
    ensures lo <= r <= j && SpaceBetween(s, r, j)
    ensures r == lo || !IsSpace(s[r - 1])
    decreases j - lo
  {
    if lo < j && IsSpace(s[j - 1]) then TrailStart(s, lo, j - 1) else j
  }

  /** Python's `s.strip()`: the leading whitespace is cut off first
      (`lstrip`), then the trailing whitespace of what is left (`rstrip`).
      Whitespace alone is removed, and all of it. */
  function Strip(s: string): (r: string)
    ensures var a := LeadEnd(s, 0);
            var b := TrailStart(s, a, |s|);
            && SpaceBetween(s, 0, a) && SpaceBetween(s, b, |s|)
            && r == s[a..b]
    ensures r == [] || (!IsSpace(r[0]) && !IsSpace(r[|r| - 1]))
  {
    var a := LeadEnd(s, 0);
    s[a..TrailStart(s, a, |s|)]
  }

  /** `strip()` returns the empty string exactly for all-whitespace input. */
  lemma StripEmpty(s: string)
    ensures Strip(s) == [] <==> SpaceBetween(s, 0, |s|)
  {
    var a := LeadEnd(s, 0);
    var b := TrailStart(s, a, |s|);
    if Strip(s) == [] {
      assert a == b;
      assert SpaceBetween(s, 0, |s|);
    }
    if SpaceBetween(s, 0, |s|) {
      assert a == |s|;
    }
  }

  /** Stripping a string that contains no `p` leaves no `p`. */
  lemma StripLacks(s: string, p: string)
    requires !Contains(s, p)
    ensures !Contains(Strip(s), p)
  {
    var a := LeadEnd(s, 0);
    SliceLacks(s, a, TrailStart(s, a, |s|), Strip(s), p);
  }

  /** Cutting a string before a non-whitespace character shortens its
      `strip()`, when the string ends with non-whitespace. */
  lemma StripShorterPrefix(t: string, u: string, p: nat)
    requires p < |t| && u == t[..p]
    requires !IsSpace(t[p]) && !IsSpace(t[|t| - 1])
    ensures |Strip(u)| < |Strip(t)|
  {
    var a := LeadEnd(t, 0);
    assert a <= p;
    forall k | 0 <= k < a ensures IsSpace(u[k]) {
      assert u[k] == t[k];
    }
    assert SpaceBetween(u, 0, a);
    assert a <= LeadEnd(u, 0);
    assert TrailStart(t, a, |t|) == |t|;
  }

  /** A string with no surrounding whitespace is its own `strip()`. */
  lemma StripTrimmed(s: string)
    requires s == [] || (!IsSpace(s[0]) && !IsSpace(s[|s| - 1]))
    ensures Strip(s) == s
  {
    assert LeadEnd(s, 0) == 0;
    assert TrailStart(s, 0, |s|) == |s|;
    assert s[0..|s|] == s;
  }

  /** `strip()` is idempotent. */
  lemma StripIdempotent(s: string)
    ensures Strip(Strip(s)) == Strip(s)
  {
    StripTrimmed(Strip(s));
  }
}

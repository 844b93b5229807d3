/** The few operations of Go's strings package that the modelled code uses. */
module Text {

  /** Unicode white space, as strings.TrimSpace sees it. */
  predicate IsSpace(c: char) {
    var n := c as int;
    (9 <= n <= 13) || n == 32 || n == 0x85 || n == 0xA0 || n == 0x1680 || (0x2000 <= n <= 0x200A) ||
    n == 0x2028 || n == 0x2029 || n == 0x202F || n == 0x205F || n == 0x3000
  }

  function TrimLeft(s: string): (r: string)
    ensures r == "" || !IsSpace(r[0])
  {
    if s != "" && IsSpace(s[0]) then TrimLeft(s[1..]) else s
  }

  function TrimRight(s: string): (r: string)
    ensures r == "" || !IsSpace(r[|r| - 1])
    ensures r <= s
  {
    if s != "" && IsSpace(s[|s| - 1]) then TrimRight(s[..|s| - 1]) else s
  }

  function TrimSpace(s: string): string { TrimRight(TrimLeft(s)) }

  predicate AllSpace(s: string) { forall i :: 0 <= i < |s| ==> IsSpace(s[i]) }

  lemma {:induction false} TrimRightDropsSpace(s: string, w: string)
    requires AllSpace(w)
    ensures TrimRight(s + w) == TrimRight(s)
  {
    if w == "" {
      assert s + w == s;
    } else {
      var n := |w| - 1;
      assert (s + w)[..|s + w| - 1] == s + w[..n];
      assert (s + w)[|s + w| - 1] == w[n];
      TrimRightDropsSpace(s, w[..n]);
    }
  }

  lemma {:induction false} TrimLeftOfSpace(w: string)
    requires AllSpace(w)
    ensures TrimLeft(w) == ""
  {
    if w != "" { TrimLeftOfSpace(w[1..]); }
  }

  lemma {:induction false} TrimLeftSplits(s: string, w: string)
    requires AllSpace(w)
    ensures TrimLeft(s + w) == TrimLeft(s) + (if TrimLeft(s) == "" then "" else w)
  {
    if s == "" {
      assert s + w == w;
      TrimLeftOfSpace(w);
    } else if IsSpace(s[0]) {
      assert (s + w)[1..] == s[1..] + w;
      TrimLeftSplits(s[1..], w);
    }
  }

  /** White space after a text makes no difference to its trimmed form. */
  lemma TrimDropsTrailingSpace(s: string, w: string)
    requires AllSpace(w)
    ensures TrimSpace(s + w) == TrimSpace(s)
  {
    TrimLeftSplits(s, w);
    if TrimLeft(s) != "" { TrimRightDropsSpace(TrimLeft(s), w); }
  }

  // ------------------------------------------------------------- searching

  predicate At(s: string, pat: string, i: int) { 0 <= i <= |s| - |pat| && s[i..i + |pat|] == pat }

  ghost predicate Occurs(s: string, pat: string) { exists i :: At(s, pat, i) }

  /** strings.Index: the first occurrence at or after `from`, or -1. */
  function IndexFrom(s: string, pat: string, from: nat): (r: int)
    ensures r == -1 || from <= r <= |s| - |pat|
    decreases |s| + 1 - from
  {
    if from + |pat| > |s| then -1
    else if At(s, pat, from) then from
    else IndexFrom(s, pat, from + 1)
  }

  lemma {:induction false} IndexFromIs(s: string, pat: string, from: nat, i: int)
    requires from <= i && At(s, pat, i)
    requires forall j :: from <= j < i ==> !At(s, pat, j)
    ensures IndexFrom(s, pat, from) == i
    decreases i - from
  {
    if from < i { IndexFromIs(s, pat, from + 1, i); }
  }

  lemma {:induction false} NoIndexIffAbsent(s: string, pat: string, from: nat)
    ensures IndexFrom(s, pat, from) == -1 <==> forall i :: from <= i ==> !At(s, pat, i)
    decreases |s| + 1 - from
  {
    if from + |pat| <= |s| && !At(s, pat, from) { NoIndexIffAbsent(s, pat, from + 1); }
  }

  // ------------------------------------------------------------- ordering

  /** The < of Go strings. */
  predicate Less(a: string, b: string) {
    b != "" && (a == "" || a[0] < b[0] || (a[0] == b[0] && Less(a[1..], b[1..])))
  }

  lemma {:induction false} LessIsTotal(a: string, b: string)
    ensures a == b || Less(a, b) || Less(b, a)
  {
    if a != "" && b != "" && a[0] == b[0] {
      LessIsTotal(a[1..], b[1..]);
      assert a[1..] == b[1..] ==> a == [a[0]] + a[1..] == [b[0]] + b[1..] == b;
    }
  }

  lemma {:induction false} LessIsStrict(a: string, b: string)
    requires Less(a, b)
    ensures a != b && !Less(b, a)
  {
    if a != "" && a[0] == b[0] { LessIsStrict(a[1..], b[1..]); }
  }

  lemma {:induction false} LessIsTransitive(a: string, b: string, c: string)
    requires Less(a, b) && Less(b, c)
    ensures Less(a, c)
  {
    if a != "" && a[0] == b[0] == c[0] { LessIsTransitive(a[1..], b[1..], c[1..]); }
  }
}

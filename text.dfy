/**
 * The few Python string and integer built-ins the camera-control code relies on,
 * stated over `string` (a sequence of Unicode scalar values):
 *   str.strip() / str.lstrip(chars), str.lower() on ASCII letters, str.find(ch),
 *   int(text) and str(int) for base-10 integers, str ordering and sorted() of a set.
 */
module Text {
  import opened Wrappers

  // ---------------------------------------------------------------------------
  // Whitespace and trimming
  // ---------------------------------------------------------------------------

  /** Python's `str.isspace()` for a single character. */
  predicate IsSpace(c: char) {
    || ('\t' <= c <= '\r')
    || ('\U{1C}' <= c <= ' ')
    || c == '\U{85}' || c == '\U{A0}' || c == '\U{1680}'
    || ('\U{2000}' <= c <= '\U{200A}')
    || c == '\U{2028}' || c == '\U{2029}' || c == '\U{202F}' || c == '\U{205F}' || c == '\U{3000}'
  }

  /** Python's `lstrip(chars)`: drops the prefix of `s` whose characters all satisfy `drop`. */
  function TrimLeft(s: string, drop: char -> bool): string {
    if s != [] && drop(s[0]) then TrimLeft(s[1..], drop) else s
  }

  /** `TrimLeft` removes a prefix: what is left is a suffix of `s`. */
  lemma {:induction false} TrimLeftIsSuffix(s: string, drop: char -> bool)
    ensures |TrimLeft(s, drop)| <= |s| && TrimLeft(s, drop) == s[|s| - |TrimLeft(s, drop)|..]
  {
    if s != [] && drop(s[0]) {
      TrimLeftIsSuffix(s[1..], drop);
    }
  }

  /** Every character `TrimLeft` drops satisfies `drop`. */
  lemma {:induction false} TrimLeftDrops(s: string, drop: char -> bool)
    ensures forall i :: 0 <= i < |s| - |TrimLeft(s, drop)| ==> drop(s[i])
  {
    if s != [] && drop(s[0]) {
      var t := s[1..];
      TrimLeftDrops(t, drop);
      assert TrimLeft(s, drop) == TrimLeft(t, drop);
      forall i | 0 <= i < |s| - |TrimLeft(s, drop)|
        ensures drop(s[i])
      {
        if i > 0 {
          assert s[i] == t[i - 1];
        }
      }
    }
  }

  /** `TrimLeft` stops at the first character that does not satisfy `drop`. */
  lemma {:induction false} TrimLeftStops(s: string, drop: char -> bool)
    ensures TrimLeft(s, drop) == [] || !drop(TrimLeft(s, drop)[0])
  {
    if s != [] && drop(s[0]) {
      TrimLeftStops(s[1..], drop);
    }
  }

  /** Python's `rstrip(chars)`: drops the suffix of `s` whose characters all satisfy `drop`. */
  function TrimRight(s: string, drop: char -> bool): string {
    if s != [] && drop(s[|s| - 1]) then TrimRight(s[..|s| - 1], drop) else s
  }

  /** `TrimRight` removes a suffix: what is left is a prefix of `s`. */
  lemma {:induction false} TrimRightIsPrefix(s: string, drop: char -> bool)
    ensures |TrimRight(s, drop)| <= |s| && TrimRight(s, drop) == s[..|TrimRight(s, drop)|]
  {
    if s != [] && drop(s[|s| - 1]) {
      TrimRightIsPrefix(s[..|s| - 1], drop);
    }
  }

  /** Every character `TrimRight` drops satisfies `drop`. */
  lemma {:induction false} TrimRightDrops(s: string, drop: char -> bool)
    ensures forall i :: |TrimRight(s, drop)| <= i < |s| ==> drop(s[i])
  {
    if s != [] && drop(s[|s| - 1]) {
      var t := s[..|s| - 1];
      TrimRightDrops(t, drop);
      assert TrimRight(s, drop) == TrimRight(t, drop);
      forall i | |TrimRight(s, drop)| <= i < |s|
        ensures drop(s[i])
      {
        if i < |s| - 1 {
          assert s[i] == t[i];
        }
      }
    }
  }

  /** `TrimRight` stops at the last character that does not satisfy `drop`. */
  lemma {:induction false} TrimRightStops(s: string, drop: char -> bool)
    ensures TrimRight(s, drop) == [] || !drop(TrimRight(s, drop)[|TrimRight(s, drop)| - 1])
  {
    if s != [] && drop(s[|s| - 1]) {
      TrimRightStops(s[..|s| - 1], drop);
    }
  }

  /** Python's `str.strip()` with no argument. */
  function Strip(s: string): string {
    TrimRight(TrimLeft(s, IsSpace), IsSpace)
  }

  lemma StripWithoutSpaces(s: string)
    requires forall i :: 0 <= i < |s| ==> !IsSpace(s[i])
    ensures Strip(s) == s
  {
  }

  // ---------------------------------------------------------------------------
  // Case mapping and search
  // ---------------------------------------------------------------------------

  function LowerChar(c: char): char {
    if 'A' <= c <= 'Z' then (c as int + ('a' as int - 'A' as int)) as char else c
  }

  /**
   * Python's `str.lower()`, restricted to the ASCII letters. No other character
   * lower-cases into an ASCII letter followed by nothing else, so membership of the
   * result in a set of ASCII words is decided exactly as Python decides it.
   */
  function Lower(s: string): (r: string)
    ensures |r| == |s|
    ensures forall i :: 0 <= i < |s| ==> r[i] == LowerChar(s[i])
  {
    if s == [] then [] else [LowerChar(s[0])] + Lower(s[1..])
  }

  /** Python's `str.find(c)` for a single character: the first index of `c`, or -1. */
  function IndexOf(s: string, c: char): (r: int)
    ensures -1 <= r < |s|
    ensures r == -1 <==> c !in s
    ensures 0 <= r ==> s[r] == c && c !in s[..r]
  {
    if s == [] then -1
    else if s[0] == c then 0
    else
      var k := IndexOf(s[1..], c);
      if k == -1 then -1 else k + 1
  }

  // ---------------------------------------------------------------------------
  // Base-10 integers: Python's int(text) and str(n)
  // ---------------------------------------------------------------------------

  predicate IsDigit(c: char) {
    '0' <= c <= '9'
  }

  function DigitValue(c: char): nat
    requires IsDigit(c)
  {
    c as int - '0' as int
  }

  function DigitChar(d: nat): (c: char)
    requires d < 10
    ensures IsDigit(c) && DigitValue(c) == d
  {
    ('0' as int + d) as char
  }

  /** Python's `str(n)` for a non-negative integer: shortest decimal, no leading zero. */
  function RenderNat(n: nat): (r: string)
    ensures |r| > 0
    ensures forall i :: 0 <= i < |r| ==> IsDigit(r[i])
    ensures r[0] == '0' ==> r == "0"
  {
    if n < 10 then [DigitChar(n)] else RenderNat(n / 10) + [DigitChar(n % 10)]
  }

  /** Python's `str(n)` for any integer. */
  function RenderInt(n: int): string {
    if n < 0 then "-" + RenderNat(-n) else RenderNat(n)
  }

  /** The digit part `int()` accepts: ASCII digits, single underscores only between digits. */
  predicate DigitGroups(d: string) {
    && |d| > 0
    && IsDigit(d[0])
    && IsDigit(d[|d| - 1])
    && (forall i :: 0 <= i < |d| ==> IsDigit(d[i]) || d[i] == '_')
    && (forall i, j :: 0 <= i < |d| && 0 <= j < |d| && j == i + 1 ==> d[i] != '_' || d[j] != '_')
  }

  /** The value of a digit string, underscores ignored. */
  function DigitsValue(d: string): nat
    requires forall i :: 0 <= i < |d| ==> IsDigit(d[i]) || d[i] == '_'
  {
    if d == [] then 0
    else if d[|d| - 1] == '_' then DigitsValue(d[..|d| - 1])
    else DigitsValue(d[..|d| - 1]) * 10 + DigitValue(d[|d| - 1])
  }

  /**
   * Python's `int(text)` in base 10 over ASCII digits: surrounding whitespace,
   * an optional sign, and digit groups; None where `int()` raises ValueError.
   */
  function ParseInt(s: string): Option<int> {
    var t := Strip(s);
    if |t| > 0 && (t[0] == '+' || t[0] == '-') then
      var d := t[1..];
      if DigitGroups(d) then
        var v: int := DigitsValue(d);
        Some(if t[0] == '-' then -v else v)
      else None
    else if DigitGroups(t) then
      Some(DigitsValue(t))
    else None
  }

  lemma {:induction false} DigitsValueOfRender(n: nat)
    ensures DigitsValue(RenderNat(n)) == n
  {
    if n >= 10 {
      var r := RenderNat(n);
      assert r[..|r| - 1] == RenderNat(n / 10);
      DigitsValueOfRender(n / 10);
    }
  }

  /** `str(n)` of a natural number is a digit group `int()` accepts. */
  lemma RenderNatIsDigitGroup(n: nat)
    ensures DigitGroups(RenderNat(n))
    ensures forall i :: 0 <= i < |RenderNat(n)| ==> !IsSpace(RenderNat(n)[i])
  {
  }

  /** `str(n)` has no surrounding whitespace for `strip()` to remove. */
  lemma StripRenderInt(n: int)
    ensures Strip(RenderInt(n)) == RenderInt(n)
  {
    var m: nat := if n < 0 then -n else n;
    RenderNatIsDigitGroup(m);
    var s := RenderInt(n);
    forall i | 0 <= i < |s|
      ensures !IsSpace(s[i])
    {
      if n < 0 && i > 0 {
        assert s[i] == RenderNat(m)[i - 1];
      }
    }
    StripWithoutSpaces(s);
  }

  /** Reading back what `str(n)` printed gives `n` again. */
  lemma ParseRenderInt(n: int)
    ensures ParseInt(RenderInt(n)) == Some(n)
  {
    var m: nat := if n < 0 then -n else n;
    DigitsValueOfRender(m);
    RenderNatIsDigitGroup(m);
    StripRenderInt(n);
    var s := RenderInt(n);
    if n < 0 {
      assert s[1..] == RenderNat(m);
    } else {
      assert IsDigit(s[0]);
    }
  }

  // ---------------------------------------------------------------------------
  // String order and sorted()
  // ---------------------------------------------------------------------------

  /** Python's `a < b` on str: lexicographic by code point, a proper prefix first. */
  predicate Before(a: string, b: string)
    decreases |a|
  {
    if a == [] then b != []
    else if b == [] then false
    else if a[0] != b[0] then a[0] < b[0]
    else Before(a[1..], b[1..])
  }

  lemma {:induction false} BeforeIrreflexive(a: string)
    ensures !Before(a, a)
  {
    if a != [] {
      BeforeIrreflexive(a[1..]);
    }
  }

  /** `a` sorts before `b` when they agree below `k` and at `k` either `a` has ended or has the smaller character. */
  lemma {:induction false} BeforeFromFirstDifference(a: string, b: string, k: nat)
    requires k <= |a| && k < |b|
    requires forall i :: 0 <= i < k ==> a[i] == b[i]
    requires k == |a| || a[k] < b[k]
    ensures Before(a, b)
    decreases k
  {
    if k > 0 {
      assert a[0] == b[0];
      BeforeFromFirstDifference(a[1..], b[1..], k - 1);
    }
  }

  lemma {:induction false} BeforeTransitive(a: string, b: string, c: string)
    requires Before(a, b) && Before(b, c)
    ensures Before(a, c)
    decreases |a|
  {
    if a != [] && a[0] == b[0] && b[0] == c[0] {
      BeforeTransitive(a[1..], b[1..], c[1..]);
    }
  }

  lemma {:induction false} BeforeTotal(a: string, b: string)
    requires a != b
    ensures Before(a, b) || Before(b, a)
    decreases |a|
  {
    if a != [] && b != [] && a[0] == b[0] {
      assert a == [a[0]] + a[1..] && b == [b[0]] + b[1..];
      BeforeTotal(a[1..], b[1..]);
    }
  }

  predicate StrictlySorted(r: seq<string>) {
    forall i, j :: 0 <= i < j < |r| ==> Before(r[i], r[j])
  }

  /** The least element of a non-empty set of strings. */
  method Least(s: set<string>) returns (m: string)
    requires s != {}
    ensures m in s
    ensures forall y :: y in s && y != m ==> Before(m, y)
  {
    m :| m in s;
    var todo := s - {m};
    while todo != {}
      invariant m in s && todo <= s && m !in todo
      invariant forall y :: y in s - todo && y != m ==> Before(m, y)
      decreases todo
    {
      var y :| y in todo;
      if Before(y, m) {
        forall z | z in s - todo && z != y
          ensures Before(y, z)
        {
          if z != m {
            BeforeTransitive(y, m, z);
          }
        }
        m := y;
      } else {
        BeforeTotal(y, m);
      }
      todo := todo - {y};
    }
  }

  /** Python's `sorted(names)` for a set of strings. */
  method SortedList(s: set<string>) returns (r: seq<string>)
    ensures StrictlySorted(r)
    ensures forall x :: x in r <==> x in s
    ensures |r| == |s|
  {
    r := [];
    var rest := s;
    while rest != {}
      invariant rest <= s
      invariant forall x :: x in s <==> x in r || x in rest
      invariant forall x :: x in r ==> x !in rest
      invariant StrictlySorted(r)
      invariant forall i, y :: 0 <= i < |r| && y in rest ==> Before(r[i], y)
      invariant |r| + |rest| == |s|
      decreases rest
    {
      var m := Least(rest);
      r := r + [m];
      rest := rest - {m};
    }
  }
}

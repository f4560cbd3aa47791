/** Small shared vocabulary: optional values and decimal numerals. */
module Common {

  datatype Option<+T> = None | Some(value: T)

  /** Python's `a or b` on an optional string: null and "" are both false. */
  function OrElse(a: Option<string>, b: Option<string>): Option<string> {
    if a.Some? && a.value != "" then a else b
  }

  function Min(a: int, b: int): int { if a < b then a else b }

  function Max(a: int, b: int): int { if a < b then b else a }

  /** The decimal numeral printed by `%d`. */
  function Decimal(n: nat): (s: string)
    ensures IsNumeral(s)
  {
    var last := ['0' + (n % 10) as char];
    if n < 10 then last else Decimal(n / 10) + last
  }

  predicate IsNumeral(s: string) {
    s != [] && AllDigits(s)
  }

  predicate AllDigits(s: string) {
    forall i | 0 <= i < |s| :: '0' <= s[i] <= '9'
  }

  /** `int(s)` for a string of decimal digits. */
  function ParseDecimal(s: string): nat
    requires AllDigits(s)
  {
    if s == [] then 0
    else 10 * ParseDecimal(s[..|s| - 1]) + s[|s| - 1] as nat - '0' as nat
  }

  /** Printing a number and reading it back gives the number: `%d` is injective. */
  lemma {:induction false} DecimalRoundTrip(n: nat)
    ensures ParseDecimal(Decimal(n)) == n
  {
    var last := ['0' + (n % 10) as char];
    if n < 10 {
      assert Decimal(n)[..0] == [];
    } else {
      DecimalRoundTrip(n / 10);
      assert Decimal(n)[..|Decimal(n)| - 1] == Decimal(n / 10);
    }
  }

  /** The last occurrence of a character is at one place. */
  lemma LastOccurrence(s: string, c: char, i: nat, j: nat)
    requires i < |s| && j < |s| && s[i] == c == s[j] && c !in s[i + 1..] && c !in s[j + 1..]
    ensures i == j
  {
    assert forall x | i < x < |s| :: s[x] == s[i + 1..][x - i - 1];
    assert forall x | j < x < |s| :: s[x] == s[j + 1..][x - j - 1];
  }

  /** A mark that is not a digit separates a name from the number printed after it. */
  lemma NameAndNumber(n1: string, k1: nat, mark: char, n2: string, k2: nat)
    requires !('0' <= mark <= '9') && n1 + [mark] + Decimal(k1) == n2 + [mark] + Decimal(k2)
    ensures n1 == n2 && k1 == k2
  {
    var s, d1, d2 := n1 + [mark] + Decimal(k1), Decimal(k1), Decimal(k2);
    assert s[|n1| + 1..] == d1 && s[|n2| + 1..] == d2;
    LastOccurrence(s, mark, |n1|, |n2|);
    assert s[..|n1|] == n1 && s[..|n2|] == n2;
    DecimalRoundTrip(k1);
    DecimalRoundTrip(k2);
  }

  /** The characters Python's `str.strip` removes. */
  predicate IsSpace(c: char) {
    || '\t' <= c <= '\r' || '\U{1c}' <= c <= ' ' || c in "\U{85}\U{a0}\U{1680}\U{2028}\U{2029}\U{202f}\U{205f}\U{3000}"
    || '\U{2000}' <= c <= '\U{200a}'
  }

  function Strip(s: string): string {
    if s != [] && IsSpace(s[0]) then Strip(s[1..])
    else if s != [] && IsSpace(s[|s| - 1]) then Strip(s[..|s| - 1])
    else s
  }

  predicate AllSpace(s: string) { forall i | 0 <= i < |s| :: IsSpace(s[i]) }

  /** `t` is `s` without the space around it. */
  ghost predicate IsTrimOf(t: string, s: string) {
    && (t == "" || (!IsSpace(t[0]) && !IsSpace(t[|t| - 1])))
    && exists front: string, back: string :: AllSpace(front) && AllSpace(back) && s == front + t + back
  }

  /** Stripping takes away exactly the space in front of the first and behind the last other character. */
  lemma {:induction false} StripTrims(s: string)
    ensures IsTrimOf(Strip(s), s)
    decreases |s|
  {
    if s != [] && IsSpace(s[0]) {
      StripTrims(s[1..]);
      SpaceInFront(Strip(s[1..]), s);
    } else if s != [] && IsSpace(s[|s| - 1]) {
      StripTrims(s[..|s| - 1]);
      SpaceBehind(Strip(s[..|s| - 1]), s);
    } else {
      assert AllSpace("") && s == "" + s + "";
    }
  }

  lemma SpaceInFront(t: string, s: string)
    requires s != "" && IsSpace(s[0]) && IsTrimOf(t, s[1..])
    ensures IsTrimOf(t, s)
  {
    var front: string, back: string :| AllSpace(front) && AllSpace(back) && s[1..] == front + t + back;
    assert s == [s[0]] + s[1..] == ([s[0]] + front) + t + back;
    assert AllSpace([s[0]] + front);
  }

  lemma SpaceBehind(t: string, s: string)
    requires s != "" && IsSpace(s[|s| - 1]) && IsTrimOf(t, s[..|s| - 1])
    ensures IsTrimOf(t, s)
  {
    var last := [s[|s| - 1]];
    var front: string, back: string :| AllSpace(front) && AllSpace(back) && s[..|s| - 1] == front + t + back;
    assert s == s[..|s| - 1] + last == front + t + (back + last);
    assert AllSpace(back + last);
  }

  /** Only one text is the trim of another. */
  lemma TrimIsUnique(t: string, u: string, s: string)
    requires IsTrimOf(t, s) && IsTrimOf(u, s)
    ensures t == u
  {
    var f: string, b: string :| AllSpace(f) && AllSpace(b) && s == f + t + b;
    var g: string, c: string :| AllSpace(g) && AllSpace(c) && s == g + u + c;
    if t == "" {
      AllSpaceTrims(f + b, g, u, c);
    } else if u == "" {
      AllSpaceTrims(g + c, f, t, b);
    } else {
      SameMargin(f, t, b, g, u, c);
      assert s[|f|..|f| + |t|] == t && s[|g|..|g| + |u|] == u;
    }
  }

  lemma AllSpaceTrims(s: string, g: string, u: string, c: string)
    requires AllSpace(s) && s == g + u + c && (u == "" || !IsSpace(u[0]))
    ensures u == ""
  {
    assert forall i | 0 <= i < |u| :: u[i] == s[|g| + i];
  }

  lemma SameMargin(f: string, t: string, b: string, g: string, u: string, c: string)
    requires f + t + b == g + u + c && AllSpace(f) && AllSpace(b) && AllSpace(g) && AllSpace(c)
    requires t != "" && !IsSpace(t[0]) && !IsSpace(t[|t| - 1]) && u != "" && !IsSpace(u[0]) && !IsSpace(u[|u| - 1])
    ensures |f| == |g| && |b| == |c|
  {
    var s := f + t + b;
    assert s[|f|] == t[0] && s[|g|] == u[0];
    assert s[|f| + |t| - 1] == t[|t| - 1] && s[|g| + |u| - 1] == u[|u| - 1];
    assert forall i | 0 <= i < |f| :: s[i] == f[i];
    assert forall i | 0 <= i < |g| :: s[i] == g[i];
    assert forall i | |f| + |t| <= i < |s| :: s[i] == b[i - |f| - |t|];
    assert forall i | |g| + |u| <= i < |s| :: s[i] == c[i - |g| - |u|];
  }
}

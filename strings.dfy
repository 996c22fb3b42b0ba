/**
 * String helpers shared by the model: decimal rendering of counters (as Python's
 * f-strings print them) with its inverse, substring containment, `str.join`,
 * and counting log lines by prefix.
 */
module Strings {

  // ---------------------------------------------------------------------------
  // Decimal rendering of natural numbers

  predicate IsDigit(c: char) {
    '0' <= c <= '9'
  }

  predicate AllDigits(s: string) {
    forall k :: 0 <= k < |s| ==> IsDigit(s[k])
  }

  function DigitChar(d: nat): (c: char)
    requires d < 10
    ensures IsDigit(c) && c as int - '0' as int == d
  {
    ('0' as int + d) as char
  }

  /** `str(n)` for a non-negative int: no sign, no leading zeros. */
  function NatToString(n: nat): (s: string)
    ensures |s| > 0 && AllDigits(s)
    decreases n
  {
    if n < 10 then [DigitChar(n)] else NatToString(n / 10) + [DigitChar(n % 10)]
  }

  /** `int(s)` for a string of decimal digits. */
  function ParseDigits(s: string): nat
    requires AllDigits(s)
  {
    if |s| == 0 then 0
    else 10 * ParseDigits(s[..|s| - 1]) + (s[|s| - 1] as int - '0' as int)
  }

  /** Parsing undoes rendering. */
  lemma {:induction false} ParseNatToString(n: nat)
    ensures ParseDigits(NatToString(n)) == n
    decreases n
  {
    var s := NatToString(n);
    if n >= 10 {
      ParseNatToString(n / 10);
      assert s[..|s| - 1] == NatToString(n / 10);
    }
  }

  /** `str(KeyError(key))`: the key in single quotes. */
  function KeyErrorText(key: string): string {
    "'" + key + "'"
  }

  // ---------------------------------------------------------------------------
  // Prefixes and containment

  predicate StartsWith(s: string, p: string) {
    |p| <= |s| && s[..|p|] == p
  }

  predicate EndsWith(s: string, p: string) {
    |p| <= |s| && s[|s| - |p|..] == p
  }

  predicate OccursAt(s: string, x: string, k: int) {
    0 <= k && k + |x| <= |s| && s[k..k + |x|] == x
  }

  /** Python's `x in s` for strings. */
  predicate Contains(s: string, x: string) {
    exists k :: 0 <= k <= |s| && OccursAt(s, x, k)
  }

  lemma ContainsSelf(x: string)
    ensures Contains(x, x)
  {
    assert OccursAt(x, x, 0);
  }

  lemma ContainsLeft(a: string, b: string, x: string)
    requires Contains(a, x)
    ensures Contains(a + b, x)
  {
    var k :| 0 <= k <= |a| && OccursAt(a, x, k);
    assert (a + b)[k..k + |x|] == a[k..k + |x|];
    assert OccursAt(a + b, x, k);
  }

  lemma ContainsRight(a: string, b: string, x: string)
    requires Contains(b, x)
    ensures Contains(a + b, x)
  {
    var k :| 0 <= k <= |b| && OccursAt(b, x, k);
    assert (a + b)[|a| + k..|a| + k + |x|] == b[k..k + |x|];
    assert OccursAt(a + b, x, |a| + k);
  }

  /** `x` occurs in `a + x + b`. */
  lemma ContainsMiddle(a: string, x: string, b: string)
    ensures Contains(a + x + b, x)
  {
    ContainsSelf(x);
    ContainsRight(a, x, x);
    ContainsLeft(a + x, b, x);
  }

  /** Containment is transitive. */
  lemma ContainsTransitive(s: string, x: string, y: string)
    requires Contains(s, x) && Contains(x, y)
    ensures Contains(s, y)
  {
    var k :| 0 <= k <= |s| && OccursAt(s, x, k);
    var m :| 0 <= m <= |x| && OccursAt(x, y, m);
    forall t | 0 <= t < |y|
      ensures s[k + m + t] == y[t]
    {
      assert y[t] == x[m + t] == s[k..k + |x|][m + t];
    }
    assert s[k + m..k + m + |y|] == y;
    assert OccursAt(s, y, k + m);
  }

  lemma StartsWithConcat(p: string, rest: string)
    ensures StartsWith(p + rest, p)
  {
    assert (p + rest)[..|p|] == p;
  }

  lemma EndsWithConcat(rest: string, p: string)
    ensures EndsWith(rest + p, p)
  {
    assert (rest + p)[|rest|..] == p;
  }

  /** Where the parts of a four-part concatenation show up. */
  lemma FourParts(a: string, b: string, c: string, d: string)
    ensures Contains(a + b + c + d, b) && Contains(a + b + c + d, d)
  {
    ContainsMiddle(a, b, c + d);
    assert a + b + c + d == a + b + (c + d);
    ContainsMiddle(a + b + c, d, "");
    assert a + b + c + d == a + b + c + d + "";
  }

  /** Where the parts of a five-part concatenation show up. */
  lemma FiveParts(a: string, b: string, c: string, d: string, e: string)
    ensures StartsWith(a + b + c + d + e, a)
    ensures Contains(a + b + c + d + e, b + c + d) && Contains(a + b + c + d + e, c)
    ensures EndsWith(a + b + c + d + e, d + e)
  {
    assert a + b + c + d + e == a + (b + c + d + e);
    StartsWithConcat(a, b + c + d + e);
    assert a + b + c + d + e == a + (b + c + d) + e;
    ContainsMiddle(a, b + c + d, e);
    assert a + b + c + d + e == (a + b) + c + (d + e);
    ContainsMiddle(a + b, c, d + e);
    assert a + b + c + d + e == (a + b + c) + (d + e);
    EndsWithConcat(a + b + c, d + e);
  }

  /** A string that starts with a character other than the first of `p` does not start with `p`. */
  lemma StartsWithFirstChar(s: string, p: string)
    requires |s| > 0 && |p| > 0 && s[0] != p[0]
    ensures !StartsWith(s, p)
  {
  }

  // ---------------------------------------------------------------------------
  // str.join

  /** `sep.join(parts)`. */
  function Join(sep: string, parts: seq<string>): string
    decreases |parts|
  {
    if |parts| == 0 then ""
    else if |parts| == 1 then parts[0]
    else parts[0] + sep + Join(sep, parts[1..])
  }

  /** Every joined part occurs in the joined string. */
  lemma {:induction false} JoinContainsEach(sep: string, parts: seq<string>, t: nat)
    requires t < |parts|
    ensures Contains(Join(sep, parts), parts[t])
    decreases |parts|
  {
    if |parts| == 1 {
      ContainsSelf(parts[0]);
    } else if t == 0 {
      ContainsSelf(parts[0]);
      ContainsLeft(parts[0], sep + Join(sep, parts[1..]), parts[0]);
      assert parts[0] + sep + Join(sep, parts[1..]) == parts[0] + (sep + Join(sep, parts[1..]));
    } else {
      JoinContainsEach(sep, parts[1..], t - 1);
      ContainsRight(parts[0] + sep, Join(sep, parts[1..]), parts[t]);
    }
  }

  /** A joined string starts with its first part. */
  lemma JoinStartsWithFirst(sep: string, parts: seq<string>)
    requires |parts| > 0
    ensures StartsWith(Join(sep, parts), parts[0])
  {
    if |parts| > 1 {
      assert Join(sep, parts) == parts[0] + (sep + Join(sep, parts[1..]));
      StartsWithConcat(parts[0], sep + Join(sep, parts[1..]));
    } else {
      StartsWithConcat(parts[0], "");
      assert parts[0] + "" == parts[0];
    }
  }

  // ---------------------------------------------------------------------------
  // Counting log lines

  /** The number of lines of `lines` that begin with `p`. */
  function CountWithPrefix(lines: seq<string>, p: string): nat
    decreases |lines|
  {
    if |lines| == 0 then 0
    else CountWithPrefix(lines[..|lines| - 1], p) + (if StartsWith(lines[|lines| - 1], p) then 1 else 0)
  }

  /** Counting distributes over concatenation of logs. */
  lemma {:induction false} CountWithPrefixAppend(a: seq<string>, b: seq<string>, p: string)
    ensures CountWithPrefix(a + b, p) == CountWithPrefix(a, p) + CountWithPrefix(b, p)
    decreases |b|
  {
    if |b| > 0 {
      assert (a + b)[..|a + b| - 1] == a + b[..|b| - 1];
      CountWithPrefixAppend(a, b[..|b| - 1], p);
    } else {
      assert a + b == a;
    }
  }

  lemma CountWithPrefixOne(x: string, p: string)
    ensures CountWithPrefix([x], p) == if StartsWith(x, p) then 1 else 0
  {
    assert [x][..0] == [];
  }

  lemma CountWithPrefixTwo(x: string, y: string, p: string)
    ensures CountWithPrefix([x, y], p) == CountWithPrefix([x], p) + (if StartsWith(y, p) then 1 else 0)
  {
    assert [x, y][..1] == [x];
  }

  /** The lines of `lines` that begin with one of `p` or `q`, in order. */
  function Select(lines: seq<string>, p: string, q: string): (r: seq<string>)
    ensures forall k :: 0 <= k < |r| ==> StartsWith(r[k], p) || StartsWith(r[k], q)
    decreases |lines|
  {
    if |lines| == 0 then []
    else
      var last := lines[|lines| - 1];
      Select(lines[..|lines| - 1], p, q) + (if StartsWith(last, p) || StartsWith(last, q) then [last] else [])
  }

  lemma SelectOne(x: string, p: string, q: string)
    ensures Select([x], p, q) == if StartsWith(x, p) || StartsWith(x, q) then [x] else []
  {
    assert [x][..0] == [];
  }

  lemma SelectTwo(x: string, y: string, p: string, q: string)
    ensures Select([x, y], p, q) == Select([x], p, q) + (if StartsWith(y, p) || StartsWith(y, q) then [y] else [])
  {
    assert [x, y][..1] == [x];
  }

  lemma {:induction false} SelectAppend(a: seq<string>, b: seq<string>, p: string, q: string)
    ensures Select(a + b, p, q) == Select(a, p, q) + Select(b, p, q)
    decreases |b|
  {
    if |b| > 0 {
      assert (a + b)[..|a + b| - 1] == a + b[..|b| - 1];
      SelectAppend(a, b[..|b| - 1], p, q);
    } else {
      assert a + b == a;
    }
  }
}

/**
 * The handful of Go string helpers the parsers lean on (`strings.HasPrefix`,
 * `strings.HasSuffix`, `strings.TrimPrefix`, `strings.Split(s, "|")[1]`,
 * `fmt.Sprintf("%d", n)`), stated over `string = seq<char>`.
 */
module Text {
  import opened Wrappers

  predicate HasPrefix(s: string, p: string) {
    |p| <= |s| && s[..|p|] == p
  }

  predicate HasSuffix(s: string, p: string) {
    |p| <= |s| && s[|s| - |p|..] == p
  }

  lemma PrefixOfConcat(p: string, t: string)
    ensures HasPrefix(p + t, p)
    ensures (p + t)[|p|..] == t
  {
    assert (p + t)[..|p|] == p;
  }

  lemma SuffixOfConcat(t: string, p: string)
    ensures HasSuffix(t + p, p)
    ensures (t + p)[..|t|] == t
  {
    assert (t + p)[|t|..] == p;
  }

  /** A line with a prefix starts with the prefix's first character. */
  lemma PrefixLead(s: string, p: string)
    requires |p| > 0
    ensures HasPrefix(s, p) ==> |s| > 0 && s[0] == p[0]
  {
    if HasPrefix(s, p) {
      assert s[0] == s[..|p|][0];
    }
  }

  /** `strings.TrimPrefix`: drops `p` from the front of `s` when it is there. */
  function TrimPrefix(s: string, p: string): (r: string)
    ensures HasPrefix(s, p) ==> s == p + r
    ensures !HasPrefix(s, p) ==> r == s
  {
    if HasPrefix(s, p) then s[|p|..] else s
  }

  /** The whitespace class `\s` of Go's regexp syntax: `[\t\n\f\r ]`. */
  predicate IsSpace(c: char) {
    c == ' ' || c == '\t' || c == '\n' || c == '\U{000C}' || c == '\r'
  }

  /** The first index at or after `from` where `c` occurs in `s`. */
  function FindFrom(s: string, c: char, from: nat): (r: Option<nat>)
    ensures r.Some? ==> from <= r.value < |s| && s[r.value] == c
    ensures r.Some? ==> forall k :: from <= k < r.value ==> s[k] != c
    ensures r.None? ==> forall k :: from <= k < |s| ==> s[k] != c
    decreases |s| - from
  {
    if from >= |s| then None
    else if s[from] == c then Some(from)
    else FindFrom(s, c, from + 1)
  }

  /** The part of `s` in front of its first `'|'` (all of `s` when there is none). */
  function UpToBar(s: string): (r: string)
    ensures '|' !in r
    ensures HasPrefix(s, r)
    ensures |r| == |s| || s[|r|] == '|'
  {
    match FindFrom(s, '|', 0)
    case None => s
    case Some(k) => s[..k]
  }

  /**
   * `strings.Split(s, "|")[1]`: the field between the first and the second
   * `'|'`, or up to the end of `s`. Index 1 exists exactly when `s` has a `'|'`.
   */
  function Field1(s: string): (r: string)
    requires '|' in s
  {
    match FindFrom(s, '|', 0)
    case Some(k) => UpToBar(s[k + 1..])
    case None => assert false; ""
  }

  /** The field after a bar-free key is the value up to its own first bar. */
  lemma Field1OfKey(key: string, value: string)
    requires '|' !in key
    ensures '|' in key + "|" + value
    ensures Field1(key + "|" + value) == UpToBar(value)
  {
    var s := key + "|" + value;
    assert s[|key|] == '|';
    var k := FindFrom(s, '|', 0);
    assert k == Some(|key|) by {
      forall j | 0 <= j < |key| ensures s[j] != '|' {
        assert s[j] == key[j];
      }
    }
    assert s[|key| + 1..] == value;
  }

  function DigitChar(d: nat): char
    requires d < 10
  {
    ('0' as int + d) as char
  }

  predicate IsDigit(c: char) {
    '0' <= c <= '9'
  }

  /** `fmt.Sprintf("%d", n)` for a non-negative `n`. */
  function Decimal(n: nat): (r: string)
    ensures |r| >= 1
    ensures n >= 10 ==> |r| >= 2
    ensures forall i :: 0 <= i < |r| ==> IsDigit(r[i])
  {
    if n < 10 then [DigitChar(n)] else Decimal(n / 10) + [DigitChar(n % 10)]
  }

  /** Reads a string of decimal digits back as a number. */
  function DigitsValue(s: string): nat
    requires forall i :: 0 <= i < |s| ==> IsDigit(s[i])
  {
    if s == [] then 0
    else
      assert IsDigit(s[|s| - 1]);
      DigitsValue(s[..|s| - 1]) * 10 + ((s[|s| - 1] as int) - ('0' as int))
  }

  /** Reading a rendered number gives the number back. */
  lemma {:induction false} DecimalRoundTrip(n: nat)
    ensures DigitsValue(Decimal(n)) == n
  {
    var r := Decimal(n);
    if n < 10 {
      assert r[..0] == [];
    } else {
      DecimalRoundTrip(n / 10);
      assert r[..|r| - 1] == Decimal(n / 10);
    }
  }

  /** Different numbers render differently, so the labels they produce are distinct. */
  lemma DecimalInjective(a: nat, b: nat)
    requires a != b
    ensures Decimal(a) != Decimal(b)
  {
    DecimalRoundTrip(a);
    DecimalRoundTrip(b);
  }

  /**
   * Cutting at the first `c`: when neither head contains `c`, equal joins
   * have equal heads and equal tails.
   */
  lemma SplitAtFirst(c: char, x: string, y: string, x': string, y': string)
    requires c !in x && c !in x'
    requires x + [c] + y == x' + [c] + y'
    ensures x == x' && y == y'
  {
    var s := x + [c] + y;
    if |x| < |x'| {
      JoinAt(x, c, y, |x|);
      JoinAt(x', c, y', |x|);
      assert false;
    } else if |x'| < |x| {
      JoinAt(x, c, y, |x'|);
      JoinAt(x', c, y', |x'|);
      assert false;
    }
    assert x == s[..|x|] && x' == (x' + [c] + y')[..|x'|];
    assert y == s[|x| + 1..] && y' == (x' + [c] + y')[|x'| + 1..];
  }

  lemma JoinAt(x: string, c: char, y: string, i: nat)
    ensures i < |x| ==> (x + [c] + y)[i] == x[i]
    ensures i == |x| ==> (x + [c] + y)[i] == c
  {
  }

  lemma PrefixCancel(p: string, a: string, b: string)
    requires p + a == p + b
    ensures a == b
  {
    assert a == (p + a)[|p|..];
  }

  lemma SuffixCancel(a: string, b: string, q: string)
    requires a + q == b + q
    ensures a == b
  {
    assert a == (a + q)[..|a|];
  }

  /** Digits never contain `c` when `c` is not a digit. */
  lemma DecimalAvoids(n: nat, c: char)
    requires !IsDigit(c)
    ensures c !in Decimal(n)
  {
  }

  /** A list without repeats has as many distinct elements as entries. */
  lemma {:induction false} CardOfDistinct<T>(xs: seq<T>)
    requires forall i, j :: 0 <= i < j < |xs| ==> xs[i] != xs[j]
    ensures |set x | x in xs| == |xs|
  {
    if xs != [] {
      var init := xs[..|xs| - 1];
      var last := xs[|xs| - 1];
      CardOfDistinct(init);
      assert (set x | x in xs) == (set x | x in init) + {last};
      assert last !in init;
    }
  }

  /** The last line of `lines` that starts with `key`. */
  function LastKeyed(lines: seq<string>, key: string): (r: Option<string>)
    ensures r.Some? ==> HasPrefix(r.value, key)
    ensures r.Some? ==> exists i :: 0 <= i < |lines| && lines[i] == r.value
                                    && forall j :: i < j < |lines| ==> !HasPrefix(lines[j], key)
    ensures r.None? <==> forall i :: 0 <= i < |lines| ==> !HasPrefix(lines[i], key)
  {
    if lines == [] then None
    else if HasPrefix(lines[|lines| - 1], key) then Some(lines[|lines| - 1])
    else
      var init := lines[..|lines| - 1];
      var r := LastKeyed(init, key);
      assert forall i :: 0 <= i < |init| ==> init[i] == lines[i];
      r
  }

  /** The value the last `key|value` line gives, or `prior` when there is none. */
  function LastValue(lines: seq<string>, key: string, prior: string, read: string -> string): string
  {
    match LastKeyed(lines, key)
    case None => prior
    case Some(l) => read(l)
  }
}

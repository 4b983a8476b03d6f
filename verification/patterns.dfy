/**
 * Explicit matchers for the three regular expressions of the tracker
 * (tracker/tracker.go:65-67, repeated in main.go:25-27):
 *
 *   portal   ^randomizer entered portal ([^|]+)\|1$
 *   pairing  \s+- (.+) -- (.+)$
 *   item     ^\s+([-x]) ([^-]+) - ([^:]+): 
 *
 * Each matcher returns the capture groups Go's `FindStringSubmatch` would
 * return, and each is paired with a description of the lines it accepts.
 */
module Patterns {
  import opened Wrappers
  import opened Text

  // ---------------------------------------------------------------- portal

  const PortalPrefix: string := "randomizer entered portal "
  const PortalSuffix: string := "|1"

  /** What `([^|]+)` accepts. */
  predicate PortalToken(t: string) {
    t != [] && '|' !in t
  }

  function MatchPortal(line: string): (r: Option<string>)
    ensures r.Some? ==> PortalToken(r.value) && line == PortalPrefix + r.value + PortalSuffix
  {
    if HasPrefix(line, PortalPrefix) && HasSuffix(line, PortalSuffix)
       && |line| >= |PortalPrefix| + |PortalSuffix| then
      var t := line[|PortalPrefix|..|line| - |PortalSuffix|];
      assert line == PortalPrefix + t + PortalSuffix;
      if PortalToken(t) then Some(t) else None
    else
      None
  }

  /** Every portal-shaped line yields exactly its token, and only a valid token matches. */
  lemma MatchPortalLine(t: string)
    ensures MatchPortal(PortalPrefix + t + PortalSuffix) == if PortalToken(t) then Some(t) else None
  {
    var line := PortalPrefix + t + PortalSuffix;
    PrefixOfConcat(PortalPrefix, t + PortalSuffix);
    assert line == PortalPrefix + (t + PortalSuffix);
    SuffixOfConcat(PortalPrefix + t, PortalSuffix);
    assert line[|PortalPrefix|..|line| - |PortalSuffix|] == t;
  }

  // ------------------------------------------------------------------ item

  /** A spoiler check line: found marker, region and check name. */
  datatype Item = Item(marker: char, region: string, check: string)

  /** The first index at or after `from` that is not whitespace. */
  function SkipSpace(s: string, from: nat): (r: nat)
    requires from <= |s|
    ensures from <= r <= |s|
    ensures forall k :: from <= k < r ==> IsSpace(s[k])
    ensures r == |s| || !IsSpace(s[r])
    decreases |s| - from
  {
    if from == |s| || !IsSpace(s[from]) then from else SkipSpace(s, from + 1)
  }

  function MatchItem(line: string): (r: Option<Item>)
  {
    var k := SkipSpace(line, 0);
    if k == 0 || k + 2 > |line| || !(line[k] == '-' || line[k] == 'x') || line[k + 1] != ' ' then
      None
    else
      match FindFrom(line, '-', k + 2)
      case None => None
      case Some(d) =>
        if d < k + 4 || line[d - 1] != ' ' || d + 1 >= |line| || line[d + 1] != ' ' then
          None
        else
          match FindFrom(line, ':', d + 2)
          case None => None
          case Some(c) =>
            if c < d + 3 || c + 1 >= |line| || line[c + 1] != ' ' then None
            else Some(Item(line[k], line[k + 2..d - 1], line[d + 2..c]))
  }

  /** The pieces of an item line: `<ws><marker> <region> - <check>: <rest>`. */
  function ItemLine(ws: string, it: Item, rest: string): string {
    ws + [it.marker] + " " + it.region + " - " + it.check + ": " + rest
  }

  /** What the groups of the item pattern accept. */
  predicate ItemShape(ws: string, it: Item) {
    && ws != []
    && (forall i :: 0 <= i < |ws| ==> IsSpace(ws[i]))
    && (it.marker == '-' || it.marker == 'x')
    && it.region != [] && '-' !in it.region
    && it.check != [] && ':' !in it.check
  }

  /** A line matches only if it is built from well-shaped pieces. */
  lemma MatchItemSound(line: string)
    requires MatchItem(line).Some?
    ensures exists ws, rest :: ItemShape(ws, MatchItem(line).value)
                               && line == ItemLine(ws, MatchItem(line).value, rest)
  {
    var it := MatchItem(line).value;
    var k := SkipSpace(line, 0);
    var d := FindFrom(line, '-', k + 2).value;
    var c := FindFrom(line, ':', d + 2).value;
    assert it == Item(line[k], line[k + 2..d - 1], line[d + 2..c]);
    Avoids(line, k + 2, d - 1, '-');
    Avoids(line, d + 2, c, ':');
    Reassemble(line, k, d, c);
  }

  /** A slice whose positions all differ from `ch` does not contain `ch`. */
  lemma Avoids(line: string, lo: nat, hi: nat, ch: char)
    requires lo <= hi <= |line|
    requires forall i :: lo <= i < hi ==> line[i] != ch
    ensures ch !in line[lo..hi]
  {
    forall i | 0 <= i < hi - lo ensures line[lo..hi][i] != ch {
      assert line[lo..hi][i] == line[lo + i];
    }
  }

  /** Cutting a line at the group positions and joining the pieces gives the line back. */
  lemma Reassemble(line: string, k: nat, d: nat, c: nat)
    requires k + 3 < d && d + 2 < c && c + 1 < |line|
    requires line[k + 1] == ' ' && line[d - 1] == ' ' && line[d] == '-' && line[d + 1] == ' '
    requires line[c] == ':' && line[c + 1] == ' '
    ensures line == ItemLine(line[..k], Item(line[k], line[k + 2..d - 1], line[d + 2..c]), line[c + 2..])
  {
    assert line[..k] + [line[k]] + " " == line[..k + 2];
    assert line[..k + 2] + line[k + 2..d - 1] + " - " == line[..d + 2];
    assert line[..d + 2] + line[d + 2..c] + ": " == line[..c + 2];
  }

  /** Where the pieces of an item line sit. */
  lemma ItemLineLayout(ws: string, it: Item, rest: string)
    ensures var line, k := ItemLine(ws, it, rest), |ws|;
            var d := k + 3 + |it.region|;
            var c := d + 2 + |it.check|;
            && |line| == c + 2 + |rest|
            && line[..k] == ws
            && line[k] == it.marker && line[k + 1] == ' '
            && line[k + 2..d - 1] == it.region
            && line[d - 1] == ' ' && line[d] == '-' && line[d + 1] == ' '
            && line[d + 2..c] == it.check
            && line[c] == ':' && line[c + 1] == ' '
  {
    var k := |ws|;
    var d := k + 3 + |it.region|;
    var c := d + 2 + |it.check|;
    var p1 := ws + [it.marker] + " ";
    var p2 := p1 + it.region + " - ";
    var p3 := p2 + it.check + ": ";
    var line := p3 + rest;
    assert line == ItemLine(ws, it, rest);
    assert line[..c + 2] == p3;
    assert p3[..d + 2] == p2;
    assert p2[..k + 2] == p1;
    assert p1[..k] == ws;
    assert p2[k + 2..d - 1] == it.region;
    assert p3[d + 2..c] == it.check;
  }

  /** Every line built from well-shaped pieces matches, with exactly those groups. */
  lemma MatchItemComplete(ws: string, it: Item, rest: string)
    requires ItemShape(ws, it)
    ensures MatchItem(ItemLine(ws, it, rest)) == Some(it)
  {
    var line := ItemLine(ws, it, rest);
    var k := |ws|;
    var d := k + 3 + |it.region|;
    var c := d + 2 + |it.check|;
    ItemLineLayout(ws, it, rest);
    SpacesUpTo(line, ws);
    NoneIn(line, k + 2, d - 1, '-');
    NoneIn(line, d + 2, c, ':');
    MatchItemAt(line, k, d, c);
    assert Item(line[k], line[k + 2..d - 1], line[d + 2..c]) == it;
  }

  /** A slice without `ch` has no `ch` at any of its positions. */
  lemma NoneIn(line: string, lo: nat, hi: nat, ch: char)
    requires lo <= hi <= |line| && ch !in line[lo..hi]
    ensures forall i :: lo <= i < hi ==> line[i] != ch
  {
    forall i | lo <= i < hi ensures line[i] != ch {
      assert line[i] == line[lo..hi][i - lo];
    }
  }

  /** A line that starts with the whitespace run `ws` has whitespace at each of those positions. */
  lemma SpacesUpTo(line: string, ws: string)
    requires |ws| <= |line| && line[..|ws|] == ws
    requires forall i :: 0 <= i < |ws| ==> IsSpace(ws[i])
    ensures forall i :: 0 <= i < |ws| ==> IsSpace(line[i])
  {
    forall i | 0 <= i < |ws| ensures IsSpace(line[i]) {
      assert line[i] == line[..|ws|][i];
    }
  }

  /** The matcher reads the groups off the positions the pattern forces. */
  lemma MatchItemAt(line: string, k: nat, d: nat, c: nat)
    requires 1 <= k && k + 3 < d && d + 2 < c && c + 1 < |line|
    requires forall i :: 0 <= i < k ==> IsSpace(line[i])
    requires (line[k] == '-' || line[k] == 'x') && line[k + 1] == ' '
    requires forall i :: k + 2 <= i < d - 1 ==> line[i] != '-'
    requires line[d - 1] == ' ' && line[d] == '-' && line[d + 1] == ' '
    requires forall i :: d + 2 <= i < c ==> line[i] != ':'
    requires line[c] == ':' && line[c + 1] == ' '
    ensures MatchItem(line) == Some(Item(line[k], line[k + 2..d - 1], line[d + 2..c]))
  {
    SkipSpaceExact(line, 0, k);
    FindFromExact(line, '-', k + 2, d);
    FindFromExact(line, ':', d + 2, c);
  }

  lemma {:induction false} SkipSpaceExact(s: string, from: nat, k: nat)
    requires from <= k <= |s|
    requires forall i :: from <= i < k ==> IsSpace(s[i])
    requires k == |s| || !IsSpace(s[k])
    ensures SkipSpace(s, from) == k
    decreases k - from
  {
    if from < k { SkipSpaceExact(s, from + 1, k); }
  }

  lemma {:induction false} FindFromExact(s: string, c: char, from: nat, k: nat)
    requires from <= k < |s| && s[k] == c
    requires forall i :: from <= i < k ==> s[i] != c
    ensures FindFrom(s, c, from) == Some(k)
    decreases k - from
  {
    if from < k { FindFromExact(s, c, from + 1, k); }
  }

  // --------------------------------------------------------------- pairing

  /** A door pairing line: the two captured door tokens. */
  datatype Pairing = Pairing(from: string, to: string)

  const Separator: string := " -- "

  /** The separator ` -- ` starts at `v`. */
  predicate SepAt(line: string, v: int) {
    0 <= v && v + 4 <= |line| && line[v..v + 4] == Separator
  }

  /** A `- ` at `w` directly after a whitespace character. */
  predicate DashAt(line: string, w: int) {
    1 <= w && w + 2 <= |line| && IsSpace(line[w - 1]) && line[w..w + 2] == "- "
  }

  /**
   * One way the pairing pattern can match `line`: the whitespace run ends
   * just before the dash at `w`, and the separator ` -- ` sits at `u`, with
   * non-empty text on both sides of it.
   */
  predicate Instance(line: string, w: int, u: int) {
    && DashAt(line, w)
    && w + 3 <= u && u + 5 <= |line| && SepAt(line, u)
  }

  /** The greatest separator position in `[lo, u]` that leaves text after it. */
  function LastSeparator(line: string, lo: nat, u: int): (r: Option<nat>)
    ensures r.Some? ==> lo <= r.value <= u && r.value + 5 <= |line| && SepAt(line, r.value)
    ensures r.Some? ==> forall v :: r.value < v <= u && v + 5 <= |line| ==> !SepAt(line, v)
    ensures r.None? ==> forall v :: lo <= v <= u && v + 5 <= |line| ==> !SepAt(line, v)
    decreases u - lo + 1
  {
    if u < lo then None
    else if u + 5 <= |line| && SepAt(line, u) then Some(u)
    else LastSeparator(line, lo, u - 1)
  }

  /** The least dash position at or after `w` that starts a match, with its greatest separator. */
  function FirstInstance(line: string, w: nat): (r: Option<(nat, nat)>)
    ensures r.Some? ==> Instance(line, r.value.0, r.value.1) && w <= r.value.0
    ensures r.Some? ==> forall w', u' :: Instance(line, w', u') && w <= w' ==>
                          r.value.0 < w' || (r.value.0 == w' && u' <= r.value.1)
    ensures r.None? ==> forall w', u' :: w <= w' ==> !Instance(line, w', u')
    decreases |line| - w
  {
    if w + 2 > |line| then None
    else if DashAt(line, w) && LastSeparator(line, w + 3, |line| - 5).Some? then
      Some((w, LastSeparator(line, w + 3, |line| - 5).value))
    else
      FirstInstance(line, w + 1)
  }

  /**
   * `entranceRegex.FindStringSubmatch`: Go picks the leftmost match, and
   * within it the greedy `(.+)` ends at the last separator that still leaves
   * text for the second group.
   */
  function MatchPairing(line: string): (r: Option<Pairing>)
    ensures r.None? <==> forall w, u :: !Instance(line, w, u)
    ensures r.Some? ==> exists w, u ::
                          && Instance(line, w, u)
                          && r.value == Pairing(line[w + 2..u], line[u + 4..])
                          && forall w', u' :: Instance(line, w', u') ==> w < w' || (w == w' && u' <= u)
  {
    match FirstInstance(line, 0)
    case None => None
    case Some((w, u)) => Some(Pairing(line[w + 2..u], line[u + 4..]))
  }

  /** Positions before `w` that cannot start a match are skipped. */
  lemma {:induction false} FirstInstanceSkip(line: string, from: nat, w: nat)
    requires from <= w <= |line|
    requires forall v :: from <= v < w ==> !DashAt(line, v)
    ensures FirstInstance(line, from) == FirstInstance(line, w)
    decreases w - from
  {
    if from < w { FirstInstanceSkip(line, from + 1, w); }
  }

  lemma {:induction false} LastSeparatorExact(line: string, lo: nat, u: nat, top: int)
    requires lo <= u <= top && u + 5 <= |line| && SepAt(line, u)
    requires forall v :: u < v <= top && v + 5 <= |line| ==> !SepAt(line, v)
    ensures LastSeparator(line, lo, top) == Some(u)
    decreases top - u
  {
    if u < top { LastSeparatorExact(line, lo, u, top - 1); }
  }

  /** An indented `- a -- b` line pairs `a` with `b` when `b` has no dash. */
  lemma MatchPairingLine(ws: string, a: string, b: string)
    requires ws != [] && forall i :: 0 <= i < |ws| ==> IsSpace(ws[i])
    requires a != [] && b != [] && '-' !in b
    ensures MatchPairing(ws + "- " + a + Separator + b) == Some(Pairing(a, b))
  {
    var p1 := ws + "- ";
    var p2 := p1 + a + Separator;
    var line := p2 + b;
    var w := |ws|;
    var u := w + 2 + |a|;
    assert line[..|p2|] == p2 && line[|p2|..] == b;
    assert p2[..|p1|] == p1 && p2[|p1|..u] == a && p2[u..] == Separator;
    assert p1[..w] == ws && p1[w..] == "- ";
    assert line[w + 2..u] == a;
    assert line[u + 4..] == b;
    forall v | 0 <= v < w ensures line[v] == ws[v] {
      assert line[v] == p2[v] == p1[v] == ws[v];
    }
    forall v | 0 <= v < w ensures !DashAt(line, v) {
      assert line[v] == ws[v];
    }
    assert SepAt(line, u) by { assert line[u..u + 4] == p2[u..]; }
    forall v | u < v <= |line| - 5 ensures !SepAt(line, v) {
      if v == u + 1 { assert line[v] == p2[u + 1] == '-'; }
      else if v == u + 2 { assert line[v] == p2[u + 2] == '-'; }
      else {
        assert line[v + 1] == b[v + 1 - |p2|];
      }
    }
    LastSeparatorExact(line, w + 3, u, |line| - 5);
    assert DashAt(line, w) by {
      assert IsSpace(line[w - 1]);
      assert line[w..w + 2] == p1[w..];
    }
    FirstInstanceSkip(line, 0, w);
  }
}

/**
 * The spoiler-log pass shared by the current tracker and the older spoiler
 * parser: a fold over the log's lines that
 *   - skips the "Major Items" section (the marker line and the tab-indented
 *     lines that follow it),
 *   - keeps the last `Seed: ` header,
 *   - counts every check line of a known scene, globally and per scene,
 *   - records every door pairing in both directions, and lists, in order,
 *     the doors whose partner is a shop.
 * The older parser keeps no shop list; it ignores `shops`.
 */
module Spoiler {
  import opened Wrappers
  import opened Text
  import opened Patterns
  import opened Snapshot

  const MajorItems: string := "Major Items"
  const SeedLabel: string := "Seed: "
  const Tab: string := "\t"

  /** The partner names that put a door on the shop list. */
  predicate IsShop(name: string) {
    name == "Shop" || name == "Shop Portal"
  }

  /** The pass's state: the suppression flag, the payload, the `spoiler` pairing map and `shopList`. */
  datatype Reading<E> = Reading(quiesce: bool, save: Save<E>, pairs: map<string, string>, shops: seq<string>)

  function Start<E>(s: Save<E>): Reading<E> {
    Reading(false, s, map[], [])
  }

  /** One check line of a known scene: both counters rise, and the check is stored as found or not. */
  function RecordCheck<E>(s: Save<E>, it: Item): (r: Save<E>)
    requires it.region in s.scenes
    ensures r.scenes.Keys == s.scenes.Keys
    ensures r.scenes[it.region].checks == s.scenes[it.region].checks[it.check := it.marker != '-']
    ensures r.scenes[it.region].entrances == s.scenes[it.region].entrances
    ensures r.scenes[it.region].totals.entrances == s.scenes[it.region].totals.entrances
    ensures forall k :: k in s.scenes && k != it.region ==> r.scenes[k] == s.scenes[k]
    ensures r.debug == s.debug && r.current == s.current && r.codes == s.codes
    ensures r.totals.entrances == s.totals.entrances
  {
    var hidden := if it.marker == '-' then 1 else 0;
    var sc := s.scenes[it.region];
    var c := sc.totals.checks;
    var g := s.totals.checks;
    s.(totals := s.totals.(checks := Total(g.total + 1, g.undiscovered + hidden)),
       scenes := s.scenes[it.region := sc.(
         totals := sc.totals.(checks := Total(c.total + 1, c.undiscovered + hidden)),
         checks := sc.checks[it.check := it.marker != '-'])])
  }

  /** Counting a check keeps the books balanced. */
  lemma RecordCheckBooks<E>(s: Save<E>, it: Item)
    requires it.region in s.scenes && CheckBooks(s)
    ensures CheckBooks(RecordCheck(s, it))
  {
    var r := RecordCheck(s, it);
    assert r.scenes == s.scenes[it.region := r.scenes[it.region]];
    CheckSumUpdate(s.scenes, it.region, r.scenes[it.region], false);
    CheckSumUpdate(s.scenes, it.region, r.scenes[it.region], true);
  }

  /** One pairing line: both directions recorded, two more entrances, and the shop list. */
  function Connect<E>(st: Reading<E>, p: Pairing): Reading<E> {
    var t := st.save.totals.entrances;
    st.(save := st.save.(totals := st.save.totals.(entrances := t.(total := t.total + 2))),
        pairs := st.pairs[p.from := p.to][p.to := p.from],
        shops := if IsShop(p.to) then st.shops + [p.from] else st.shops)
  }

  /** A check line whose scene is not in the payload; the pass skips the rest of that line. */
  predicate Stops(line: string, known: set<string>) {
    MatchItem(line).Some? && MatchItem(line).value.region !in known
  }

  /** The check a line counts, if any. */
  function ItemOf(line: string, known: set<string>): Option<Item> {
    match MatchItem(line)
    case Some(it) => if it.region in known then Some(it) else None
    case None => None
  }

  /** The pairing a line records, if any: the pairing pattern, when the line is not stopped first. */
  function LinkOf(line: string, known: set<string>): Option<Pairing> {
    if Stops(line, known) then None else MatchPairing(line)
  }

  /** The `Seed: ` header sets the spoiler seed to the rest of the line. */
  function Seeded<E>(s: Save<E>, line: string): (r: Save<E>)
    ensures r.scenes == s.scenes && r.totals == s.totals
  {
    if HasPrefix(line, SeedLabel) then s.(debug := s.debug.(spoilerSeed := TrimPrefix(line, SeedLabel))) else s
  }

  /** The check a line counts, if it counts one. */
  function Counted<E>(s: Save<E>, line: string): (r: Save<E>)
    ensures r.scenes.Keys == s.scenes.Keys && r.totals.entrances == s.totals.entrances && r.debug == s.debug
  {
    match ItemOf(line, s.scenes.Keys)
    case Some(it) => RecordCheck(s, it)
    case None => s
  }

  /** The pairing a line records, if it records one. */
  function Linked<E>(st: Reading<E>, line: string): (r: Reading<E>)
    ensures r.save.scenes == st.save.scenes && r.save.totals.checks == st.save.totals.checks
    ensures r.save.debug == st.save.debug && r.quiesce == st.quiesce
  {
    match LinkOf(line, st.save.scenes.Keys)
    case Some(p) => Connect(st, p)
    case None => st
  }

  /** A line outside the Major Items section: seed header, then check, then pairing. */
  function Handle<E>(st: Reading<E>, line: string): (r: Reading<E>)
    ensures !r.quiesce
    ensures r.save.scenes.Keys == st.save.scenes.Keys
  {
    Linked(Reading(false, Counted(Seeded(st.save, line), line), st.pairs, st.shops), line)
  }

  /** The check part of handling a line is the check stage alone. */
  lemma HandleChecks<E>(st: Reading<E>, line: string)
    ensures Handle(st, line).save.scenes == Counted(st.save, line).scenes
    ensures Handle(st, line).save.totals.checks == Counted(st.save, line).totals.checks
  {
  }

  /** The pairing part of handling a line is the pairing stage alone. */
  lemma HandleLinks<E>(st: Reading<E>, line: string)
    ensures Handle(st, line).pairs == Linked(st, line).pairs
    ensures Handle(st, line).shops == Linked(st, line).shops
    ensures Handle(st, line).save.totals.entrances == Linked(st, line).save.totals.entrances
  {
  }

  /** One line of the log. */
  function Step<E>(st: Reading<E>, line: string): (r: Reading<E>)
    ensures r.save.scenes.Keys == st.save.scenes.Keys
  {
    if st.quiesce && HasPrefix(line, Tab) then st
    else if line == MajorItems then st.(quiesce := true)
    else Handle(st, line)
  }

  /** The whole log, line by line. */
  function Pass<E>(st: Reading<E>, lines: seq<string>): (r: Reading<E>)
    ensures r.save.scenes.Keys == st.save.scenes.Keys
  {
    if lines == [] then st else Step(Pass(st, lines[..|lines| - 1]), lines[|lines| - 1])
  }

  // ------------------------------------------------ the Major Items section

  /** The last line of `lines` that has no leading tab is the "Major Items" marker. */
  predicate InSection(lines: seq<string>) {
    exists j :: 0 <= j < |lines| && lines[j] == MajorItems && forall k :: j < k < |lines| ==> HasPrefix(lines[k], Tab)
  }

  /** The lines the pass acts on: neither the marker nor a tab-indented line inside its section. */
  function Kept(lines: seq<string>): seq<string> {
    if lines == [] then []
    else
      var init, last := lines[..|lines| - 1], lines[|lines| - 1];
      Kept(init) + (if last == MajorItems || (HasPrefix(last, Tab) && InSection(init)) then [] else [last])
  }

  /** The kept lines, each treated as outside the section. */
  function HandleAll<E>(st: Reading<E>, lines: seq<string>): (r: Reading<E>)
    ensures r.save.scenes.Keys == st.save.scenes.Keys
    ensures lines != [] ==> !r.quiesce
  {
    if lines == [] then st else Handle(HandleAll(st, lines[..|lines| - 1]), lines[|lines| - 1])
  }

  /** How a line is handled does not depend on the suppression flag. */
  lemma HandleIgnoresQuiesce<E>(st: Reading<E>, line: string, q: bool)
    ensures Handle(st.(quiesce := q), line) == Handle(st, line)
  {
  }

  /** Neither the marker nor a `Seed: ` header starts with a tab, and a header is not the marker. */
  lemma NotTabbed(line: string)
    requires line == MajorItems || HasPrefix(line, SeedLabel)
    ensures !HasPrefix(line, Tab)
    ensures HasPrefix(line, SeedLabel) ==> line != MajorItems
  {
    PrefixLead(line, Tab);
    PrefixLead(line, SeedLabel);
  }

  /** Whether a log ends inside the section, from its last line. */
  lemma InSectionStep(lines: seq<string>)
    requires lines != []
    ensures var init, x := lines[..|lines| - 1], lines[|lines| - 1];
      InSection(lines) <==> x == MajorItems || (HasPrefix(x, Tab) && InSection(init))
  {
    var init, x := lines[..|lines| - 1], lines[|lines| - 1];
    assert forall k :: 0 <= k < |init| ==> init[k] == lines[k];
    if x == MajorItems {
      assert lines[|lines| - 1] == MajorItems;
    } else if InSection(lines) {
      var j :| 0 <= j < |lines| && lines[j] == MajorItems && forall k :: j < k < |lines| ==> HasPrefix(lines[k], Tab);
      assert j < |init|;
      assert init[j] == MajorItems;
    }
  }

  /**
   * The pass is the handling of exactly the kept lines: the "Major Items"
   * marker and every tab-indented line up to the next line without a tab are
   * skipped, and that next line is processed normally. The flag is left up
   * exactly when the log ends inside the section.
   */
  lemma {:induction false} PassSkipsSection<E>(st: Reading<E>, lines: seq<string>)
    requires !st.quiesce
    ensures Pass(st, lines) == HandleAll(st, Kept(lines)).(quiesce := InSection(lines))
  {
    if lines != [] {
      var init, x := lines[..|lines| - 1], lines[|lines| - 1];
      PassSkipsSection(st, init);
      var k := Kept(init);
      var h := HandleAll(st, k);
      assert !h.quiesce by {
        if k == [] { assert h == st; }
      }
      InSectionStep(lines);
      if x == MajorItems {
        NotTabbed(x);
        assert Kept(lines) == k;
      } else if InSection(init) && HasPrefix(x, Tab) {
        assert Kept(lines) == k;
      } else {
        assert Kept(lines) == k + [x];
        assert (k + [x])[..|k|] == k;
        HandleIgnoresQuiesce(h, x, InSection(init));
      }
    }
  }

  /** Handling a line touches no setting but the spoiler seed, and neither the code flags nor the whereabouts. */
  lemma HandleKeeps<E>(st: Reading<E>, line: string)
    ensures var r := Handle(st, line).save;
      r.codes == st.save.codes && r.current == st.save.current
      && r.debug == st.save.debug.(spoilerSeed := r.debug.spoilerSeed)
  {
    var s1 := Seeded(st.save, line);
    var s2 := Counted(s1, line);
    StagesKeep(st, s1, s2, line);
  }

  /** Each stage of handling a line keeps the code flags and the whereabouts; only the header stage sets a setting. */
  lemma StagesKeep<E>(st: Reading<E>, s1: Save<E>, s2: Save<E>, line: string)
    requires s1 == Seeded(st.save, line) && s2 == Counted(s1, line)
    ensures s1.codes == st.save.codes && s1.current == st.save.current
    ensures s1.debug == st.save.debug.(spoilerSeed := s1.debug.spoilerSeed)
    ensures s2.codes == s1.codes && s2.current == s1.current
    ensures var r := Linked(Reading(false, s2, st.pairs, st.shops), line).save;
      r.codes == s2.codes && r.current == s2.current
  {
  }

  /** The log sets no field of the payload's header but the spoiler seed. */
  lemma {:induction false} PassKeeps<E>(st: Reading<E>, lines: seq<string>)
    ensures var r := Pass(st, lines).save;
      r.codes == st.save.codes && r.current == st.save.current
      && r.debug == st.save.debug.(spoilerSeed := r.debug.spoilerSeed)
  {
    if lines != [] {
      PassKeeps(st, lines[..|lines| - 1]);
      HandleKeeps(Pass(st, lines[..|lines| - 1]), lines[|lines| - 1]);
    }
  }

  // ---------------------------------------------------------- seed header

  /** The text after the `Seed: ` label. */
  function SeedText(line: string): string {
    TrimPrefix(line, SeedLabel)
  }

  /** The spoiler seed is the rest of the last `Seed: ` line, or unchanged when there is none. */
  lemma {:induction false} PassSeed<E>(st: Reading<E>, lines: seq<string>)
    ensures Pass(st, lines).save.debug.spoilerSeed
            == LastValue(lines, SeedLabel, st.save.debug.spoilerSeed, SeedText)
  {
    if lines != [] {
      var init, x := lines[..|lines| - 1], lines[|lines| - 1];
      PassSeed(st, init);
      if HasPrefix(x, SeedLabel) {
        NotTabbed(x);
      }
    }
  }

  // --------------------------------------------------------------- checks

  /** The checks the kept lines count, in order. */
  function Items(lines: seq<string>, known: set<string>): seq<Item> {
    if lines == [] then []
    else
      Items(lines[..|lines| - 1], known)
        + match ItemOf(lines[|lines| - 1], known) case Some(it) => [it] case None => []
  }

  /** How many counted lines name `region`; only those marked `-` when `hidden`. */
  function CountIn(items: seq<Item>, region: string, hidden: bool): nat {
    if items == [] then 0
    else
      var it := items[|items| - 1];
      CountIn(items[..|items| - 1], region, hidden)
        + if it.region == region && (!hidden || it.marker == '-') then 1 else 0
  }

  /** How many counted lines are marked `-`. */
  function HiddenIn(items: seq<Item>): nat {
    if items == [] then 0
    else HiddenIn(items[..|items| - 1]) + if items[|items| - 1].marker == '-' then 1 else 0
  }

  /** Whether the last line for `check` in `region` marks it found. */
  function LastMark(items: seq<Item>, region: string, check: string): Option<bool> {
    if items == [] then None
    else
      var it := items[|items| - 1];
      if it.region == region && it.check == check then Some(it.marker != '-')
      else LastMark(items[..|items| - 1], region, check)
  }

  /** The global check counters after the kept lines count every counted line. */
  lemma {:induction false} HandleAllCheckTotals<E>(st: Reading<E>, lines: seq<string>)
    ensures var r, s, items := HandleAll(st, lines).save, st.save, Items(lines, st.save.scenes.Keys);
      && r.totals.checks.total == s.totals.checks.total + |items|
      && r.totals.checks.undiscovered == s.totals.checks.undiscovered + HiddenIn(items)
  {
    if lines != [] {
      var init, x := lines[..|lines| - 1], lines[|lines| - 1];
      HandleAllCheckTotals(st, init);
      HandleChecks(HandleAll(st, init), x);
      var before := Items(init, st.save.scenes.Keys);
      match ItemOf(x, st.save.scenes.Keys)
      case Some(it) =>
        assert Items(lines, st.save.scenes.Keys) == before + [it];
        assert (before + [it])[..|before|] == before;
      case None =>
        assert Items(lines, st.save.scenes.Keys) == before;
    }
  }

  /** Each scene's check counters after the kept lines count the lines naming it (undiscovered: those marked `-`). */
  lemma {:induction false} HandleAllSceneCounts<E>(st: Reading<E>, lines: seq<string>, k: string)
    requires k in st.save.scenes
    ensures var r, s, items := HandleAll(st, lines).save.scenes[k], st.save.scenes[k], Items(lines, st.save.scenes.Keys);
      && r.totals.checks.total == s.totals.checks.total + CountIn(items, k, false)
      && r.totals.checks.undiscovered == s.totals.checks.undiscovered + CountIn(items, k, true)
  {
    if lines != [] {
      var init, x := lines[..|lines| - 1], lines[|lines| - 1];
      HandleAllSceneCounts(st, init, k);
      HandleChecks(HandleAll(st, init), x);
      var before := Items(init, st.save.scenes.Keys);
      match ItemOf(x, st.save.scenes.Keys)
      case Some(it) =>
        assert Items(lines, st.save.scenes.Keys) == before + [it];
        assert (before + [it])[..|before|] == before;
      case None =>
        assert Items(lines, st.save.scenes.Keys) == before;
    }
  }

  /** The spoiler log writes no entrance into a scene and counts none there. */
  lemma {:induction false} PassKeepsSceneEntrances<E>(st: Reading<E>, lines: seq<string>, k: string)
    requires k in st.save.scenes
    ensures var r, s := Pass(st, lines).save.scenes[k], st.save.scenes[k];
      r.entrances == s.entrances && r.totals.entrances == s.totals.entrances
  {
    if lines != [] {
      var init, x := lines[..|lines| - 1], lines[|lines| - 1];
      PassKeepsSceneEntrances(st, init, k);
      var p := Pass(st, init);
      if !(p.quiesce && HasPrefix(x, Tab)) && x != MajorItems {
        HandleChecks(p, x);
      }
    }
  }

  /** A counted line stores its mark under its own check and leaves every other check as it was. */
  lemma CountedMark<E>(s: Save<E>, line: string, k: string, c: string)
    requires k in s.scenes
    ensures var r, e := Counted(s, line).scenes[k].checks, s.scenes[k].checks;
      match ItemOf(line, s.scenes.Keys)
      case Some(it) =>
        if it.region == k && it.check == c then c in r && r[c] == (it.marker != '-')
        else (c in r <==> c in e) && (c in r ==> r[c] == e[c])
      case None => r == e
  {
  }

  /** After the kept lines a check of a scene is stored exactly when some line names it, with the mark of the last one. */
  lemma {:induction false} HandleAllMarks<E>(st: Reading<E>, lines: seq<string>, k: string, c: string)
    requires k in st.save.scenes
    ensures var r, s, items := HandleAll(st, lines).save.scenes[k].checks, st.save.scenes[k].checks, Items(lines, st.save.scenes.Keys);
      && (c in r <==> c in s || LastMark(items, k, c).Some?)
      && (c in r ==> r[c] == if LastMark(items, k, c).Some? then LastMark(items, k, c).value else s[c])
  {
    if lines != [] {
      var init, x := lines[..|lines| - 1], lines[|lines| - 1];
      HandleAllMarks(st, init, k, c);
      HandleChecks(HandleAll(st, init), x);
      CountedMark(HandleAll(st, init).save, x, k, c);
      var before := Items(init, st.save.scenes.Keys);
      match ItemOf(x, st.save.scenes.Keys)
      case Some(it) =>
        assert Items(lines, st.save.scenes.Keys) == before + [it];
        assert (before + [it])[..|before|] == before;
      case None =>
        assert Items(lines, st.save.scenes.Keys) == before;
    }
  }

  /** Every line of the log keeps the check books balanced. */
  lemma {:induction false} PassBooks<E>(st: Reading<E>, lines: seq<string>)
    requires CheckBooks(st.save)
    ensures CheckBooks(Pass(st, lines).save)
  {
    if lines != [] {
      var init, x := lines[..|lines| - 1], lines[|lines| - 1];
      PassBooks(st, init);
      var p := Pass(st, init);
      if !(p.quiesce && HasPrefix(x, Tab)) && x != MajorItems {
        var s0 := if HasPrefix(x, SeedLabel)
          then p.save.(debug := p.save.debug.(spoilerSeed := TrimPrefix(x, SeedLabel)))
          else p.save;
        assert CheckBooks(s0);
        match ItemOf(x, s0.scenes.Keys)
        case Some(it) => RecordCheckBooks(s0, it);
        case None =>
      }
    }
  }

  // ------------------------------------------------------------- pairings

  /** The pairings the kept lines record, in order. */
  function Links(lines: seq<string>, known: set<string>): seq<Pairing> {
    if lines == [] then []
    else
      Links(lines[..|lines| - 1], known)
        + match LinkOf(lines[|lines| - 1], known) case Some(p) => [p] case None => []
  }

  /** The other end of the last pairing that names `door`. */
  function Partner(ps: seq<Pairing>, door: string): Option<string> {
    if ps == [] then None
    else
      var p := ps[|ps| - 1];
      if p.to == door then Some(p.from)
      else if p.from == door then Some(p.to)
      else Partner(ps[..|ps| - 1], door)
  }

  /** The doors paired with a shop, in order. */
  function ShopDoors(ps: seq<Pairing>): seq<string> {
    if ps == [] then []
    else ShopDoors(ps[..|ps| - 1]) + if IsShop(ps[|ps| - 1].to) then [ps[|ps| - 1].from] else []
  }

  /** A recorded pairing counts two entrances and notes its door when it leads to a shop; any other line changes neither. */
  lemma LinkedCounts<E>(st: Reading<E>, line: string)
    ensures var r, t := Linked(st, line), st.save.totals.entrances;
      && r.save.totals.entrances.undiscovered == t.undiscovered
      && match LinkOf(line, st.save.scenes.Keys)
         case Some(p) =>
           r.save.totals.entrances.total == t.total + 2
           && r.shops == st.shops + if IsShop(p.to) then [p.from] else []
         case None => r.save.totals.entrances.total == t.total && r.shops == st.shops
  {
  }

  /** Two entrances are counted per recorded pairing, and none is marked undiscovered. */
  lemma {:induction false} HandleAllLinkTotals<E>(st: Reading<E>, lines: seq<string>)
    ensures var r, ps := HandleAll(st, lines), Links(lines, st.save.scenes.Keys);
      && r.save.totals.entrances.total == st.save.totals.entrances.total + 2 * |ps|
      && r.save.totals.entrances.undiscovered == st.save.totals.entrances.undiscovered
  {
    if lines != [] {
      var init, x := lines[..|lines| - 1], lines[|lines| - 1];
      HandleAllLinkTotals(st, init);
      HandleLinks(HandleAll(st, init), x);
      LinkedCounts(HandleAll(st, init), x);
    }
  }

  /** The shop list grows by the shop-paired doors, in order. */
  lemma {:induction false} HandleAllShops<E>(st: Reading<E>, lines: seq<string>)
    ensures HandleAll(st, lines).shops == st.shops + ShopDoors(Links(lines, st.save.scenes.Keys))
  {
    if lines != [] {
      var init, x := lines[..|lines| - 1], lines[|lines| - 1];
      HandleAllShops(st, init);
      HandleLinks(HandleAll(st, init), x);
      LinkedCounts(HandleAll(st, init), x);
      var before := Links(init, st.save.scenes.Keys);
      match LinkOf(x, st.save.scenes.Keys)
      case Some(p) =>
        assert Links(lines, st.save.scenes.Keys) == before + [p];
        ShopDoorsSnoc(before, p);
      case None =>
        assert Links(lines, st.save.scenes.Keys) == before;
    }
  }

  lemma ShopDoorsSnoc(ps: seq<Pairing>, p: Pairing)
    ensures ShopDoors(ps + [p]) == ShopDoors(ps) + if IsShop(p.to) then [p.from] else []
  {
    assert (ps + [p])[..|ps|] == ps;
  }

  /** After the kept lines a door maps to the other end of the last pairing naming it. */
  lemma {:induction false} HandleAllPairs<E>(st: Reading<E>, lines: seq<string>, d: string)
    ensures var r, ps := HandleAll(st, lines).pairs, Links(lines, st.save.scenes.Keys);
      && (d in r <==> d in st.pairs || Partner(ps, d).Some?)
      && (d in r ==> r[d] == if Partner(ps, d).Some? then Partner(ps, d).value else st.pairs[d])
  {
    if lines != [] {
      var init, x := lines[..|lines| - 1], lines[|lines| - 1];
      HandleAllPairs(st, init, d);
      HandleLinks(HandleAll(st, init), x);
      var before := Links(init, st.save.scenes.Keys);
      match LinkOf(x, st.save.scenes.Keys)
      case Some(p) =>
        var ps := before + [p];
        assert Links(lines, st.save.scenes.Keys) == ps;
        assert ps[..|before|] == before;
      case None =>
        assert Links(lines, st.save.scenes.Keys) == before;
    }
  }

  /**
   * A pairing line `<ws>- a -- b` outside the section records `a -> b` and
   * `b -> a`, counts two entrances, and lists `a` exactly when `b` is a
   * shop; a check line naming an unknown scene stops it first.
   */
  lemma PairingLine<E>(st: Reading<E>, ws: string, a: string, b: string)
    requires ws != [] && forall i :: 0 <= i < |ws| ==> IsSpace(ws[i])
    requires a != [] && b != [] && '-' !in b
    requires var line := ws + "- " + a + Separator + b;
      !(st.quiesce && HasPrefix(line, Tab)) && !Stops(line, st.save.scenes.Keys)
    ensures var r := Step(st, ws + "- " + a + Separator + b);
      && r.pairs == st.pairs[a := b][b := a]
      && r.pairs[a] == (if a == b then a else b) && r.pairs[b] == a
      && r.save.totals.entrances.total == st.save.totals.entrances.total + 2
      && r.shops == if IsShop(b) then st.shops + [a] else st.shops
  {
    var line := ws + "- " + a + Separator + b;
    MatchPairingLine(ws, a, b);
    assert line[0] == ws[0];
    assert line != MajorItems by { assert MajorItems[0] == 'M'; }
  }

  /**
   * A check line outside the section: with a known scene it counts once
   * globally and in its scene, undiscovered only when marked `-`, and the
   * check is stored as found exactly when marked `x`; with an unknown scene
   * the line changes nothing but the suppression flag.
   */
  lemma CheckLine<E>(st: Reading<E>, line: string, it: Item)
    requires MatchItem(line) == Some(it) && !(st.quiesce && HasPrefix(line, Tab))
    ensures it.region !in st.save.scenes ==> Step(st, line) == st.(quiesce := false)
    ensures it.region in st.save.scenes ==>
      var r, s := Step(st, line).save, st.save;
      var hidden := if it.marker == '-' then 1 else 0;
      && r.scenes[it.region].checks[it.check] == (it.marker != '-')
      && r.scenes[it.region].totals.checks.total == s.scenes[it.region].totals.checks.total + 1
      && r.scenes[it.region].totals.checks.undiscovered == s.scenes[it.region].totals.checks.undiscovered + hidden
      && r.totals.checks.total == s.totals.checks.total + 1
      && r.totals.checks.undiscovered == s.totals.checks.undiscovered + hidden
  {
    ItemLeadsWithSpace(line);
    assert line != MajorItems by { assert MajorItems[0] == 'M'; }
    PrefixLead(line, SeedLabel);
  }

  /** A check line starts with whitespace. */
  lemma ItemLeadsWithSpace(line: string)
    requires MatchItem(line).Some?
    ensures |line| > 0 && IsSpace(line[0])
  {
    assert SkipSpace(line, 0) > 0;
  }
}

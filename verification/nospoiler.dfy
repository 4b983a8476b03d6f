/**
 * The older parser for a run without a spoiler log (`parseWithoutSpoiler`).
 * It reads the save file alone: the shorter settings chain, then the doors
 * of the portal lines in the order they occur. Those doors are guessed into
 * connections by walking the list two at a time, with a look-ahead window
 * for the shop. A final sweep blanks every listed door no portal line
 * names. No code registry is consulted and no check is counted.
 *
 * `ParseWithoutSpoiler` is the parse as the source writes it, whose pair
 * step stores the first region's record under the second region.
 * `ParseIntended` is the same parse with that step corrected.
 */
module NoSpoiler {
  import opened Text
  import opened Patterns
  import opened Snapshot
  import SaveFlags
  import Sweep
  import SavePass

  const ShopPortal: string := "Shop Portal"

  /** How far ahead the walk looks for the shop: 6 doors, or 2 with fixed shops. */
  function Lookahead(fixedShops: bool): nat {
    if fixedShops then 2 else 6
  }

  /** The global entrance total raised by `n`. */
  function Bump<E>(s: Save<E>, n: nat): (r: Save<E>)
    ensures r.scenes == s.scenes && r.debug == s.debug && r.current == s.current && r.codes == s.codes
    ensures r.totals.checks == s.totals.checks && r.totals.entrances.undiscovered == s.totals.entrances.undiscovered
    ensures r.totals.entrances.total == s.totals.entrances.total + n
  {
    s.(totals := s.totals.(entrances := s.totals.entrances.(total := s.totals.entrances.total + n)))
  }

  /** The parts of the payload the walk never writes. */
  predicate Framed<E>(s: Save<E>, r: Save<E>) {
    && r.scenes.Keys == s.scenes.Keys
    && r.debug == s.debug && r.current == s.current && r.codes == s.codes
    && r.totals.checks == s.totals.checks
    && r.totals.entrances.undiscovered == s.totals.entrances.undiscovered
  }

  // ---------------------------------------------------------------- steps

  /** One door of a shop window: a door other than "Shop Portal" that has a region leads to the shop. */
  function ShopDoor(w: World, s: Save<string>, d: string): (r: Save<string>)
    requires SavePass.Shaped(w, s)
    ensures SavePass.Shaped(w, r) && Framed(s, r)
  {
    if d == ShopPortal || d !in w.doorRegions then s
    else Bump(AddEntrance(s, w.doorRegions[d], d, ShopPortal), 1)
  }

  /** A shop window, its doors taken in order. */
  function Window(w: World, s: Save<string>, doors: seq<string>): (r: Save<string>)
    requires SavePass.Shaped(w, s)
    ensures SavePass.Shaped(w, r) && Framed(s, r)
  {
    if doors == [] then s else ShopDoor(w, Window(w, s, doors[..|doors| - 1]), doors[|doors| - 1])
  }

  /**
   * An ordinary pair: each door leads to the other, each region's total and
   * the global total rise. A door without a region leaves everything as it is.
   */
  function Pair(w: World, s: Save<string>, a: string, b: string): (r: Save<string>)
    requires SavePass.Shaped(w, s)
    ensures SavePass.Shaped(w, r) && Framed(s, r)
  {
    if a !in w.doorRegions || b !in w.doorRegions then s
    else Bump(AddEntrance(AddEntrance(s, w.doorRegions[a], a, b), w.doorRegions[b], b, a), 2)
  }

  /**
   * The pair as the source writes it: the record stored for the second
   * region is read back from the first region after that region's update.
   * Both scenes therefore hold both links, which the first scene sees
   * because the two records share one Go map at that moment; the second
   * scene takes the first scene's checks and counters with its total raised
   * twice, and its own record is lost. The sharing of later writes is not
   * modelled.
   */
  function PairAsWritten(w: World, s: Save<string>, a: string, b: string): (r: Save<string>)
    requires SavePass.Shaped(w, s)
    ensures SavePass.Shaped(w, r) && Framed(s, r)
    ensures if a in w.doorRegions && b in w.doorRegions then
        var r1, r2 := w.doorRegions[a], w.doorRegions[b];
        var both := s.scenes[r1].entrances[a := b][b := a];
        && r.scenes[r1].entrances == both && r.scenes[r2].entrances == both
        && r.scenes[r2].totals.entrances.total == s.scenes[r1].totals.entrances.total + 2
        && Untouched(s.scenes[r1], r.scenes[r2])
        && (r1 != r2 ==>
              && r.scenes[r1].totals.entrances.total == s.scenes[r1].totals.entrances.total + 1
              && Untouched(s.scenes[r1], r.scenes[r1]))
        && r.totals.entrances.total == s.totals.entrances.total + 2
        && forall k :: k in s.scenes && k != r1 && k != r2 ==> r.scenes[k] == s.scenes[k]
      else r == s
  {
    if a !in w.doorRegions || b !in w.doorRegions then s
    else
      var r1, r2 := w.doorRegions[a], w.doorRegions[b];
      var t1 := AddEntrance(s, r1, a, b).scenes[r1];
      var shared := t1.entrances[b := a];
      var e := t1.totals.entrances;
      var t2 := t1.(entrances := shared, totals := t1.totals.(entrances := e.(total := e.total + 1)));
      Bump(s.(scenes := s.scenes[r1 := t1.(entrances := shared)][r2 := t2]), 2)
  }

  /** The pair step of the walk: the source's pair, or the corrected one. */
  function PairStep(w: World, s: Save<string>, a: string, b: string, asWritten: bool): (r: Save<string>)
    requires SavePass.Shaped(w, s)
    ensures SavePass.Shaped(w, r) && Framed(s, r)
  {
    if asWritten then PairAsWritten(w, s, a, b) else Pair(w, s, a, b)
  }

  /**
   * The walk over the portal doors from cursor `i`. A cursor acts only when
   * `i + Lookahead` is still inside the list; it then either fills a shop
   * window and moves on by the window plus two, or pairs `es[i]` with
   * `es[i + 1]` and moves on by two. `asWritten` selects the source's pair
   * step; without it the walk uses the corrected one.
   */
  function Walk(w: World, s: Save<string>, es: seq<string>, i: nat, fixedShops: bool, asWritten: bool): (r: Save<string>)
    requires SavePass.Shaped(w, s)
    ensures SavePass.Shaped(w, r) && Framed(s, r)
    decreases |es| - i
  {
    if i >= |es| then s
    else
      var n := Lookahead(fixedShops);
      if i + n < |es| then
        if es[i] == ShopPortal || es[i + 1] == ShopPortal then
          Walk(w, Window(w, s, es[i..i + n]), es, i + n + 2, fixedShops, asWritten)
        else Walk(w, PairStep(w, s, es[i], es[i + 1], asWritten), es, i + 2, fixedShops, asWritten)
      else Walk(w, s, es, i + 2, fixedShops, asWritten)
  }

  /** The walk as the source's loop runs it, with the window's own inner loop. */
  method Cursor(w: World, s: Save<string>, es: seq<string>, fixedShops: bool, asWritten: bool) returns (r: Save<string>)
    requires SavePass.Shaped(w, s)
    ensures r == Walk(w, s, es, 0, fixedShops, asWritten)
  {
    var n := Lookahead(fixedShops);
    r := s;
    var i := 0;
    while i < |es|
      invariant SavePass.Shaped(w, r)
      invariant Walk(w, r, es, i, fixedShops, asWritten) == Walk(w, s, es, 0, fixedShops, asWritten)
      decreases |es| - i
    {
      if i + n < |es| {
        if es[i] == ShopPortal || es[i + 1] == ShopPortal {
          r := Fill(w, r, es[i..i + n]);
          i := i + n;
        } else if asWritten {
          r := PairAsWritten(w, r, es[i], es[i + 1]);
        } else {
          r := Pair(w, r, es[i], es[i + 1]);
        }
      }
      i := i + 2;
    }
  }

  /** The shop window's inner loop. */
  method Fill(w: World, s: Save<string>, doors: seq<string>) returns (r: Save<string>)
    requires SavePass.Shaped(w, s)
    ensures r == Window(w, s, doors)
  {
    r := s;
    var j := 0;
    while j < |doors|
      invariant j <= |doors| && SavePass.Shaped(w, r)
      invariant r == Window(w, s, doors[..j])
    {
      assert doors[..j + 1][..j] == doors[..j];
      r := ShopDoor(w, r, doors[j]);
      j := j + 1;
    }
    assert doors[..j] == doors;
  }

  // ------------------------------------------------------------- the parse

  /** The sweep of this parser: shops are not skipped, unseen doors are blanked and not counted in the total. */
  const Policy: Sweep.Policy<string> := Sweep.Policy(false, "", false)

  /** The doors of the portal lines, in file order and with repeats. */
  function Tokens(lines: seq<string>): (r: seq<string>)
    ensures forall i :: 0 <= i < |r| ==> PortalToken(r[i])
  {
    if lines == [] then []
    else
      Tokens(lines[..|lines| - 1])
        + match MatchPortal(lines[|lines| - 1]) case Some(d) => [d] case None => []
  }

  /** The settings of the shorter chain on an empty payload without codes. */
  function Flagged(w: World, save: seq<string>): (r: Save<string>)
    requires Consistent(w)
    ensures SavePass.Shaped(w, r)
  {
    SaveFlags.ApplyAll(Skeleton<string>(w, map[]), save, w.translate, true)
  }

  /** The payload after the walk, before the sweep, with the source's pair step or the corrected one. */
  function Walked(w: World, save: seq<string>, asWritten: bool): (r: Save<string>)
    requires Consistent(w)
    ensures SavePass.Shaped(w, r)
  {
    var s := Flagged(w, save);
    Walk(w, s, Tokens(save), 0, s.debug.fixedShops, asWritten)
  }

  /** The payload of a run without a spoiler log, from the lines of the newest save file. */
  function ParseWithoutSpoiler(w: World, save: seq<string>): (r: Save<string>)
    requires Consistent(w)
    ensures r.scenes.Keys == SceneSet(w)
  {
    Sweep.Swept(w, Policy, Walked(w, save, true), SavePass.Portals(save))
  }

  /** The same parse with the corrected pair step. */
  function ParseIntended(w: World, save: seq<string>): (r: Save<string>)
    requires Consistent(w)
    ensures r.scenes.Keys == SceneSet(w)
  {
    Sweep.Swept(w, Policy, Walked(w, save, false), SavePass.Portals(save))
  }

  // ------------------------------------------------------------ properties

  /** The tokens are the doors of the portal lines: the same set as the sweep's lookup. */
  lemma {:induction false} TokensArePortals(lines: seq<string>)
    ensures forall d :: d in Tokens(lines) <==> d in SavePass.Portals(lines)
  {
    if lines != [] {
      TokensArePortals(lines[..|lines| - 1]);
    }
  }

  /**
   * Every entrance recorded in scene `k` is one of the tokens `es`, has a
   * region, which is `k` itself when `inRegion` is asked for, and leads
   * either to the shop or to another token.
   */
  ghost predicate SceneFits(w: World, k: string, sc: Scene<string>, es: seq<string>, inRegion: bool) {
    forall d :: d in sc.entrances ==>
      && d in es && d in w.doorRegions && (inRegion ==> w.doorRegions[d] == k)
      && (sc.entrances[d] == ShopPortal || sc.entrances[d] in es)
  }

  /** Every scene's recorded entrances fit it. */
  ghost predicate Placed(w: World, s: Save<string>, es: seq<string>, inRegion: bool) {
    forall k :: k in s.scenes ==> SceneFits(w, k, s.scenes[k], es, inRegion)
  }

  /**
   * A pair with both regions known links the doors both ways, each in its
   * own region, raises each region's total once and the global total twice,
   * and leaves every other scene alone; with a region unknown nothing changes.
   */
  lemma PairLinks(w: World, s: Save<string>, a: string, b: string)
    requires SavePass.Shaped(w, s)
    ensures var r := Pair(w, s, a, b);
      if a in w.doorRegions && b in w.doorRegions then
        var ra, rb := w.doorRegions[a], w.doorRegions[b];
        && r.scenes[ra].entrances[a] == b && r.scenes[rb].entrances[b] == a
        && r.totals.entrances.total == s.totals.entrances.total + 2
        && (ra != rb ==>
              && r.scenes[ra].entrances == s.scenes[ra].entrances[a := b]
              && r.scenes[rb].entrances == s.scenes[rb].entrances[b := a]
              && r.scenes[ra].totals.entrances.total == s.scenes[ra].totals.entrances.total + 1
              && r.scenes[rb].totals.entrances.total == s.scenes[rb].totals.entrances.total + 1)
        && (ra == rb ==> r.scenes[ra].totals.entrances.total == s.scenes[ra].totals.entrances.total + 2)
        && forall k :: k in s.scenes && k != ra && k != rb ==> r.scenes[k] == s.scenes[k]
      else r == s
  {
  }

  /** Recording a token in its own region, leading to the shop or to a token, keeps the entrances placed. */
  lemma AddPlaced(w: World, s: Save<string>, es: seq<string>, d: string, v: string, inRegion: bool)
    requires SavePass.Shaped(w, s) && Placed(w, s, es, inRegion)
    requires d in es && d in w.doorRegions && (v == ShopPortal || v in es)
    ensures Placed(w, AddEntrance(s, w.doorRegions[d], d, v), es, inRegion)
  {
    var k := w.doorRegions[d];
    assert SceneFits(w, k, s.scenes[k], es, inRegion);
  }

  lemma ShopDoorPlaced(w: World, s: Save<string>, es: seq<string>, d: string, inRegion: bool)
    requires SavePass.Shaped(w, s) && Placed(w, s, es, inRegion) && d in es
    ensures Placed(w, ShopDoor(w, s, d), es, inRegion)
  {
    if d != ShopPortal && d in w.doorRegions {
      AddPlaced(w, s, es, d, ShopPortal, inRegion);
    }
  }

  lemma PairPlaced(w: World, s: Save<string>, es: seq<string>, a: string, b: string, inRegion: bool)
    requires SavePass.Shaped(w, s) && Placed(w, s, es, inRegion) && a in es && b in es
    ensures Placed(w, Pair(w, s, a, b), es, inRegion)
  {
    if a in w.doorRegions && b in w.doorRegions {
      AddPlaced(w, s, es, a, b, inRegion);
      AddPlaced(w, AddEntrance(s, w.doorRegions[a], a, b), es, b, a, inRegion);
    }
  }

  /** The source's pair records only tokens leading to tokens, though not each in its own region. */
  lemma PairAsWrittenPlaced(w: World, s: Save<string>, es: seq<string>, a: string, b: string)
    requires SavePass.Shaped(w, s) && Placed(w, s, es, false) && a in es && b in es
    ensures Placed(w, PairAsWritten(w, s, a, b), es, false)
  {
    if a in w.doorRegions && b in w.doorRegions {
      var r := PairAsWritten(w, s, a, b);
      var r1, r2 := w.doorRegions[a], w.doorRegions[b];
      var both := s.scenes[r1].entrances[a := b][b := a];
      assert SceneFits(w, r1, s.scenes[r1], es, false);
      assert SceneFits(w, r1, Scene(NoTotals, map[], both), es, false);
      forall k | k in r.scenes
        ensures SceneFits(w, k, r.scenes[k], es, false)
      {
        if k == r1 || k == r2 {
          assert r.scenes[k].entrances == both;
        } else {
          assert SceneFits(w, k, s.scenes[k], es, false);
        }
      }
    }
  }

  lemma {:induction false} WindowPlaced(w: World, s: Save<string>, es: seq<string>, doors: seq<string>, inRegion: bool)
    requires SavePass.Shaped(w, s) && Placed(w, s, es, inRegion)
    requires forall x :: x in doors ==> x in es
    ensures Placed(w, Window(w, s, doors), es, inRegion)
  {
    if doors != [] {
      var init := doors[..|doors| - 1];
      WindowPlaced(w, s, es, init, inRegion);
      ShopDoorPlaced(w, Window(w, s, init), es, doors[|doors| - 1], inRegion);
    }
  }

  lemma ShopDoorEntrance(w: World, s: Save<string>, x: string, k: string, d: string)
    requires SavePass.Shaped(w, s) && k in s.scenes
    ensures var r, e := ShopDoor(w, s, x).scenes[k].entrances, s.scenes[k].entrances;
      if d == x && d != ShopPortal && d in w.doorRegions && w.doorRegions[d] == k
      then d in r && r[d] == ShopPortal
      else (d in r <==> d in e) && (d in r ==> r[d] == e[d])
  {
  }

  /** The shop window writes "Shop Portal" for exactly its doors that are not "Shop Portal" and have a region. */
  lemma {:induction false} WindowEntrance(w: World, s: Save<string>, doors: seq<string>, k: string, d: string)
    requires SavePass.Shaped(w, s) && k in s.scenes
    ensures var r, e := Window(w, s, doors).scenes[k].entrances, s.scenes[k].entrances;
      if d in doors && d != ShopPortal && d in w.doorRegions && w.doorRegions[d] == k
      then d in r && r[d] == ShopPortal
      else (d in r <==> d in e) && (d in r ==> r[d] == e[d])
  {
    if doors != [] {
      var init := doors[..|doors| - 1];
      WindowEntrance(w, s, init, k, d);
      ShopDoorEntrance(w, Window(w, s, init), doors[|doors| - 1], k, d);
      assert doors == init + [doors[|doors| - 1]];
    }
  }

  /**
   * Both walks record only tokens with a region, leading to the shop or to
   * a token; the corrected walk also keeps each door in its own region.
   */
  lemma {:induction false} WalkPlaced(w: World, s: Save<string>, es: seq<string>, i: nat, fixedShops: bool, asWritten: bool)
    requires SavePass.Shaped(w, s) && Placed(w, s, es, !asWritten)
    ensures Placed(w, Walk(w, s, es, i, fixedShops, asWritten), es, !asWritten)
    decreases |es| - i
  {
    if i < |es| {
      var n := Lookahead(fixedShops);
      if i + n < |es| {
        if es[i] == ShopPortal || es[i + 1] == ShopPortal {
          var doors := es[i..i + n];
          assert forall x :: x in doors ==> x in es by {
            forall x | x in doors ensures x in es {
              var p :| 0 <= p < |doors| && doors[p] == x;
              assert es[i + p] == x;
            }
          }
          WindowPlaced(w, s, es, doors, !asWritten);
          WalkPlaced(w, Window(w, s, doors), es, i + n + 2, fixedShops, asWritten);
        } else {
          if asWritten {
            PairAsWrittenPlaced(w, s, es, es[i], es[i + 1]);
          } else {
            PairPlaced(w, s, es, es[i], es[i + 1], true);
          }
          WalkPlaced(w, PairStep(w, s, es[i], es[i + 1], asWritten), es, i + 2, fixedShops, asWritten);
        }
      } else {
        WalkPlaced(w, s, es, i + 2, fixedShops, asWritten);
      }
    }
  }

  /**
   * The walk from cursor `i` reads no door before `i` and never the last
   * door: two lists that agree on the positions from `i` up to the last
   * one walk alike.
   */
  lemma {:induction false} WalkReads(w: World, s: Save<string>, es: seq<string>, fs: seq<string>, i: nat, fixedShops: bool, asWritten: bool)
    requires SavePass.Shaped(w, s) && |es| == |fs|
    requires forall p :: i <= p < |es| - 1 ==> es[p] == fs[p]
    ensures Walk(w, s, es, i, fixedShops, asWritten) == Walk(w, s, fs, i, fixedShops, asWritten)
    decreases |es| - i
  {
    if i < |es| {
      var n := Lookahead(fixedShops);
      if i + n < |es| {
        assert es[i..i + n] == fs[i..i + n];
        if es[i] == ShopPortal || es[i + 1] == ShopPortal {
          WalkReads(w, Window(w, s, es[i..i + n]), es, fs, i + n + 2, fixedShops, asWritten);
        } else {
          WalkReads(w, PairStep(w, s, es[i], es[i + 1], asWritten), es, fs, i + 2, fixedShops, asWritten);
        }
      } else {
        WalkReads(w, s, es, fs, i + 2, fixedShops, asWritten);
      }
    }
  }

  /** A cursor too close to the end acts no more: the trailing doors are never written. */
  lemma {:induction false} WalkTail(w: World, s: Save<string>, es: seq<string>, i: nat, fixedShops: bool, asWritten: bool)
    requires SavePass.Shaped(w, s) && i + Lookahead(fixedShops) >= |es|
    ensures Walk(w, s, es, i, fixedShops, asWritten) == s
    decreases |es| - i
  {
    if i < |es| {
      WalkTail(w, s, es, i + 2, fixedShops, asWritten);
    }
  }

  /** After a shop window the two doors just past it are skipped: whatever they are, the walk is the same. */
  lemma WindowSkips(w: World, s: Save<string>, es: seq<string>, i: nat, fixedShops: bool, asWritten: bool, x: string, y: string)
    requires SavePass.Shaped(w, s)
    requires i + Lookahead(fixedShops) + 1 < |es|
    requires es[i] == ShopPortal || es[i + 1] == ShopPortal
    ensures var n := Lookahead(fixedShops);
      Walk(w, s, es, i, fixedShops, asWritten) == Walk(w, s, es[i + n := x][i + n + 1 := y], i, fixedShops, asWritten)
  {
    var n := Lookahead(fixedShops);
    var fs := es[i + n := x][i + n + 1 := y];
    assert es[i..i + n] == fs[i..i + n];
    WalkReads(w, Window(w, s, es[i..i + n]), es, fs, i + n + 2, fixedShops, asWritten);
  }

  /** The parse's settings: the shorter chain over the save lines, no codes, and nothing from a spoiler log. */
  lemma ParseHeader(w: World, save: seq<string>)
    requires Consistent(w)
    ensures var r := ParseWithoutSpoiler(w, save);
      && r.debug == NoDebug.(
           seed := LastValue(save, SaveFlags.SeedKey, "", SaveFlags.Field1Of),
           archipelago := SaveFlags.ArchipelagoLine in save,
           randomized := SaveFlags.ArchipelagoLine in save || SaveFlags.RandomizerLine in save,
           hexQuest := SaveFlags.HexQuestLine in save,
           entranceRando := SaveFlags.EntranceRandoLine in save,
           fixedShops := SaveFlags.FixedShopLine in save)
      && r.current == NoCurrent.(scene := LastValue(save, SaveFlags.SpawnKey, "", SaveFlags.SceneReader(w.translate)))
      && r.codes == map[]
  {
    var s0 := Skeleton<string>(w, map[]);
    SaveFlags.ApplyAllSwitches(s0, save, w.translate, true);
    SaveFlags.ApplyAllValues(s0, save, w.translate, true);
  }

  /** The window is two doors wide exactly when the fixed-shop line occurs in the save. */
  lemma WindowWidth(w: World, save: seq<string>)
    requires Consistent(w)
    ensures Lookahead(Flagged(w, save).debug.fixedShops) == if SaveFlags.FixedShopLine in save then 2 else 6
  {
    SaveFlags.ApplyAllSwitches(Skeleton<string>(w, map[]), save, w.translate, true);
  }

  /**
   * Each scene's entrance counters after the parse: the sweep raises the
   * undiscovered count by every listed door of the scene no portal line
   * names, shops included, and leaves the total at what the walk counted.
   * The global undiscovered count is the number of such doors overall.
   */
  lemma ParseCounts(w: World, save: seq<string>, k: string)
    requires Consistent(w) && k in SceneSet(w)
    ensures var r, s, seen := ParseWithoutSpoiler(w, save), Walked(w, save, true), SavePass.Portals(save);
      && r.scenes[k].totals.entrances.undiscovered == PendingIn(seen, Sweep.Listing(w.allDoors), k)
      && r.scenes[k].totals.entrances.total == s.scenes[k].totals.entrances.total
      && r.totals.entrances.undiscovered == Sweep.PendingAll(Policy, seen, Sweep.Listing(w.allDoors))
      && r.totals.entrances.total == s.totals.entrances.total
  {
    var s := Walked(w, save, true);
    Sweep.ListingCovered(w, s);
    var s0 := Flagged(w, save);
    Sweep.SweepCounts(s, Policy, Sweep.Listing(w.allDoors), SavePass.Portals(save), k);
    PendingInUnseen(SavePass.Portals(save), Sweep.Listing(w.allDoors), k);
    WalkBlank(w, s0, Tokens(save), 0, s0.debug.fixedShops, true);
  }

  /** The parse counts no checks: every scene's checks stay empty and all check counters zero. */
  lemma ParseChecks(w: World, save: seq<string>, k: string)
    requires Consistent(w) && k in SceneSet(w)
    ensures var r := ParseWithoutSpoiler(w, save);
      r.scenes[k].checks == map[] && r.scenes[k].totals.checks == NoTotal && r.totals.checks == NoTotal
  {
    var s := Walked(w, save, true);
    var s0 := Flagged(w, save);
    Sweep.ListingCovered(w, s);
    Sweep.SweepCounts(s, Policy, Sweep.Listing(w.allDoors), SavePass.Portals(save), k);
    WalkBlank(w, s0, Tokens(save), 0, s0.debug.fixedShops, true);
  }

  /** How many listed doors of `scene` are not among `seen`. */
  function PendingIn(seen: set<string>, listing: seq<(string, string)>, scene: string): (n: nat)
    ensures n <= |listing|
  {
    if listing == [] then 0
    else
      var last := listing[|listing| - 1];
      PendingIn(seen, listing[..|listing| - 1], scene) + if last.0 == scene && last.1 !in seen then 1 else 0
  }

  /** Without shop skipping, the sweep acts on exactly the unseen listed doors. */
  lemma {:induction false} PendingInUnseen(seen: set<string>, listing: seq<(string, string)>, scene: string)
    ensures Sweep.PendingIn(Policy, seen, listing, scene) == PendingIn(seen, listing, scene)
  {
    if listing != [] {
      PendingInUnseen(seen, listing[..|listing| - 1], scene);
    }
  }

  /** What the corrected walk leaves in a scene: its checks, check counters and undiscovered count. */
  predicate Untouched(a: Scene<string>, b: Scene<string>) {
    a.checks == b.checks && a.totals.checks == b.totals.checks
    && a.totals.entrances.undiscovered == b.totals.entrances.undiscovered
  }

  /** The corrected walk writes no checks and marks nothing undiscovered. */
  lemma {:induction false} WalkKeeps(w: World, s: Save<string>, es: seq<string>, i: nat, fixedShops: bool, k: string)
    requires SavePass.Shaped(w, s) && k in s.scenes
    ensures var r := Walk(w, s, es, i, fixedShops, false);
      Untouched(s.scenes[k], r.scenes[k])
    decreases |es| - i
  {
    if i < |es| {
      var n := Lookahead(fixedShops);
      if i + n < |es| {
        if es[i] == ShopPortal || es[i + 1] == ShopPortal {
          WindowKeeps(w, s, es[i..i + n], k);
          WalkKeeps(w, Window(w, s, es[i..i + n]), es, i + n + 2, fixedShops, k);
        } else {
          WalkKeeps(w, Pair(w, s, es[i], es[i + 1]), es, i + 2, fixedShops, k);
        }
      } else {
        WalkKeeps(w, s, es, i + 2, fixedShops, k);
      }
    }
  }

  lemma {:induction false} WindowKeeps(w: World, s: Save<string>, doors: seq<string>, k: string)
    requires SavePass.Shaped(w, s) && k in s.scenes
    ensures var r := Window(w, s, doors);
      Untouched(s.scenes[k], r.scenes[k])
  {
    if doors != [] {
      WindowKeeps(w, s, doors[..|doors| - 1], k);
    }
  }

  /** No scene holds a check, a check count or an undiscovered entrance. */
  predicate Blank(s: Save<string>) {
    forall k :: k in s.scenes ==>
      s.scenes[k].checks == map[] && s.scenes[k].totals.checks == NoTotal && s.scenes[k].totals.entrances.undiscovered == 0
  }

  /**
   * Both walks keep a blank payload blank. The source's pair copies the
   * first region's checks and counters into the second region, so for it
   * this holds of blank payloads and not of every payload.
   */
  lemma {:induction false} WalkBlank(w: World, s: Save<string>, es: seq<string>, i: nat, fixedShops: bool, asWritten: bool)
    requires SavePass.Shaped(w, s) && Blank(s)
    ensures Blank(Walk(w, s, es, i, fixedShops, asWritten))
    decreases |es| - i
  {
    if i < |es| {
      var n := Lookahead(fixedShops);
      if i + n < |es| {
        if es[i] == ShopPortal || es[i + 1] == ShopPortal {
          var r := Window(w, s, es[i..i + n]);
          forall k | k in r.scenes
            ensures r.scenes[k].checks == map[] && r.scenes[k].totals.checks == NoTotal && r.scenes[k].totals.entrances.undiscovered == 0
          {
            WindowKeeps(w, s, es[i..i + n], k);
          }
          WalkBlank(w, r, es, i + n + 2, fixedShops, asWritten);
        } else {
          WalkBlank(w, PairStep(w, s, es[i], es[i + 1], asWritten), es, i + 2, fixedShops, asWritten);
        }
      } else {
        WalkBlank(w, s, es, i + 2, fixedShops, asWritten);
      }
    }
  }

  /**
   * The entrance a door holds after the parse: a listed door of the scene
   * that no portal line names is blank; any other recorded door is a
   * portal door with a region, leading to the shop or to a portal door. The
   * door need not belong to this scene (see `PairAsWrittenMisplaces`).
   */
  lemma ParseEntrance(w: World, save: seq<string>, k: string, d: string)
    requires Consistent(w) && k in SceneSet(w)
    ensures var r := ParseWithoutSpoiler(w, save).scenes[k].entrances;
      if (k, d) in Sweep.Listing(w.allDoors) && d !in SavePass.Portals(save) then d in r && r[d] == ""
      else d in r ==>
        && d in SavePass.Portals(save) && d in w.doorRegions
        && (r[d] == ShopPortal || r[d] in SavePass.Portals(save))
  {
    var s0 := Flagged(w, save);
    var es := Tokens(save);
    var s := Walked(w, save, true);
    assert Placed(w, s0, es, false);
    WalkPlaced(w, s0, es, 0, s0.debug.fixedShops, true);
    assert SceneFits(w, k, s.scenes[k], es, false);
    TokensArePortals(save);
    Sweep.ListingCovered(w, s);
    Sweep.SweepEntrances(s, Policy, Sweep.Listing(w.allDoors), SavePass.Portals(save), k, d);
  }

  /**
   * The same with the corrected pair step, where every recorded door also
   * belongs to the scene that holds it.
   */
  lemma IntendedEntrance(w: World, save: seq<string>, k: string, d: string)
    requires Consistent(w) && k in SceneSet(w)
    ensures var r := ParseIntended(w, save).scenes[k].entrances;
      if (k, d) in Sweep.Listing(w.allDoors) && d !in SavePass.Portals(save) then d in r && r[d] == ""
      else d in r ==>
        && d in SavePass.Portals(save) && d in w.doorRegions && w.doorRegions[d] == k
        && (r[d] == ShopPortal || r[d] in SavePass.Portals(save))
  {
    var s0 := Flagged(w, save);
    var es := Tokens(save);
    var s := Walked(w, save, false);
    assert Placed(w, s0, es, true);
    WalkPlaced(w, s0, es, 0, s0.debug.fixedShops, false);
    assert SceneFits(w, k, s.scenes[k], es, true);
    TokensArePortals(save);
    Sweep.ListingCovered(w, s);
    Sweep.SweepEntrances(s, Policy, Sweep.Listing(w.allDoors), SavePass.Portals(save), k, d);
  }

  /** Two scenes besides the shop, with door "a" in "A" and door "b" in "B". */
  function Example(): (w: World)
    ensures Consistent(w) && SceneSet(w) == {"A", "B", "Shop"}
    ensures w.doorRegions == map["a" := "A", "b" := "B"]
  {
    var w := World(["A", "B", "Shop"], [], map["a" := "A", "b" := "B"], (t: string) => t);
    assert w.sceneNames[0] == "A" && w.sceneNames[1] == "B" && w.sceneNames[2] == "Shop";
    w
  }

  /**
   * The source's pair misplaces doors. With "a" in scene "A" and "b" in
   * scene "B", the walk over ["a", "b", "x"] with fixed shops stores "a" in
   * "B" with a total of two there, where the corrected walk keeps "B" to
   * "b" alone.
   */
  lemma PairAsWrittenMisplaces()
    ensures var w := Example();
      var s := Skeleton<string>(w, map[]);
      var bad := Walk(w, s, ["a", "b", "x"], 0, true, true);
      && SavePass.Shaped(w, s)
      && "a" in bad.scenes["B"].entrances && bad.scenes["B"].totals.entrances.total == 2
      && !Placed(w, bad, ["a", "b", "x"], true)
  {
    var w := Example();
    var s := Skeleton<string>(w, map[]);
    var p := PairAsWritten(w, s, "a", "b");
    WalkTail(w, p, ["a", "b", "x"], 2, true, true);
    assert p.scenes["B"].entrances["a"] == "b";
    assert !SceneFits(w, "B", p.scenes["B"], ["a", "b", "x"], true);
  }

  /** On the same input the corrected walk keeps "B" to "b" alone, counted once. */
  lemma PairKeepsRegions()
    ensures var w := Example();
      var s := Skeleton<string>(w, map[]);
      var good := Walk(w, s, ["a", "b", "x"], 0, true, false);
      && SavePass.Shaped(w, s)
      && good.scenes["B"].entrances == map["b" := "a"] && good.scenes["B"].totals.entrances.total == 1
  {
    var w := Example();
    var s := Skeleton<string>(w, map[]);
    var p := Pair(w, s, "a", "b");
    WalkTail(w, p, ["a", "b", "x"], 2, true, false);
    assert s.scenes["B"].entrances == map[];
  }
}

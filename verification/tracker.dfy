/**
 * The current tracker's `ParseWithSpoiler`: build the skeleton, fold the
 * spoiler log, fold the save file (settings, code flags, portal use), sweep
 * the doors never used, list the shop portals, and publish the result only
 * when every file could be read. The stages it shares with the older
 * spoiler parser are in `SpoilerParse`; the code registry is a parameter
 * of the build, `TrackerCodes.Rows` in the parse itself.
 */
module Tracker {
  import opened Wrappers
  import opened Text
  import opened Patterns
  import opened Snapshot
  import opened Codes
  import TrackerCodes
  import SaveFlags
  import Spoiler
  import Sweep
  import SavePass
  import opened SpoilerParse

  // ---------------------------------------------------------- save pass

  /**
   * Where a portal line for door `d` is recorded, if at all: in `d`'s
   * region, as the door it is paired with and that door's region. Nothing is
   * recorded when the spoiler pairs `d` with nothing or either door has no region.
   */
  function Resolve(w: World, pairs: map<string, string>, d: string): (r: Option<(string, Door)>)
    ensures r.Some? <==> d in pairs && d in w.doorRegions && pairs[d] in w.doorRegions
    ensures r.Some? ==> r.value == (w.doorRegions[d], Door(w.doorRegions[pairs[d]], pairs[d]))
  {
    if d in pairs && d in w.doorRegions && pairs[d] in w.doorRegions then
      Some((w.doorRegions[d], Door(w.doorRegions[pairs[d]], pairs[d])))
    else None
  }

  /** The current tracker notes "Shop" and resolves every other portal through the spoiler pairing. */
  function Portal(w: World, pairs: map<string, string>): (r: SavePass.Rule<Door>)
    requires Consistent(w)
    ensures SavePass.Fits(w, r)
  {
    SavePass.Rule({"Shop"}, d => Resolve(w, pairs, d))
  }

  /**
   * A portal line for a door other than "Shop" records it, in its own
   * region and as its spoiler partner with that partner's region, exactly
   * when the spoiler pairs it and both doors have a region.
   */
  lemma PortalPlaces(w: World, pairs: map<string, string>, d: string, scene: string)
    requires Consistent(w)
    ensures SavePass.PlacedIn(Portal(w, pairs), d, scene) <==>
      d != "Shop" && d in pairs && d in w.doorRegions && pairs[d] in w.doorRegions && w.doorRegions[d] == scene
    ensures SavePass.PlacedIn(Portal(w, pairs), d, scene) ==>
      Portal(w, pairs).place(d).value.1 == Door(w.doorRegions[pairs[d]], pairs[d])
  {
  }

  // ---------------------------------------------------------- shops

  /** The key of the `n`-th listed shop portal, counting from 1. */
  function ShopLabel(n: nat): string {
    "Shop Portal " + Decimal(n)
  }

  lemma ShopLabelInjective(a: nat, b: nat)
    requires ShopLabel(a) == ShopLabel(b)
    ensures a == b
  {
    PrefixCancel("Shop Portal ", Decimal(a), Decimal(b));
    if a != b { DecimalInjective(a, b); }
  }

  /** A door's region, or "" when it has none (Go's zero value for a missing key). */
  function RegionOf(regions: map<string, string>, door: string): string {
    if door in regions then regions[door] else ""
  }

  /** The shop list projected into the "Shop" scene, one numbered portal per listed door. */
  function Stock(s: Save<Door>, regions: map<string, string>, shops: seq<string>): (r: Save<Door>)
    requires "Shop" in s.scenes
    ensures r.scenes.Keys == s.scenes.Keys
    ensures r.debug == s.debug && r.current == s.current && r.totals == s.totals && r.codes == s.codes
    ensures forall k :: k in s.scenes && k != "Shop" ==> r.scenes[k] == s.scenes[k]
  {
    if shops == [] then s
    else
      var n := |shops|;
      AddEntrance(Stock(s, regions, shops[..n - 1]), "Shop", ShopLabel(n), Door(RegionOf(regions, shops[n - 1]), shops[n - 1]))
  }

  /** The labels "Shop Portal 1" .. "Shop Portal n". */
  function Labels(n: nat): set<string> {
    if n == 0 then {} else Labels(n - 1) + {ShopLabel(n)}
  }

  lemma {:induction false} LabelsExact(n: nat, m: nat)
    ensures ShopLabel(m) in Labels(n) <==> 1 <= m <= n
  {
    if n > 0 {
      LabelsExact(n - 1, m);
      if ShopLabel(m) == ShopLabel(n) { ShopLabelInjective(m, n); }
    }
  }

  /** Projecting n listed shop doors raises the "Shop" scene's entrance total by n and nothing else of its counters or checks. */
  lemma {:induction false} StockCounts(s: Save<Door>, regions: map<string, string>, shops: seq<string>)
    requires "Shop" in s.scenes
    ensures var r, o := Stock(s, regions, shops).scenes["Shop"], s.scenes["Shop"];
      && r.totals.entrances.total == o.totals.entrances.total + |shops|
      && r.totals.entrances.undiscovered == o.totals.entrances.undiscovered
      && r.checks == o.checks && r.totals.checks == o.totals.checks
  {
    if shops != [] {
      StockCounts(s, regions, shops[..|shops| - 1]);
    }
  }

  /** "Shop Portal i" leads to the i-th listed door, with that door's region or "" when it has none. */
  lemma {:induction false} StockLabel(s: Save<Door>, regions: map<string, string>, shops: seq<string>, i: nat)
    requires "Shop" in s.scenes && 1 <= i <= |shops|
    ensures var r := Stock(s, regions, shops).scenes["Shop"].entrances;
      ShopLabel(i) in r && r[ShopLabel(i)] == Door(RegionOf(regions, shops[i - 1]), shops[i - 1])
  {
    var n := |shops|;
    if i < n {
      StockLabel(s, regions, shops[..n - 1], i);
      if ShopLabel(i) == ShopLabel(n) { ShopLabelInjective(i, n); }
    }
  }

  /** Every key of the "Shop" scene other than the n labels keeps its entry. */
  lemma {:induction false} StockOthers(s: Save<Door>, regions: map<string, string>, shops: seq<string>, k: string)
    requires "Shop" in s.scenes && k !in Labels(|shops|)
    ensures var r, o := Stock(s, regions, shops).scenes["Shop"].entrances, s.scenes["Shop"].entrances;
      (k in r <==> k in o) && (k in r ==> r[k] == o[k])
  {
    if shops != [] {
      StockOthers(s, regions, shops[..|shops| - 1], k);
    }
  }

  // ------------------------------------------------------------ parsing

  /** The result of one parse: a payload to publish, or the reason there is none. */
  datatype Outcome = Published(save: Save<Door>) | Failed(why: Failure)

  /** The current tracker's sweep: shop doors skipped, `Door{}` stored, scene totals counted. */
  const Policy: Sweep.Policy<Door> := Sweep.Policy(true, UnknownDoor, true)


  /** The sweep, then the shop list when a shop was visited. */
  function Finish(w: World, v: SavePass.Visit<Door>, shops: seq<string>): (r: Save<Door>)
    requires SavePass.Shaped(w, v.save)
    ensures r.scenes.Keys == SceneSet(w)
    ensures r.debug == v.save.debug && r.current == v.save.current && r.codes == v.save.codes
  {
    var swept := Sweep.Swept(w, Policy, v.save, v.observed);
    if v.foundShop then Stock(swept, w.doorRegions, shops) else swept
  }

  /** Everything after both files are read. */
  function Build(w: World, rows: seq<Code>, recent: string, mtime: int, spoiler: seq<string>, save: seq<string>,
                 digest: (string, int) -> string): (r: Save<Door>)
    requires Consistent(w)
    ensures r.scenes.Keys == SceneSet(w)
  {
    var rd := Read<Door>(w, rows, recent, mtime, spoiler, digest);
    Finish(w, Visited(w, rows, Portal(w, rd.pairs), rd, recent, save), rd.shops)
  }

  /**
   * `ParseWithSpoiler`: a failed stat, a spoiler log that does not open, or
   * a save file that does not open each end the parse with that failure;
   * otherwise the payload is built. A save seed that differs from the
   * spoiler seed is only logged.
   */
  function ParseWithSpoiler(w: World, recent: string, spoiler: Option<SpoilerFile>, save: Option<seq<string>>,
                            digest: (string, int) -> string): (r: Outcome)
    requires Consistent(w)
    ensures r.Failed? <==> spoiler.None? || spoiler.value.lines.None? || save.None?
    ensures spoiler.None? ==> r == Failed(StatFailed)
    ensures spoiler.Some? && spoiler.value.lines.None? ==> r == Failed(SpoilerUnreadable)
    ensures spoiler.Some? && spoiler.value.lines.Some? && save.None? ==> r == Failed(SaveUnreadable)
  {
    if spoiler.None? then Failed(StatFailed)
    else if spoiler.value.lines.None? then Failed(SpoilerUnreadable)
    else if save.None? then Failed(SaveUnreadable)
    else Published(Build(w, TrackerCodes.Rows, recent, spoiler.value.mtime, spoiler.value.lines.value, save.value, digest))
  }

  /** The tracker's published state: replaced by the payload on success, kept on failure. */
  function Publish(state: Save<Door>, o: Outcome): (r: Save<Door>)
    ensures o.Failed? ==> r == state
    ensures o.Published? ==> r == o.save
  {
    if o.Published? then o.save else state
  }


  /**
   * When every file is read the payload is published, and it carries the
   * two files' header, whereabouts and code flags with its books balanced.
   */
  lemma ParsePublished(w: World, recent: string, spoiler: Option<SpoilerFile>, save: Option<seq<string>>,
                       digest: (string, int) -> string)
    requires Consistent(w) && spoiler.Some? && spoiler.value.lines.Some? && save.Some?
    ensures var r, mtime, lines := ParseWithSpoiler(w, recent, spoiler, save, digest), spoiler.value.mtime, spoiler.value.lines.value;
      && r.Published?
      && r.save.debug == HeaderOf(recent, mtime, lines, save.value, digest)
      && r.save.current == WhereaboutsOf(w, save.value)
      && CodesOf(TrackerCodes.Rows, save.value, r.save.codes)
      && CheckBooks(r.save) && EntrancesBounded(r.save)
  {
    var mtime, lines := spoiler.value.mtime, spoiler.value.lines.value;
    BuildHeader(w, TrackerCodes.Rows, recent, mtime, lines, save.value, digest);
    BuildBooks(w, TrackerCodes.Rows, recent, mtime, lines, save.value, digest);
  }

  // ---------------------------------------------------- sweep and shops

  /** Which listed shop portal a label names. */
  function LabelIndex(n: nat, d: string): (i: nat)
    requires d in Labels(n)
    ensures 1 <= i <= n && ShopLabel(i) == d
  {
    if d == ShopLabel(n) then n else LabelIndex(n - 1, d)
  }

  /** The counters after the sweep and the shop list. */
  lemma FinishCounts(w: World, v: SavePass.Visit<Door>, shops: seq<string>, k: string)
    requires SavePass.Shaped(w, v.save) && k in SceneSet(w)
    ensures var r, o := Finish(w, v, shops), v.save;
      var n := Sweep.PendingIn(Policy, v.observed, Sweep.Listing(w.allDoors), k);
      var m := if k == "Shop" && v.foundShop then |shops| else 0;
      && r.scenes[k].totals.entrances == Total(o.scenes[k].totals.entrances.total + n + m, o.scenes[k].totals.entrances.undiscovered + n)
      && r.scenes[k].totals.checks == o.scenes[k].totals.checks && r.scenes[k].checks == o.scenes[k].checks
      && r.totals == o.totals.(entrances := Total(o.totals.entrances.total,
           o.totals.entrances.undiscovered + Sweep.PendingAll(Policy, v.observed, Sweep.Listing(w.allDoors))))
  {
    Sweep.ListingCovered(w, v.save);
    Sweep.SweepCounts(v.save, Policy, Sweep.Listing(w.allDoors), v.observed, k);
    if v.foundShop {
      StockCounts(Sweep.Swept(w, Policy, v.save, v.observed), w.doorRegions, shops);
    }
  }

  /**
   * The entrances after the sweep and the shop list: a shop label holds its
   * listed door, an unobserved listed door holds `Door{}`, and every other
   * key is as the save loop left it.
   */
  lemma FinishEntrance(w: World, v: SavePass.Visit<Door>, shops: seq<string>, k: string, d: string)
    requires SavePass.Shaped(w, v.save) && k in SceneSet(w)
    ensures var e, o := Finish(w, v, shops).scenes[k].entrances, v.save.scenes[k].entrances;
      if k == "Shop" && v.foundShop && d in Labels(|shops|) then
        var i := LabelIndex(|shops|, d);
        d in e && e[d] == Door(RegionOf(w.doorRegions, shops[i - 1]), shops[i - 1])
      else if (k, d) in Sweep.Listing(w.allDoors) && Sweep.Pending(Policy, v.observed, d) then d in e && e[d] == UnknownDoor
      else (d in e <==> d in o) && (d in e ==> e[d] == o[d])
  {
    var swept := Sweep.Swept(w, Policy, v.save, v.observed);
    Sweep.ListingCovered(w, v.save);
    Sweep.SweepEntrances(v.save, Policy, Sweep.Listing(w.allDoors), v.observed, k, d);
    if v.foundShop && k == "Shop" {
      if d in Labels(|shops|) {
        StockLabel(swept, w.doorRegions, shops, LabelIndex(|shops|, d));
      } else {
        StockOthers(swept, w.doorRegions, shops, d);
      }
    } else {
      assert Finish(w, v, shops).scenes[k] == swept.scenes[k];
    }
  }

  /** The sweep and the shop list keep the books balanced and no scene's undiscovered entrances above its total. */
  lemma FinishBooks(w: World, v: SavePass.Visit<Door>, shops: seq<string>)
    requires SavePass.Shaped(w, v.save) && CheckBooks(v.save) && EntrancesBounded(v.save)
    ensures var r := Finish(w, v, shops);
      CheckBooks(r) && EntrancesBounded(r)
  {
    var r := Finish(w, v, shops);
    forall k | k in v.save.scenes
      ensures r.scenes[k].totals.checks == v.save.scenes[k].totals.checks
      ensures r.scenes[k].totals.entrances.undiscovered <= r.scenes[k].totals.entrances.total
    {
      FinishCounts(w, v, shops, k);
    }
    FinishCounts(w, v, shops, "Shop");
    BooksAgree(v.save, r);
  }

  // ------------------------------------------------------ the whole parse

  /**
   * A portal door the current tracker resolves into scene `k`: not "Shop",
   * paired by the log, both it and its partner have a region, and its own
   * region is `k`.
   */
  predicate Resolvable(w: World, ps: seq<Pairing>, d: string, k: string) {
    && d != "Shop" && Spoiler.Partner(ps, d).Some?
    && d in w.doorRegions && Spoiler.Partner(ps, d).value in w.doorRegions && w.doorRegions[d] == k
  }

  /** Where a resolvable door leads: its partner and the partner's region. */
  function Destination(w: World, ps: seq<Pairing>, d: string): Door
    requires Spoiler.Partner(ps, d).Some? && Spoiler.Partner(ps, d).value in w.doorRegions
  {
    var p := Spoiler.Partner(ps, d).value;
    Door(w.doorRegions[p], p)
  }

  /** How many portal lines of `save` name a door resolvable into `k`. */
  function Used(w: World, ps: seq<Pairing>, save: seq<string>, k: string): nat {
    if save == [] then 0
    else
      Used(w, ps, save[..|save| - 1], k)
        + match MatchPortal(save[|save| - 1]) case Some(d) => (if Resolvable(w, ps, d, k) then 1 else 0) case None => 0
  }

  /** The tracker's portal rule, with the pairing the log leaves, places exactly the resolvable doors, at their destination. */
  lemma PlacedResolvable(w: World, rows: seq<Code>, recent: string, mtime: int, spoiler: seq<string>, digest: (string, int) -> string, d: string, k: string)
    requires Consistent(w)
    ensures var rule, ps := Portal(w, Read<Door>(w, rows, recent, mtime, spoiler, digest).pairs), Pairings(w, spoiler);
      && (SavePass.PlacedIn(rule, d, k) <==> Resolvable(w, ps, d, k))
      && (SavePass.PlacedIn(rule, d, k) ==> rule.place(d).value.1 == Destination(w, ps, d))
  {
    ReadPairs<Door>(w, rows, recent, mtime, spoiler, digest, d);
    PortalPlaces(w, Read<Door>(w, rows, recent, mtime, spoiler, digest).pairs, d, k);
  }

  lemma {:induction false} RecordedUsed(w: World, rows: seq<Code>, recent: string, mtime: int, spoiler: seq<string>, save: seq<string>,
                                        digest: (string, int) -> string, k: string)
    requires Consistent(w)
    ensures SavePass.RecordedIn(Portal(w, Read<Door>(w, rows, recent, mtime, spoiler, digest).pairs), save, k) == Used(w, Pairings(w, spoiler), save, k)
  {
    if save != [] {
      RecordedUsed(w, rows, recent, mtime, spoiler, save[..|save| - 1], digest, k);
      match MatchPortal(save[|save| - 1])
      case Some(d) => PlacedResolvable(w, rows, recent, mtime, spoiler, digest, d, k);
      case None =>
    }
  }

  /** The published header, whereabouts and code flags are as the two files say. */
  lemma BuildHeader(w: World, rows: seq<Code>, recent: string, mtime: int, spoiler: seq<string>, save: seq<string>, digest: (string, int) -> string)
    requires Consistent(w)
    ensures var r := Build(w, rows, recent, mtime, spoiler, save, digest);
      && r.debug == HeaderOf(recent, mtime, spoiler, save, digest)
      && r.current == WhereaboutsOf(w, save)
      && CodesOf(rows, save, r.codes)
  {
    var rd := Read<Door>(w, rows, recent, mtime, spoiler, digest);
    SavedHeader<Door>(w, rows, Portal(w, rd.pairs), recent, mtime, spoiler, save, digest);
  }

  /** The published payload's books balance, and no scene has more undiscovered entrances than entrances. */
  lemma BuildBooks(w: World, rows: seq<Code>, recent: string, mtime: int, spoiler: seq<string>, save: seq<string>, digest: (string, int) -> string)
    requires Consistent(w)
    ensures var r := Build(w, rows, recent, mtime, spoiler, save, digest);
      CheckBooks(r) && EntrancesBounded(r)
  {
    var rd := Read<Door>(w, rows, recent, mtime, spoiler, digest);
    ReadBooks<Door>(w, rows, recent, mtime, spoiler, digest);
    VisitedBooks(w, rows, Portal(w, rd.pairs), rd, recent, save);
    FinishBooks(w, Visited(w, rows, Portal(w, rd.pairs), rd, recent, save), rd.shops);
  }

  /**
   * The global counters: two entrances per pairing in the log, one
   * undiscovered per door the sweep acts on; the checks the log counts, and
   * those marked `-` undiscovered.
   */
  lemma BuildTotals(w: World, rows: seq<Code>, recent: string, mtime: int, spoiler: seq<string>, save: seq<string>, digest: (string, int) -> string)
    requires Consistent(w)
    ensures var items := Found(w, spoiler);
      Build(w, rows, recent, mtime, spoiler, save, digest).totals == Totals(
        Total(2 * |Pairings(w, spoiler)|, Sweep.PendingAll(Policy, SavePass.Portals(save), Sweep.Listing(w.allDoors))),
        Total(|items|, Spoiler.HiddenIn(items)))
  {
    var rd := Read<Door>(w, rows, recent, mtime, spoiler, digest);
    ReadHeader<Door>(w, rows, recent, mtime, spoiler, digest);
    VisitedScene(w, rows, Portal(w, rd.pairs), rd, recent, save, "Shop");
    VisitedDoors(w, rows, Portal(w, rd.pairs), rd, recent, save);
    FinishCounts(w, Visited(w, rows, Portal(w, rd.pairs), rd, recent, save), rd.shops, "Shop");
  }

  /** A scene's check counters are the log's: the check lines naming it, and those marked `-` undiscovered. */
  lemma BuildSceneChecks(w: World, rows: seq<Code>, recent: string, mtime: int, spoiler: seq<string>, save: seq<string>, digest: (string, int) -> string, k: string)
    requires Consistent(w) && k in SceneSet(w)
    ensures var sc, items := Build(w, rows, recent, mtime, spoiler, save, digest).scenes[k], Found(w, spoiler);
      sc.totals.checks == Total(Spoiler.CountIn(items, k, false), Spoiler.CountIn(items, k, true))
  {
    var rd := Read<Door>(w, rows, recent, mtime, spoiler, digest);
    ReadScene<Door>(w, rows, recent, mtime, spoiler, digest, k);
    VisitedScene(w, rows, Portal(w, rd.pairs), rd, recent, save, k);
    FinishCounts(w, Visited(w, rows, Portal(w, rd.pairs), rd, recent, save), rd.shops, k);
  }

  /**
   * A scene's entrance counters: the portal lines resolved into it, the
   * unobserved listed doors the sweep acts on (these also undiscovered),
   * and for "Shop", once a save line used the shop, the doors the log pairs
   * with a shop.
   */
  lemma BuildSceneEntrances(w: World, rows: seq<Code>, recent: string, mtime: int, spoiler: seq<string>, save: seq<string>, digest: (string, int) -> string, k: string)
    requires Consistent(w) && k in SceneSet(w)
    ensures var sc, ps := Build(w, rows, recent, mtime, spoiler, save, digest).scenes[k], Pairings(w, spoiler);
      var n := Sweep.PendingIn(Policy, SavePass.Portals(save), Sweep.Listing(w.allDoors), k);
      var m := if k == "Shop" && "Shop" in SavePass.Portals(save) then |Spoiler.ShopDoors(ps)| else 0;
      sc.totals.entrances == Total(Used(w, ps, save, k) + n + m, n)
  {
    var rd := Read<Door>(w, rows, recent, mtime, spoiler, digest);
    VisitedDoors(w, rows, Portal(w, rd.pairs), rd, recent, save);
    VisitedEntranceTotal(w, rows, recent, mtime, spoiler, save, digest, k);
    ReadHeader<Door>(w, rows, recent, mtime, spoiler, digest);
    FinishCounts(w, Visited(w, rows, Portal(w, rd.pairs), rd, recent, save), rd.shops, k);
  }

  /** After the save loop a scene counts exactly its resolved portal lines as entrances, none undiscovered. */
  lemma VisitedEntranceTotal(w: World, rows: seq<Code>, recent: string, mtime: int, spoiler: seq<string>, save: seq<string>,
                             digest: (string, int) -> string, k: string)
    requires Consistent(w) && k in SceneSet(w)
    ensures var rd := Read<Door>(w, rows, recent, mtime, spoiler, digest);
      Visited(w, rows, Portal(w, rd.pairs), rd, recent, save).save.scenes[k].totals.entrances == Total(Used(w, Pairings(w, spoiler), save, k), 0)
  {
    var rd := Read<Door>(w, rows, recent, mtime, spoiler, digest);
    ReadScene<Door>(w, rows, recent, mtime, spoiler, digest, k);
    VisitedScene(w, rows, Portal(w, rd.pairs), rd, recent, save, k);
    RecordedUsed(w, rows, recent, mtime, spoiler, save, digest, k);
  }

  /** After the save loop a scene holds exactly its observed resolvable doors, each leading to its destination. */
  lemma VisitedEntranceMap(w: World, rows: seq<Code>, recent: string, mtime: int, spoiler: seq<string>, save: seq<string>,
                           digest: (string, int) -> string, k: string, d: string)
    requires Consistent(w) && k in SceneSet(w)
    ensures var rd, ps := Read<Door>(w, rows, recent, mtime, spoiler, digest), Pairings(w, spoiler);
      var e := Visited(w, rows, Portal(w, rd.pairs), rd, recent, save).save.scenes[k].entrances;
      if d in SavePass.Portals(save) && Resolvable(w, ps, d, k) then d in e && e[d] == Destination(w, ps, d) else d !in e
  {
    var rd := Read<Door>(w, rows, recent, mtime, spoiler, digest);
    ReadScene<Door>(w, rows, recent, mtime, spoiler, digest, k);
    VisitedEntrance(w, rows, Portal(w, rd.pairs), rd, recent, save, k, d);
    PlacedResolvable(w, rows, recent, mtime, spoiler, digest, d, k);
  }

  /**
   * The entrance door `d` holds in scene `k`'s map `e` once both files are
   * read, given the log's pairings `ps` and the doors `seen` in portal
   * lines. Once a save line used the shop, "Shop Portal i" in "Shop" leads
   * to the i-th door the log pairs with a shop (with that door's region, or
   * "" when it has none); otherwise a seen door the log resolves into `k`
   * leads to its partner; otherwise an unseen door of `k`'s list that is
   * not a shop door holds `Door{}`; and no other key is present.
   */
  predicate EntranceAfter(w: World, ps: seq<Pairing>, seen: set<string>, k: string, d: string, e: map<string, Door>) {
    var shops := Spoiler.ShopDoors(ps);
    if k == "Shop" && "Shop" in seen && d in Labels(|shops|) then
      var i := LabelIndex(|shops|, d);
      d in e && e[d] == Door(RegionOf(w.doorRegions, shops[i - 1]), shops[i - 1])
    else if d in seen && Resolvable(w, ps, d, k) then d in e && e[d] == Destination(w, ps, d)
    else if (k, d) in Sweep.Listing(w.allDoors) && Sweep.Pending(Policy, seen, d) then d in e && e[d] == UnknownDoor
    else d !in e
  }

  /** The sweep and the shop list, applied after a save loop that left exactly the seen resolvable doors. */
  lemma FinishEntranceAfter(w: World, v: SavePass.Visit<Door>, ps: seq<Pairing>, seen: set<string>, k: string, d: string)
    requires SavePass.Shaped(w, v.save) && k in SceneSet(w)
    requires v.observed == seen && (v.foundShop <==> "Shop" in seen)
    requires var e := v.save.scenes[k].entrances;
      if d in seen && Resolvable(w, ps, d, k) then d in e && e[d] == Destination(w, ps, d) else d !in e
    ensures EntranceAfter(w, ps, seen, k, d, Finish(w, v, Spoiler.ShopDoors(ps)).scenes[k].entrances)
  {
    var shops := Spoiler.ShopDoors(ps);
    FinishEntrance(w, v, shops, k, d);
    if !(k == "Shop" && "Shop" in seen && d in Labels(|shops|)) && d in seen {
      assert !Sweep.Pending(Policy, seen, d);
    }
  }

  /** Every door's entrance in the published payload is as `EntranceAfter` describes. */
  lemma BuildEntrance(w: World, rows: seq<Code>, recent: string, mtime: int, spoiler: seq<string>, save: seq<string>,
                      digest: (string, int) -> string, k: string, d: string)
    requires Consistent(w) && k in SceneSet(w)
    ensures EntranceAfter(w, Pairings(w, spoiler), SavePass.Portals(save), k, d,
                          Build(w, rows, recent, mtime, spoiler, save, digest).scenes[k].entrances)
  {
    var rd := Read<Door>(w, rows, recent, mtime, spoiler, digest);
    VisitedDoors(w, rows, Portal(w, rd.pairs), rd, recent, save);
    VisitedEntranceMap(w, rows, recent, mtime, spoiler, save, digest, k, d);
    ReadHeader<Door>(w, rows, recent, mtime, spoiler, digest);
    FinishEntranceAfter(w, Visited(w, rows, Portal(w, rd.pairs), rd, recent, save), Pairings(w, spoiler), SavePass.Portals(save), k, d);
  }

  /** A scene's checks in the published payload: stored exactly when the log names them, with the last line's mark. */
  lemma BuildMarks(w: World, rows: seq<Code>, recent: string, mtime: int, spoiler: seq<string>, save: seq<string>,
                   digest: (string, int) -> string, k: string, c: string)
    requires Consistent(w) && k in SceneSet(w)
    ensures var r, last := Build(w, rows, recent, mtime, spoiler, save, digest).scenes[k].checks, Spoiler.LastMark(Found(w, spoiler), k, c);
      (c in r <==> last.Some?) && (c in r ==> r[c] == last.value)
  {
    var rd := Read<Door>(w, rows, recent, mtime, spoiler, digest);
    ReadMarks<Door>(w, rows, recent, mtime, spoiler, digest, k, c);
    VisitedScene(w, rows, Portal(w, rd.pairs), rd, recent, save, k);
    FinishCounts(w, Visited(w, rows, Portal(w, rd.pairs), rd, recent, save), rd.shops, k);
  }
}

/**
 * The older spoiler parser, `parseWithSpoiler` in main.go. It shares the
 * header, the spoiler log's pass and the save loop with the current tracker
 * (`SpoilerParse`) and differs in four ways:
 *   - an entrance records only the name of the door it leads to;
 *   - both "Shop" and "Shop Portal" are only noted, never recorded, and a
 *     portal is recorded whenever the log pairs it and it has a region,
 *     whether or not its partner has one;
 *   - the sweep skips no door, stores "" and counts the door in its scene;
 *   - there is no shop list, and on an error the payload built so far is
 *     returned together with the error rather than dropped.
 * The code registry is a parameter of the parse; the program uses
 * `MainCodes.Rows`.
 */
module Legacy {
  import opened Wrappers
  import opened Text
  import opened Patterns
  import opened Snapshot
  import opened Codes
  import MainCodes
  import Spoiler
  import Sweep
  import SavePass
  import opened SpoilerParse

  /** Where a portal line for `d` is recorded: in `d`'s region, as its spoiler partner; nowhere when either is missing. */
  function Resolve(w: World, pairs: map<string, string>, d: string): (r: Option<(string, string)>)
    ensures r.Some? <==> d in pairs && d in w.doorRegions
    ensures r.Some? ==> r.value == (w.doorRegions[d], pairs[d])
  {
    if d in pairs && d in w.doorRegions then Some((w.doorRegions[d], pairs[d])) else None
  }

  /** The older parser notes both shop doors and resolves every other portal through the spoiler pairing. */
  function Portal(w: World, pairs: map<string, string>): (r: SavePass.Rule<string>)
    requires Consistent(w)
    ensures SavePass.Fits(w, r)
  {
    SavePass.Rule({"Shop Portal", "Shop"}, d => Resolve(w, pairs, d))
  }

  /** The older parser's sweep: nothing skipped, "" stored, scene totals counted. */
  const Policy: Sweep.Policy<string> := Sweep.Policy(false, "", true)

  /** What the function returns: the payload, and the error that stopped it if any. */
  datatype Result = Result(save: Save<string>, err: Option<Failure>)


  /** Everything after both files are read. */
  function Build(w: World, rows: seq<Code>, recent: string, mtime: int, spoiler: seq<string>, save: seq<string>,
                 digest: (string, int) -> string): (r: Save<string>)
    requires Consistent(w)
    ensures r.scenes.Keys == SceneSet(w)
  {
    var rd := Read<string>(w, rows, recent, mtime, spoiler, digest);
    var v := Visited(w, rows, Portal(w, rd.pairs), rd, recent, save);
    Sweep.Swept(w, Policy, v.save, v.observed)
  }

  /**
   * The parse with registry `rows`. A failed stat returns the skeleton; a
   * log that does not open returns the skeleton with the log's status and
   * the hash; a save file that does not open returns what the log gave, with
   * the save's name. Each comes with its error; otherwise there is none.
   */
  function Parse(w: World, rows: seq<Code>, recent: string, spoiler: Option<SpoilerFile>, save: Option<seq<string>>,
                 digest: (string, int) -> string): (r: Result)
    requires Consistent(w)
    ensures r.err.None? <==> spoiler.Some? && spoiler.value.lines.Some? && save.Some?
    ensures spoiler.None? ==> r.err == Some(StatFailed)
    ensures spoiler.Some? && spoiler.value.lines.None? ==> r.err == Some(SpoilerUnreadable)
    ensures spoiler.Some? && spoiler.value.lines.Some? && save.None? ==> r.err == Some(SaveUnreadable)
    ensures r.save.scenes.Keys == SceneSet(w)
  {
    if spoiler.None? then Result(Skeleton<string>(w, InitCodes(rows)), Some(StatFailed))
    else
      var mtime := spoiler.value.mtime;
      if spoiler.value.lines.None? then Result(Header<string>(w, rows, recent, mtime, digest), Some(SpoilerUnreadable))
      else
        var lines := spoiler.value.lines.value;
        if save.None? then Result(Named(Read<string>(w, rows, recent, mtime, lines, digest), recent), Some(SaveUnreadable))
        else Result(Build(w, rows, recent, mtime, lines, save.value, digest), None)
  }

  /** `parseWithSpoiler`: the parse with the older code registry. */
  function ParseWithSpoiler(w: World, recent: string, spoiler: Option<SpoilerFile>, save: Option<seq<string>>,
                            digest: (string, int) -> string): (r: Result)
    requires Consistent(w)
    ensures r.err.None? <==> spoiler.Some? && spoiler.value.lines.Some? && save.Some?
  {
    Parse(w, MainCodes.Rows, recent, spoiler, save, digest)
  }

  /**
   * When every file is read there is no error, and the payload carries the
   * two files' header, whereabouts and code flags with its books balanced.
   */
  lemma ParseComplete(w: World, rows: seq<Code>, recent: string, spoiler: Option<SpoilerFile>, save: Option<seq<string>>,
                      digest: (string, int) -> string)
    requires Consistent(w) && spoiler.Some? && spoiler.value.lines.Some? && save.Some?
    ensures var r, mtime, lines := Parse(w, rows, recent, spoiler, save, digest), spoiler.value.mtime, spoiler.value.lines.value;
      && r.err.None?
      && r.save.debug == HeaderOf(recent, mtime, lines, save.value, digest)
      && r.save.current == WhereaboutsOf(w, save.value)
      && CodesOf(rows, save.value, r.save.codes)
      && CheckBooks(r.save) && EntrancesBounded(r.save)
  {
    var mtime, lines := spoiler.value.mtime, spoiler.value.lines.value;
    BuildHeader(w, rows, recent, mtime, lines, save.value, digest);
    BuildBooks(w, rows, recent, mtime, lines, save.value, digest);
  }

  // ------------------------------------------------------ early returns

  /**
   * What comes back with an error. After a failed stat: an empty header,
   * zero counters, every scene empty, every code flag down. After a log that
   * does not open: the same with the log's status and the hash. After a save
   * file that does not open: the log's counters and seed with the save's
   * name, no entrance in any scene, every code flag down.
   */
  lemma Partial(w: World, rows: seq<Code>, recent: string, spoiler: Option<SpoilerFile>, save: Option<seq<string>>,
                digest: (string, int) -> string, k: string)
    requires Consistent(w) && k in SceneSet(w)
    ensures var r := Parse(w, rows, recent, spoiler, save, digest);
      r.err.Some? ==> r.save.codes == InitCodes(rows) && r.save.current == NoCurrent && r.save.scenes[k].entrances == map[]
    ensures var r := Parse(w, rows, recent, spoiler, save, digest);
      r.err == Some(StatFailed) ==> r.save.debug == NoDebug && r.save.totals == NoTotals && r.save.scenes[k] == EmptyScene()
    ensures var r := Parse(w, rows, recent, spoiler, save, digest);
      r.err == Some(SpoilerUnreadable) ==>
        && r.save.debug == NoDebug.(spoilerMod := spoiler.value.mtime, hash := digest(recent, spoiler.value.mtime))
        && r.save.totals == NoTotals && r.save.scenes[k] == EmptyScene()
    ensures var r := Parse(w, rows, recent, spoiler, save, digest);
      r.err == Some(SaveUnreadable) ==>
        var lines, mtime := spoiler.value.lines.value, spoiler.value.mtime;
        var ps, items := Pairings(w, lines), Found(w, lines);
        && r.save.debug == NoDebug.(name := recent, spoilerMod := mtime, hash := digest(recent, mtime),
                                    spoilerSeed := LastValue(lines, Spoiler.SeedLabel, "", Spoiler.SeedText))
        && r.save.totals == Totals(Total(2 * |ps|, 0), Total(|items|, Spoiler.HiddenIn(items)))
  {
    if spoiler.Some? && spoiler.value.lines.Some? && save.None? {
      var lines, mtime := spoiler.value.lines.value, spoiler.value.mtime;
      ReadHeader<string>(w, rows, recent, mtime, lines, digest);
      ReadScene<string>(w, rows, recent, mtime, lines, digest, k);
    }
  }

  // ------------------------------------------------------ the whole parse

  /** A portal door the older parser resolves into scene `k`: not a shop door, paired by the log, and of region `k`. */
  predicate Known(w: World, ps: seq<Pairing>, d: string, k: string) {
    && d != "Shop" && d != "Shop Portal" && Spoiler.Partner(ps, d).Some?
    && d in w.doorRegions && w.doorRegions[d] == k
  }

  /** How many portal lines of `save` name a door resolvable into `k`. */
  function Used(w: World, ps: seq<Pairing>, save: seq<string>, k: string): nat {
    if save == [] then 0
    else
      Used(w, ps, save[..|save| - 1], k)
        + match MatchPortal(save[|save| - 1]) case Some(d) => (if Known(w, ps, d, k) then 1 else 0) case None => 0
  }

  /** With the pairing the log leaves, the older rule places exactly the known doors, as their partner's name. */
  lemma PlacedKnown(w: World, rows: seq<Code>, recent: string, mtime: int, spoiler: seq<string>, digest: (string, int) -> string, d: string, k: string)
    requires Consistent(w)
    ensures var rule, ps := Portal(w, Read<string>(w, rows, recent, mtime, spoiler, digest).pairs), Pairings(w, spoiler);
      && (SavePass.PlacedIn(rule, d, k) <==> Known(w, ps, d, k))
      && (SavePass.PlacedIn(rule, d, k) ==> rule.place(d).value.1 == Spoiler.Partner(ps, d).value)
  {
    ReadPairs<string>(w, rows, recent, mtime, spoiler, digest, d);
  }

  lemma {:induction false} RecordedUsed(w: World, rows: seq<Code>, recent: string, mtime: int, spoiler: seq<string>, save: seq<string>,
                                        digest: (string, int) -> string, k: string)
    requires Consistent(w)
    ensures SavePass.RecordedIn(Portal(w, Read<string>(w, rows, recent, mtime, spoiler, digest).pairs), save, k)
            == Used(w, Pairings(w, spoiler), save, k)
  {
    if save != [] {
      RecordedUsed(w, rows, recent, mtime, spoiler, save[..|save| - 1], digest, k);
      match MatchPortal(save[|save| - 1])
      case Some(d) => PlacedKnown(w, rows, recent, mtime, spoiler, digest, d, k);
      case None =>
    }
  }

  /** The header, whereabouts and code flags are as the two files say. */
  lemma BuildHeader(w: World, rows: seq<Code>, recent: string, mtime: int, spoiler: seq<string>, save: seq<string>, digest: (string, int) -> string)
    requires Consistent(w)
    ensures var r := Build(w, rows, recent, mtime, spoiler, save, digest);
      && r.debug == HeaderOf(recent, mtime, spoiler, save, digest)
      && r.current == WhereaboutsOf(w, save)
      && CodesOf(rows, save, r.codes)
  {
    var rd := Read<string>(w, rows, recent, mtime, spoiler, digest);
    SavedHeader<string>(w, rows, Portal(w, rd.pairs), recent, mtime, spoiler, save, digest);
  }

  /** The books balance, and no scene has more undiscovered entrances than entrances. */
  lemma BuildBooks(w: World, rows: seq<Code>, recent: string, mtime: int, spoiler: seq<string>, save: seq<string>, digest: (string, int) -> string)
    requires Consistent(w)
    ensures var r := Build(w, rows, recent, mtime, spoiler, save, digest);
      CheckBooks(r) && EntrancesBounded(r)
  {
    var rd := Read<string>(w, rows, recent, mtime, spoiler, digest);
    ReadBooks<string>(w, rows, recent, mtime, spoiler, digest);
    var rule := Portal(w, rd.pairs);
    VisitedBooks(w, rows, rule, rd, recent, save);
    var v := Visited(w, rows, rule, rd, recent, save);
    Sweep.ListingCovered(w, v.save);
    var listing := Sweep.Listing(w.allDoors);
    Sweep.SweepBounded(v.save, Policy, listing, v.observed);
    var r := Sweep.Swept(w, Policy, v.save, v.observed);
    forall k | k in v.save.scenes ensures r.scenes[k].totals.checks == v.save.scenes[k].totals.checks {
      Sweep.SweepCounts(v.save, Policy, listing, v.observed, k);
    }
    BooksAgree(v.save, r);
  }

  /**
   * The global counters: two entrances per pairing in the log, one
   * undiscovered per listed door no portal line names; the checks the log
   * counts, and those marked `-` undiscovered.
   */
  lemma BuildTotals(w: World, rows: seq<Code>, recent: string, mtime: int, spoiler: seq<string>, save: seq<string>, digest: (string, int) -> string)
    requires Consistent(w)
    ensures var items := Found(w, spoiler);
      Build(w, rows, recent, mtime, spoiler, save, digest).totals == Totals(
        Total(2 * |Pairings(w, spoiler)|, Sweep.PendingAll(Policy, SavePass.Portals(save), Sweep.Listing(w.allDoors))),
        Total(|items|, Spoiler.HiddenIn(items)))
  {
    var rd := Read<string>(w, rows, recent, mtime, spoiler, digest);
    var rule := Portal(w, rd.pairs);
    ReadHeader<string>(w, rows, recent, mtime, spoiler, digest);
    VisitedScene(w, rows, rule, rd, recent, save, "Shop");
    VisitedDoors(w, rows, rule, rd, recent, save);
    var v := Visited(w, rows, rule, rd, recent, save);
    Sweep.ListingCovered(w, v.save);
    Sweep.SweepCounts(v.save, Policy, Sweep.Listing(w.allDoors), v.observed, "Shop");
  }

  /** A scene's check counters are the log's: the check lines naming it, and those marked `-` undiscovered. */
  lemma BuildSceneChecks(w: World, rows: seq<Code>, recent: string, mtime: int, spoiler: seq<string>, save: seq<string>, digest: (string, int) -> string, k: string)
    requires Consistent(w) && k in SceneSet(w)
    ensures var sc, items := Build(w, rows, recent, mtime, spoiler, save, digest).scenes[k], Found(w, spoiler);
      sc.totals.checks == Total(Spoiler.CountIn(items, k, false), Spoiler.CountIn(items, k, true))
  {
    var rd := Read<string>(w, rows, recent, mtime, spoiler, digest);
    var rule := Portal(w, rd.pairs);
    ReadScene<string>(w, rows, recent, mtime, spoiler, digest, k);
    VisitedScene(w, rows, rule, rd, recent, save, k);
    var v := Visited(w, rows, rule, rd, recent, save);
    Sweep.ListingCovered(w, v.save);
    Sweep.SweepCounts(v.save, Policy, Sweep.Listing(w.allDoors), v.observed, k);
  }

  /** After the save loop a scene counts exactly its resolved portal lines as entrances, none undiscovered. */
  lemma VisitedEntranceTotal(w: World, rows: seq<Code>, recent: string, mtime: int, spoiler: seq<string>, save: seq<string>,
                             digest: (string, int) -> string, k: string)
    requires Consistent(w) && k in SceneSet(w)
    ensures var rd := Read<string>(w, rows, recent, mtime, spoiler, digest);
      Visited(w, rows, Portal(w, rd.pairs), rd, recent, save).save.scenes[k].totals.entrances == Total(Used(w, Pairings(w, spoiler), save, k), 0)
  {
    var rd := Read<string>(w, rows, recent, mtime, spoiler, digest);
    ReadScene<string>(w, rows, recent, mtime, spoiler, digest, k);
    VisitedScene(w, rows, Portal(w, rd.pairs), rd, recent, save, k);
    RecordedUsed(w, rows, recent, mtime, spoiler, save, digest, k);
  }

  /** A scene's entrance counters: the portal lines resolved into it and the listed doors of it no portal line names, these also undiscovered. */
  lemma BuildSceneEntrances(w: World, rows: seq<Code>, recent: string, mtime: int, spoiler: seq<string>, save: seq<string>, digest: (string, int) -> string, k: string)
    requires Consistent(w) && k in SceneSet(w)
    ensures var sc := Build(w, rows, recent, mtime, spoiler, save, digest).scenes[k];
      var n := Sweep.PendingIn(Policy, SavePass.Portals(save), Sweep.Listing(w.allDoors), k);
      sc.totals.entrances == Total(Used(w, Pairings(w, spoiler), save, k) + n, n)
  {
    var rd := Read<string>(w, rows, recent, mtime, spoiler, digest);
    var rule := Portal(w, rd.pairs);
    VisitedDoors(w, rows, rule, rd, recent, save);
    VisitedEntranceTotal(w, rows, recent, mtime, spoiler, save, digest, k);
    var v := Visited(w, rows, rule, rd, recent, save);
    Sweep.ListingCovered(w, v.save);
    Sweep.SweepCounts(v.save, Policy, Sweep.Listing(w.allDoors), v.observed, k);
  }

  /**
   * The entrance door `d` holds in scene `k`'s map `e` once both files are
   * read: a seen door the log resolves into `k` holds its partner's name;
   * otherwise an unseen door of `k`'s list holds ""; and no other key is
   * present.
   */
  predicate EntranceAfter(w: World, ps: seq<Pairing>, seen: set<string>, k: string, d: string, e: map<string, string>) {
    if d in seen && Known(w, ps, d, k) then d in e && e[d] == Spoiler.Partner(ps, d).value
    else if (k, d) in Sweep.Listing(w.allDoors) && d !in seen then d in e && e[d] == ""
    else d !in e
  }

  /** After the save loop a scene holds exactly its seen known doors, each as its partner's name. */
  lemma VisitedEntranceMap(w: World, rows: seq<Code>, recent: string, mtime: int, spoiler: seq<string>, save: seq<string>,
                           digest: (string, int) -> string, k: string, d: string)
    requires Consistent(w) && k in SceneSet(w)
    ensures var rd, ps := Read<string>(w, rows, recent, mtime, spoiler, digest), Pairings(w, spoiler);
      var e := Visited(w, rows, Portal(w, rd.pairs), rd, recent, save).save.scenes[k].entrances;
      if d in SavePass.Portals(save) && Known(w, ps, d, k) then d in e && e[d] == Spoiler.Partner(ps, d).value else d !in e
  {
    var rd := Read<string>(w, rows, recent, mtime, spoiler, digest);
    ReadScene<string>(w, rows, recent, mtime, spoiler, digest, k);
    VisitedEntrance(w, rows, Portal(w, rd.pairs), rd, recent, save, k, d);
    PlacedKnown(w, rows, recent, mtime, spoiler, digest, d, k);
  }

  /** Every door's entrance is as `EntranceAfter` describes. */
  lemma BuildEntrance(w: World, rows: seq<Code>, recent: string, mtime: int, spoiler: seq<string>, save: seq<string>,
                      digest: (string, int) -> string, k: string, d: string)
    requires Consistent(w) && k in SceneSet(w)
    ensures EntranceAfter(w, Pairings(w, spoiler), SavePass.Portals(save), k, d,
                          Build(w, rows, recent, mtime, spoiler, save, digest).scenes[k].entrances)
  {
    var rd := Read<string>(w, rows, recent, mtime, spoiler, digest);
    var rule := Portal(w, rd.pairs);
    VisitedDoors(w, rows, rule, rd, recent, save);
    VisitedEntranceMap(w, rows, recent, mtime, spoiler, save, digest, k, d);
    var v := Visited(w, rows, rule, rd, recent, save);
    Sweep.ListingCovered(w, v.save);
    Sweep.SweepEntrances(v.save, Policy, Sweep.Listing(w.allDoors), v.observed, k, d);
  }

  /** A scene's checks: stored exactly when the log names them, with the last line's mark. */
  lemma BuildMarks(w: World, rows: seq<Code>, recent: string, mtime: int, spoiler: seq<string>, save: seq<string>,
                   digest: (string, int) -> string, k: string, c: string)
    requires Consistent(w) && k in SceneSet(w)
    ensures var r, last := Build(w, rows, recent, mtime, spoiler, save, digest).scenes[k].checks, Spoiler.LastMark(Found(w, spoiler), k, c);
      (c in r <==> last.Some?) && (c in r ==> r[c] == last.value)
  {
    var rd := Read<string>(w, rows, recent, mtime, spoiler, digest);
    var rule := Portal(w, rd.pairs);
    ReadMarks<string>(w, rows, recent, mtime, spoiler, digest, k, c);
    VisitedScene(w, rows, rule, rd, recent, save, k);
    var v := Visited(w, rows, rule, rd, recent, save);
    Sweep.ListingCovered(w, v.save);
    Sweep.SweepCounts(v.save, Policy, Sweep.Listing(w.allDoors), v.observed, k);
  }
}

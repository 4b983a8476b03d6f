/**
 * The stages both spoiler parsers share: the header (skeleton, code flags
 * all down, the log's status and the save's hash), the spoiler log's pass,
 * the save file's name, and the save file's loop, which differs between the
 * parsers only in the portal rule it is given. The file system is replaced
 * by its outcomes, and the MD5 content hash by a parameter `digest` of the
 * save name and the log's modification time.
 */
module SpoilerParse {
  import opened Wrappers
  import opened Text
  import opened Patterns
  import opened Snapshot
  import opened Codes
  import SaveFlags
  import Spoiler
  import SavePass

  /** The spoiler log as the file system reports it: its status and, if it opens, its lines. */
  datatype SpoilerFile = SpoilerFile(mtime: int, lines: Option<seq<string>>)

  /** Why a parse stops early: the log's stat fails, the log does not open, or the save file does not open. */
  datatype Failure = StatFailed | SpoilerUnreadable | SaveUnreadable


  /** The payload before the spoiler log: skeleton, code flags all down, the log's status and the save's hash. */
  function Header<E>(w: World, rows: seq<Code>, recent: string, mtime: int, digest: (string, int) -> string): (r: Save<E>)
    ensures r.scenes.Keys == SceneSet(w) && forall k :: k in r.scenes ==> r.scenes[k] == EmptyScene()
    ensures r.totals == NoTotals && r.current == NoCurrent && r.codes == InitCodes(rows)
    ensures r.debug == NoDebug.(spoilerMod := mtime, hash := digest(recent, mtime))
  {
    var s := Skeleton<E>(w, InitCodes(rows));
    s.(debug := s.debug.(spoilerMod := mtime, hash := digest(recent, mtime)))
  }

  /** The spoiler log's pass over the header. */
  function Read<E>(w: World, rows: seq<Code>, recent: string, mtime: int, spoiler: seq<string>, digest: (string, int) -> string): (r: Spoiler.Reading<E>)
    ensures r.save.scenes.Keys == SceneSet(w)
  {
    Spoiler.Pass(Spoiler.Start(Header<E>(w, rows, recent, mtime, digest)), spoiler)
  }

  /** The payload with the save file's name recorded in its header, between the two files. */
  function Named<E>(rd: Spoiler.Reading<E>, recent: string): Save<E> {
    rd.save.(debug := rd.save.debug.(name := recent))
  }

  /** The save file's loop, reading portal lines by the parser's rule. */
  function Visited<E>(w: World, rows: seq<Code>, rule: SavePass.Rule<E>, rd: Spoiler.Reading<E>, recent: string, save: seq<string>): (r: SavePass.Visit<E>)
    requires Consistent(w) && rd.save.scenes.Keys == SceneSet(w) && SavePass.Fits(w, rule)
    ensures SavePass.Shaped(w, r.save)
  {
    SavePass.SeeAll(w, rows, rule, SavePass.Visit(Named(rd, recent), {}, false), save)
  }

  // ------------------------------------------------------- the log's part

  /** The pairings the spoiler log records. */
  function Pairings(w: World, spoiler: seq<string>): seq<Pairing> {
    Spoiler.Links(Spoiler.Kept(spoiler), SceneSet(w))
  }

  /** The checks the spoiler log counts. */
  function Found(w: World, spoiler: seq<string>): seq<Item> {
    Spoiler.Items(Spoiler.Kept(spoiler), SceneSet(w))
  }

  /**
   * After the log: the header is the skeleton's with the log's status, the
   * hash and the last `Seed: ` line; two entrances are counted per pairing,
   * none undiscovered; the checks are counted; the shop list holds the
   * shop-paired doors in order; and each door's pairing is the last one naming it.
   */
  lemma ReadHeader<E>(w: World, rows: seq<Code>, recent: string, mtime: int, spoiler: seq<string>, digest: (string, int) -> string)
    ensures var rd, ps, items := Read<E>(w, rows, recent, mtime, spoiler, digest), Pairings(w, spoiler), Found(w, spoiler);
      && rd.save.debug == NoDebug.(spoilerMod := mtime, hash := digest(recent, mtime),
                                   spoilerSeed := LastValue(spoiler, Spoiler.SeedLabel, "", Spoiler.SeedText))
      && rd.save.codes == InitCodes(rows) && rd.save.current == NoCurrent
      && rd.save.totals == Totals(Total(2 * |ps|, 0), Total(|items|, Spoiler.HiddenIn(items)))
      && rd.shops == Spoiler.ShopDoors(ps)
  {
    var st := Spoiler.Start(Header<E>(w, rows, recent, mtime, digest));
    Spoiler.PassKeeps(st, spoiler);
    Spoiler.PassSeed(st, spoiler);
    Spoiler.PassSkipsSection(st, spoiler);
    Spoiler.HandleAllLinkTotals(st, Spoiler.Kept(spoiler));
    Spoiler.HandleAllShops(st, Spoiler.Kept(spoiler));
    Spoiler.HandleAllCheckTotals(st, Spoiler.Kept(spoiler));
  }

  /** A scene after the log: no entrance, and its checks counted. */
  lemma ReadScene<E>(w: World, rows: seq<Code>, recent: string, mtime: int, spoiler: seq<string>, digest: (string, int) -> string, k: string)
    requires k in SceneSet(w)
    ensures var sc, items := Read<E>(w, rows, recent, mtime, spoiler, digest).save.scenes[k], Found(w, spoiler);
      && sc.entrances == map[] && sc.totals.entrances == NoTotal
      && sc.totals.checks == Total(Spoiler.CountIn(items, k, false), Spoiler.CountIn(items, k, true))
  {
    var st := Spoiler.Start(Header<E>(w, rows, recent, mtime, digest));
    Spoiler.PassKeepsSceneEntrances(st, spoiler, k);
    Spoiler.PassSkipsSection(st, spoiler);
    Spoiler.HandleAllSceneCounts(st, Spoiler.Kept(spoiler), k);
  }

  /** The pairing map after the log: a door is paired exactly when a recorded pairing names it, with the last one's other end. */
  lemma ReadPairs<E>(w: World, rows: seq<Code>, recent: string, mtime: int, spoiler: seq<string>, digest: (string, int) -> string, d: string)
    ensures var pairs, p := Read<E>(w, rows, recent, mtime, spoiler, digest).pairs, Spoiler.Partner(Pairings(w, spoiler), d);
      (d in pairs <==> p.Some?) && (d in pairs ==> pairs[d] == p.value)
  {
    var st := Spoiler.Start(Header<E>(w, rows, recent, mtime, digest));
    Spoiler.PassSkipsSection(st, spoiler);
    Spoiler.HandleAllPairs(st, Spoiler.Kept(spoiler), d);
  }

  /** A scene's checks after the log: stored exactly when a counted line names them, with the last one's mark. */
  lemma ReadMarks<E>(w: World, rows: seq<Code>, recent: string, mtime: int, spoiler: seq<string>, digest: (string, int) -> string, k: string, c: string)
    requires k in SceneSet(w)
    ensures var r, last := Read<E>(w, rows, recent, mtime, spoiler, digest).save.scenes[k].checks, Spoiler.LastMark(Found(w, spoiler), k, c);
      (c in r <==> last.Some?) && (c in r ==> r[c] == last.value)
  {
    var st := Spoiler.Start(Header<E>(w, rows, recent, mtime, digest));
    Spoiler.PassSkipsSection(st, spoiler);
    Spoiler.HandleAllMarks(st, Spoiler.Kept(spoiler), k, c);
  }

  /** The books balance after the log, and no scene has an entrance yet. */
  lemma ReadBooks<E>(w: World, rows: seq<Code>, recent: string, mtime: int, spoiler: seq<string>, digest: (string, int) -> string)
    ensures var s := Read<E>(w, rows, recent, mtime, spoiler, digest).save;
      CheckBooks(s) && EntrancesBounded(s)
  {
    var h := Header<E>(w, rows, recent, mtime, digest);
    SkeletonBooks<E>(w, InitCodes(rows));
    var st := Spoiler.Start(h);
    Spoiler.PassBooks(st, spoiler);
    var s := Read<E>(w, rows, recent, mtime, spoiler, digest).save;
    forall k | k in s.scenes ensures s.scenes[k].totals.entrances.undiscovered <= s.scenes[k].totals.entrances.total {
      ReadScene<E>(w, rows, recent, mtime, spoiler, digest, k);
    }
  }

  // -------------------------------------------------- the save file's part

  /** The save loop marks exactly the portal doors observed, and finds a shop exactly when "Shop" is one. */
  lemma VisitedDoors<E>(w: World, rows: seq<Code>, rule: SavePass.Rule<E>, rd: Spoiler.Reading<E>, recent: string, save: seq<string>)
    requires Consistent(w) && rd.save.scenes.Keys == SceneSet(w) && SavePass.Fits(w, rule)
    ensures var v := Visited(w, rows, rule, rd, recent, save);
      v.observed == SavePass.Portals(save) && (v.foundShop <==> "Shop" in SavePass.Portals(save))
  {
    var v0 := SavePass.Visit(Named(rd, recent), {}, false);
    SavePass.SeeAllPortals(w, rows, rule, v0, save);
    SavePass.UseAllObserved(w, rule, v0, save);
  }

  /** The save loop counts one entrance in a scene per portal line it records there, and changes nothing else of the scene's counters. */
  lemma VisitedScene<E>(w: World, rows: seq<Code>, rule: SavePass.Rule<E>, rd: Spoiler.Reading<E>, recent: string, save: seq<string>, k: string)
    requires Consistent(w) && rd.save.scenes.Keys == SceneSet(w) && SavePass.Fits(w, rule) && k in SceneSet(w)
    ensures var v, o := Visited(w, rows, rule, rd, recent, save).save, rd.save;
      && v.scenes[k].totals.entrances.total == o.scenes[k].totals.entrances.total + SavePass.RecordedIn(rule, save, k)
      && v.scenes[k].totals.entrances.undiscovered == o.scenes[k].totals.entrances.undiscovered
      && v.scenes[k].totals.checks == o.scenes[k].totals.checks && v.scenes[k].checks == o.scenes[k].checks
      && v.totals == o.totals
  {
    var v0 := SavePass.Visit(Named(rd, recent), {}, false);
    SavePass.SeeAllPortals(w, rows, rule, v0, save);
    SavePass.UseAllCounts(w, rule, v0, save, k);
  }

  /** A door some portal line names and the pairing places in `k` holds its resolved door; every other key of `k` is as the log left it. */
  lemma VisitedEntrance<E>(w: World, rows: seq<Code>, rule: SavePass.Rule<E>, rd: Spoiler.Reading<E>, recent: string, save: seq<string>, k: string, d: string)
    requires Consistent(w) && rd.save.scenes.Keys == SceneSet(w) && SavePass.Fits(w, rule) && k in SceneSet(w)
    ensures var e, o := Visited(w, rows, rule, rd, recent, save).save.scenes[k].entrances, rd.save.scenes[k].entrances;
      if d in SavePass.Portals(save) && SavePass.PlacedIn(rule, d, k)
      then d in e && e[d] == rule.place(d).value.1
      else (d in e <==> d in o) && (d in e ==> e[d] == o[d])
  {
    var v0 := SavePass.Visit(Named(rd, recent), {}, false);
    SavePass.SeeAllPortals(w, rows, rule, v0, save);
    SavePass.UseAllEntrance(w, rule, v0, save, k, d);
  }

  /** The save loop sets the header and whereabouts by the flag chain and the code flags by the registry. */
  lemma VisitedSettings<E>(w: World, rows: seq<Code>, rule: SavePass.Rule<E>, rd: Spoiler.Reading<E>, recent: string, save: seq<string>)
    requires Consistent(w) && rd.save.scenes.Keys == SceneSet(w) && SavePass.Fits(w, rule)
    ensures var v, f := Visited(w, rows, rule, rd, recent, save).save, SaveFlags.ApplyAll(Named(rd, recent), save, w.translate, false);
      v.debug == f.debug && v.current == f.current && v.codes == MarkAll(rd.save.codes, rows, save)
  {
    SavePass.SeeAllSettings(w, rows, rule, SavePass.Visit(Named(rd, recent), {}, false), save);
  }

  /** The save loop keeps the books balanced and no scene's undiscovered entrances above its total. */
  lemma VisitedBooks<E>(w: World, rows: seq<Code>, rule: SavePass.Rule<E>, rd: Spoiler.Reading<E>, recent: string, save: seq<string>)
    requires Consistent(w) && rd.save.scenes.Keys == SceneSet(w) && SavePass.Fits(w, rule)
    requires CheckBooks(rd.save) && EntrancesBounded(rd.save)
    ensures var v := Visited(w, rows, rule, rd, recent, save).save;
      CheckBooks(v) && EntrancesBounded(v)
  {
    var v0 := SavePass.Visit(Named(rd, recent), {}, false);
    SavePass.SeeAllPortals(w, rows, rule, v0, save);
    SavePass.UseAllBounded(w, rule, v0, save);
    var v := Visited(w, rows, rule, rd, recent, save).save;
    forall k | k in rd.save.scenes ensures v.scenes[k].totals.checks == rd.save.scenes[k].totals.checks {
      SavePass.UseAllCounts(w, rule, v0, save, k);
    }
    SavePass.UseAllCounts(w, rule, v0, save, "Shop");
    BooksAgree(rd.save, v);
  }

  // ------------------------------------------------- what the parse sets

  /**
   * The header a spoiler parse publishes: the save's name and hash, the
   * log's status and last `Seed: ` value, the save's last `seed|` value,
   * and each mode switch on exactly when its line occurs in the save.
   */
  function HeaderOf(recent: string, mtime: int, spoiler: seq<string>, save: seq<string>, digest: (string, int) -> string): Debug {
    Debug(
      recent, digest(recent, mtime),
      LastValue(save, SaveFlags.SeedKey, "", SaveFlags.Field1Of),
      LastValue(spoiler, Spoiler.SeedLabel, "", Spoiler.SeedText),
      mtime,
      SaveFlags.ArchipelagoLine in save,
      SaveFlags.ArchipelagoLine in save || SaveFlags.RandomizerLine in save,
      SaveFlags.HexQuestLine in save,
      SaveFlags.EntranceRandoLine in save,
      SaveFlags.FixedShopLine in save)
  }

  /** The player's whereabouts: the last spawn and campfire scenes the save names, and each item held exactly when its line occurs. */
  function WhereaboutsOf(w: World, save: seq<string>): Current {
    Current(
      LastValue(save, SaveFlags.SpawnKey, "", SaveFlags.SceneReader(w.translate)),
      LastValue(save, SaveFlags.CampfireKey, "", SaveFlags.SceneReader(w.translate)),
      LastValue(save, SaveFlags.DathCampfireKey, "", SaveFlags.SceneReader(w.translate)),
      SaveFlags.LaurelsLine in save,
      SaveFlags.DathStoneLine in save)
  }

  /** The code section lists the registry's flags, each up exactly when some save line is its signal. */
  predicate CodesOf(rows: seq<Code>, save: seq<string>, r: Flags) {
    var c := InitCodes(rows);
    && r.Keys == c.Keys && (forall f :: f in r ==> r[f].Keys == c[f].Keys)
    && forall f, k :: f in c && k in c[f] ==> (r[f][k] <==> SeenIn(rows, f, k, save))
  }

  /** After both files, whatever the portal rule, the header, whereabouts and code flags are as the two files say. */
  lemma SavedHeader<E>(w: World, rows: seq<Code>, rule: SavePass.Rule<E>, recent: string, mtime: int, spoiler: seq<string>,
                       save: seq<string>, digest: (string, int) -> string)
    requires Consistent(w) && SavePass.Fits(w, rule)
    ensures var v := Visited(w, rows, rule, Read<E>(w, rows, recent, mtime, spoiler, digest), recent, save).save;
      && v.debug == HeaderOf(recent, mtime, spoiler, save, digest)
      && v.current == WhereaboutsOf(w, save)
      && CodesOf(rows, save, v.codes)
  {
    var rd := Read<E>(w, rows, recent, mtime, spoiler, digest);
    ReadHeader<E>(w, rows, recent, mtime, spoiler, digest);
    VisitedSettings(w, rows, rule, rd, recent, save);
    SaveFlags.ApplyAllSwitches(Named(rd, recent), save, w.translate, false);
    SaveFlags.ApplyAllValues(Named(rd, recent), save, w.translate, false);
    MarkAllExactly(InitCodes(rows), rows, save);
  }
}

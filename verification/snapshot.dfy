/**
 * The snapshot the tracker serves: the `Save` payload with its debug header,
 * global counters, the player's whereabouts, one record per scene and the
 * code flags. The entrance value type `E` is a parameter: the current
 * tracker stores a `Door` (destination scene and door), the older parsers
 * store the destination door name only.
 *
 * The world registry the parsers consult (scene names, the doors of each
 * scene, the region of every door, and the scene-name translation) lives in
 * files outside the modelled core and is taken here as a `World` value.
 */
module Snapshot {
  import opened Codes

  /** A counter pair. Go's `int` fields; they only ever grow from zero. */
  datatype Total = Total(total: nat, undiscovered: nat)

  datatype Totals = Totals(entrances: Total, checks: Total)

  const NoTotal := Total(0, 0)
  const NoTotals := Totals(NoTotal, NoTotal)

  /** The current tracker's entrance record; `Door("", "")` is Go's `Door{}`. */
  datatype Door = Door(scene: string, door: string)

  const UnknownDoor := Door("", "")

  datatype Scene<E> = Scene(totals: Totals, checks: map<string, bool>, entrances: map<string, E>)

  /** `Debug.SpoilerMod` is a `time.Time`; here an integer timestamp, 0 for Go's zero time. */
  datatype Debug = Debug(
    name: string,
    hash: string,
    seed: string,
    spoilerSeed: string,
    spoilerMod: int,
    archipelago: bool,
    randomized: bool,
    hexQuest: bool,
    entranceRando: bool,
    fixedShops: bool)

  datatype Current = Current(scene: string, respawn: string, dath: string, hasLaurels: bool, hasDath: bool)

  datatype Save<E> = Save(debug: Debug, totals: Totals, current: Current, scenes: map<string, Scene<E>>, codes: Flags)

  const NoDebug := Debug("", "", "", "", 0, false, false, false, false, false)
  const NoCurrent := Current("", "", "", false, false)

  /**
   * The world registry: `sceneNames`, `allDoors` (a Go map from scene to its
   * doors, here as a list of its entries), `doorRegions` (door -> scene), and
   * `TranslateScene`, whose error result is only ever logged, so only the
   * returned scene name is kept.
   */
  datatype World = World(
    sceneNames: seq<string>,
    allDoors: seq<(string, seq<string>)>,
    doorRegions: map<string, string>,
    translate: string -> string)

  function SceneSet(w: World): set<string> {
    set i | 0 <= i < |w.sceneNames| :: w.sceneNames[i]
  }

  /**
   * Every scene the parsers write into is one of the payload's scenes. Go
   * reads a missing scene as a record with nil maps, and writing to a nil
   * map panics; the registry is built so that this never happens.
   */
  predicate Consistent(w: World) {
    && (forall d :: d in w.doorRegions ==> w.doorRegions[d] in SceneSet(w))
    && (forall i :: 0 <= i < |w.allDoors| ==> w.allDoors[i].0 in SceneSet(w))
    && "Shop" in SceneSet(w)
  }

  function EmptyScene<E>(): Scene<E> {
    Scene(NoTotals, map[], map[])
  }

  /** The payload before either file is read: every scene present and empty, all counters zero. */
  function Skeleton<E>(w: World, codes: Flags): (r: Save<E>)
    ensures r.scenes.Keys == SceneSet(w)
    ensures forall s :: s in r.scenes ==> r.scenes[s] == EmptyScene()
    ensures r.totals == NoTotals && r.debug == NoDebug && r.current == NoCurrent && r.codes == codes
  {
    Save(NoDebug, NoTotals, NoCurrent, map s | s in SceneSet(w) :: EmptyScene(), codes)
  }

  /** Per scene, no more entrances are undiscovered than counted. */
  predicate EntrancesBounded<E>(s: Save<E>) {
    forall k :: k in s.scenes ==> s.scenes[k].totals.entrances.undiscovered <= s.scenes[k].totals.entrances.total
  }

  /** Records `door` leading to `value` in scene `region` and counts one more entrance there. */
  function AddEntrance<E>(s: Save<E>, region: string, door: string, value: E): (r: Save<E>)
    requires region in s.scenes
    ensures r.scenes.Keys == s.scenes.Keys
    ensures r.scenes[region].entrances == s.scenes[region].entrances[door := value]
    ensures r.scenes[region].totals.entrances.total == s.scenes[region].totals.entrances.total + 1
    ensures r.scenes[region].totals.entrances.undiscovered == s.scenes[region].totals.entrances.undiscovered
    ensures r.scenes[region].totals.checks == s.scenes[region].totals.checks
    ensures r.scenes[region].checks == s.scenes[region].checks
    ensures forall k :: k in s.scenes && k != region ==> r.scenes[k] == s.scenes[k]
    ensures r.debug == s.debug && r.current == s.current && r.totals == s.totals && r.codes == s.codes
  {
    var sc := s.scenes[region];
    var t := sc.totals.entrances;
    s.(scenes := s.scenes[region := sc.(
      entrances := sc.entrances[door := value],
      totals := sc.totals.(entrances := t.(total := t.total + 1)))])
  }

  lemma AddEntranceBounded<E>(s: Save<E>, region: string, door: string, value: E)
    requires region in s.scenes && EntrancesBounded(s)
    ensures EntrancesBounded(AddEntrance(s, region, door, value))
  {
  }

  // ------------------------------------------------------- sums over scenes

  /** A scene's check count: `Checks.Undiscovered` when `hidden`, else `Checks.Total`. */
  function CheckCount<E>(sc: Scene<E>, hidden: bool): nat {
    if hidden then sc.totals.checks.undiscovered else sc.totals.checks.total
  }

  /** The check counts of the scenes named in `keys`, added up. */
  ghost function CheckSum<E>(scenes: map<string, Scene<E>>, keys: set<string>, hidden: bool): nat
    requires keys <= scenes.Keys
    decreases keys
  {
    if keys == {} then 0
    else
      var k :| k in keys;
      CheckCount(scenes[k], hidden) + CheckSum(scenes, keys - {k}, hidden)
  }

  /** Any scene can be taken out of the sum first. */
  lemma {:induction false} CheckSumRemove<E>(scenes: map<string, Scene<E>>, keys: set<string>, hidden: bool, k: string)
    requires keys <= scenes.Keys && k in keys
    ensures CheckSum(scenes, keys, hidden) == CheckCount(scenes[k], hidden) + CheckSum(scenes, keys - {k}, hidden)
    decreases keys
  {
    var j :| j in keys && CheckSum(scenes, keys, hidden) == CheckCount(scenes[j], hidden) + CheckSum(scenes, keys - {j}, hidden);
    if j != k {
      CheckSumRemove(scenes, keys - {j}, hidden, k);
      CheckSumRemove(scenes, keys - {k}, hidden, j);
      assert keys - {j} - {k} == keys - {k} - {j};
    }
  }

  /** The sum only looks at the scenes it names. */
  lemma {:induction false} CheckSumAgree<E>(a: map<string, Scene<E>>, b: map<string, Scene<E>>, keys: set<string>, hidden: bool)
    requires keys <= a.Keys && keys <= b.Keys
    requires forall k :: k in keys ==> CheckCount(a[k], hidden) == CheckCount(b[k], hidden)
    ensures CheckSum(a, keys, hidden) == CheckSum(b, keys, hidden)
    decreases keys
  {
    if keys != {} {
      var k :| k in keys && CheckSum(a, keys, hidden) == CheckCount(a[k], hidden) + CheckSum(a, keys - {k}, hidden);
      CheckSumRemove(b, keys, hidden, k);
      CheckSumAgree(a, b, keys - {k}, hidden);
    }
  }

  /** Replacing one scene changes the sum by the difference of its counts. */
  lemma CheckSumUpdate<E>(scenes: map<string, Scene<E>>, k: string, sc: Scene<E>, hidden: bool)
    requires k in scenes
    ensures CheckSum(scenes[k := sc], scenes.Keys, hidden) + CheckCount(scenes[k], hidden)
            == CheckSum(scenes, scenes.Keys, hidden) + CheckCount(sc, hidden)
  {
    var after := scenes[k := sc];
    assert after.Keys == scenes.Keys;
    CheckSumRemove(scenes, scenes.Keys, hidden, k);
    CheckSumRemove(after, scenes.Keys, hidden, k);
    CheckSumAgree(scenes, after, scenes.Keys - {k}, hidden);
  }

  /** Scenes that count nothing add up to nothing. */
  lemma {:induction false} CheckSumZero<E>(scenes: map<string, Scene<E>>, keys: set<string>, hidden: bool)
    requires keys <= scenes.Keys
    requires forall k :: k in keys ==> CheckCount(scenes[k], hidden) == 0
    ensures CheckSum(scenes, keys, hidden) == 0
    decreases keys
  {
    if keys != {} {
      var k :| k in keys && CheckSum(scenes, keys, hidden) == CheckCount(scenes[k], hidden) + CheckSum(scenes, keys - {k}, hidden);
      CheckSumZero(scenes, keys - {k}, hidden);
    }
  }

  /**
   * The check books balance: the global counters are the sums of the scene
   * counters, and no scene has more undiscovered checks than checks.
   */
  ghost predicate CheckBooks<E>(s: Save<E>) {
    && s.totals.checks.total == CheckSum(s.scenes, s.scenes.Keys, false)
    && s.totals.checks.undiscovered == CheckSum(s.scenes, s.scenes.Keys, true)
    && forall k :: k in s.scenes ==> s.scenes[k].totals.checks.undiscovered <= s.scenes[k].totals.checks.total
  }

  /** The books only read the counters: a payload with the same check counters balances too. */
  lemma BooksAgree<E>(s: Save<E>, t: Save<E>)
    requires CheckBooks(s) && t.scenes.Keys == s.scenes.Keys && t.totals.checks == s.totals.checks
    requires forall k :: k in s.scenes ==> t.scenes[k].totals.checks == s.scenes[k].totals.checks
    ensures CheckBooks(t)
  {
    CheckSumAgree(s.scenes, t.scenes, s.scenes.Keys, false);
    CheckSumAgree(s.scenes, t.scenes, s.scenes.Keys, true);
  }

  /** The skeleton's books balance at zero. */
  lemma SkeletonBooks<E>(w: World, codes: Flags)
    ensures CheckBooks(Skeleton<E>(w, codes)) && EntrancesBounded(Skeleton<E>(w, codes))
  {
    var s := Skeleton<E>(w, codes);
    CheckSumZero(s.scenes, s.scenes.Keys, false);
    CheckSumZero(s.scenes, s.scenes.Keys, true);
  }
}

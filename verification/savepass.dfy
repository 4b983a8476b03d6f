/**
 * The loop both spoiler parsers run over the save file. Every line goes
 * through the settings chain, then through the code registry, then through
 * the portal pattern. The parsers differ only in how a portal line is read,
 * which `Rule` collects: the tokens that are only noted (the shop doors) and
 * where any other token is recorded, as which entrance value.
 */
module SavePass {
  import opened Wrappers
  import opened Patterns
  import opened Snapshot
  import opened Codes
  import SaveFlags

  /** The loop's state: the payload, the doors seen in portal lines, and whether "Shop" was one of them. */
  datatype Visit<E> = Visit(save: Save<E>, observed: set<string>, foundShop: bool)

  /** How a parser reads a portal token: `stops` are only noted; any other token goes where `place` says, if anywhere. */
  datatype Rule<E> = Rule(stops: set<string>, place: string -> Option<(string, E)>)

  /** The payload's scenes are the world's scenes. */
  predicate Shaped<E>(w: World, s: Save<E>) {
    Consistent(w) && s.scenes.Keys == SceneSet(w)
  }

  /** The rule only records into scenes of the world. */
  ghost predicate Fits<E>(w: World, rule: Rule<E>) {
    forall d :: rule.place(d).Some? ==> rule.place(d).value.0 in SceneSet(w)
  }

  /** Token `d` is recorded, and in `scene`. */
  predicate PlacedIn<E>(rule: Rule<E>, d: string, scene: string) {
    d !in rule.stops && rule.place(d).Some? && rule.place(d).value.0 == scene
  }

  /** The settings and code flags a save line sets; scenes and counters are left alone. */
  function Settle<E>(w: World, rows: seq<Code>, s: Save<E>, line: string): (r: Save<E>)
    ensures r.scenes == s.scenes && r.totals == s.totals
  {
    var s1 := SaveFlags.Apply(s, line, w.translate, false);
    s1.(codes := MarkCodes(s1.codes, rows, line))
  }

  /** What a portal line does to the visit; any other line leaves it as it is. */
  function Use<E>(w: World, rule: Rule<E>, v: Visit<E>, line: string): (r: Visit<E>)
    requires Shaped(w, v.save) && Fits(w, rule)
    ensures Shaped(w, r.save)
    ensures r.save.debug == v.save.debug && r.save.current == v.save.current && r.save.codes == v.save.codes
  {
    match MatchPortal(line)
    case None => v
    case Some(d) =>
      var seen := v.observed + {d};
      var shop := v.foundShop || d == "Shop";
      if d in rule.stops then v.(observed := seen, foundShop := shop)
      else
        match rule.place(d)
        case None => v.(observed := seen, foundShop := shop)
        case Some((region, e)) => Visit(AddEntrance(v.save, region, d, e), seen, shop)
  }

  /** One save line: settings, code flags, then the portal pattern. */
  function See<E>(w: World, rows: seq<Code>, rule: Rule<E>, v: Visit<E>, line: string): (r: Visit<E>)
    requires Shaped(w, v.save) && Fits(w, rule)
    ensures Shaped(w, r.save)
  {
    Use(w, rule, v.(save := Settle(w, rows, v.save, line)), line)
  }

  /** The save file's loop. */
  function SeeAll<E>(w: World, rows: seq<Code>, rule: Rule<E>, v: Visit<E>, lines: seq<string>): (r: Visit<E>)
    requires Shaped(w, v.save) && Fits(w, rule)
    ensures Shaped(w, r.save)
  {
    if lines == [] then v else See(w, rows, rule, SeeAll(w, rows, rule, v, lines[..|lines| - 1]), lines[|lines| - 1])
  }

  /** The portal lines' part of the loop alone. */
  function UseAll<E>(w: World, rule: Rule<E>, v: Visit<E>, lines: seq<string>): (r: Visit<E>)
    requires Shaped(w, v.save) && Fits(w, rule)
    ensures Shaped(w, r.save)
  {
    if lines == [] then v else Use(w, rule, UseAll(w, rule, v, lines[..|lines| - 1]), lines[|lines| - 1])
  }

  /** What a portal line does depends on the scenes, counters and the doors seen so far, not on settings or flags. */
  lemma UseIgnoresSettings<E>(w: World, rule: Rule<E>, v: Visit<E>, u: Visit<E>, line: string)
    requires Shaped(w, v.save) && Shaped(w, u.save) && Fits(w, rule)
    requires v.save.scenes == u.save.scenes && v.save.totals == u.save.totals
    requires v.observed == u.observed && v.foundShop == u.foundShop
    ensures var a, b := Use(w, rule, v, line), Use(w, rule, u, line);
      a.save.scenes == b.save.scenes && a.save.totals == b.save.totals && a.observed == b.observed && a.foundShop == b.foundShop
  {
  }

  /** A settings line reads and writes only the debug header and the player's whereabouts. */
  lemma SettleLocal<E>(w: World, rows: seq<Code>, s: Save<E>, t: Save<E>, line: string)
    requires s.debug == t.debug && s.current == t.current
    ensures var a, b := Settle(w, rows, s, line), SaveFlags.Apply(t, line, w.translate, false);
      a.debug == b.debug && a.current == b.current
  {
  }

  /**
   * The loop over the save file does three independent things. The
   * settings follow the flag chain alone and the code flags the registry
   * alone ...
   */
  lemma {:induction false} SeeAllSettings<E>(w: World, rows: seq<Code>, rule: Rule<E>, v: Visit<E>, lines: seq<string>)
    requires Shaped(w, v.save) && Fits(w, rule)
    ensures var r := SeeAll(w, rows, rule, v, lines).save;
      var f := SaveFlags.ApplyAll(v.save, lines, w.translate, false);
      && r.debug == f.debug && r.current == f.current
      && r.codes == MarkAll(v.save.codes, rows, lines)
  {
    if lines != [] {
      var init, x := lines[..|lines| - 1], lines[|lines| - 1];
      SeeAllSettings(w, rows, rule, v, init);
      SettleLocal(w, rows, SeeAll(w, rows, rule, v, init).save, SaveFlags.ApplyAll(v.save, init, w.translate, false), x);
    }
  }

  /** ... and scenes, counters and the doors seen follow the portal lines alone. */
  lemma {:induction false} SeeAllPortals<E>(w: World, rows: seq<Code>, rule: Rule<E>, v: Visit<E>, lines: seq<string>)
    requires Shaped(w, v.save) && Fits(w, rule)
    ensures var r, u := SeeAll(w, rows, rule, v, lines), UseAll(w, rule, v, lines);
      && r.save.scenes == u.save.scenes && r.save.totals == u.save.totals
      && r.observed == u.observed && r.foundShop == u.foundShop
  {
    if lines != [] {
      var init, x := lines[..|lines| - 1], lines[|lines| - 1];
      SeeAllPortals(w, rows, rule, v, init);
      var r0, u0 := SeeAll(w, rows, rule, v, init), UseAll(w, rule, v, init);
      UseIgnoresSettings(w, rule, r0.(save := Settle(w, rows, r0.save, x)), u0, x);
    }
  }

  /**
   * A portal line for `d` always marks `d` observed, and notes a shop when
   * `d` is "Shop". It records `d` exactly when `d` is not a stop and the
   * rule places it, raising that scene's entrance total by one; in every
   * other case no scene changes.
   */
  lemma PortalLine<E>(w: World, rule: Rule<E>, v: Visit<E>, d: string)
    requires Shaped(w, v.save) && Fits(w, rule) && PortalToken(d)
    ensures var r := Use(w, rule, v, PortalPrefix + d + PortalSuffix);
      && r.observed == v.observed + {d}
      && r.foundShop == (v.foundShop || d == "Shop")
      && (d in rule.stops || rule.place(d).None? ==> r.save.scenes == v.save.scenes)
      && (d !in rule.stops && rule.place(d).Some? ==>
            var (region, e) := rule.place(d).value;
            && r.save.scenes[region].entrances == v.save.scenes[region].entrances[d := e]
            && r.save.scenes[region].totals.entrances.total == v.save.scenes[region].totals.entrances.total + 1
            && forall k :: k in v.save.scenes && k != region ==> r.save.scenes[k] == v.save.scenes[k])
  {
    MatchPortalLine(d);
  }

  /** The doors named by the portal lines of `lines`. */
  function Portals(lines: seq<string>): set<string> {
    if lines == [] then {}
    else
      Portals(lines[..|lines| - 1])
        + match MatchPortal(lines[|lines| - 1]) case Some(d) => {d} case None => {}
  }

  /** After the loop the observed doors are exactly the portal doors, and a shop was found exactly when "Shop" is one. */
  lemma {:induction false} UseAllObserved<E>(w: World, rule: Rule<E>, v: Visit<E>, lines: seq<string>)
    requires Shaped(w, v.save) && Fits(w, rule)
    ensures var r := UseAll(w, rule, v, lines);
      r.observed == v.observed + Portals(lines) && (r.foundShop <==> v.foundShop || "Shop" in Portals(lines))
  {
    if lines != [] {
      UseAllObserved(w, rule, v, lines[..|lines| - 1]);
    }
  }

  /** How many portal lines of `lines` record an entrance in `scene`. */
  function RecordedIn<E>(rule: Rule<E>, lines: seq<string>, scene: string): nat {
    if lines == [] then 0
    else
      RecordedIn(rule, lines[..|lines| - 1], scene)
        + match MatchPortal(lines[|lines| - 1])
          case Some(d) => if PlacedIn(rule, d, scene) then 1 else 0
          case None => 0
  }

  /** The loop raises a scene's entrance total once per recording portal line and touches nothing else of its counters. */
  lemma {:induction false} UseAllCounts<E>(w: World, rule: Rule<E>, v: Visit<E>, lines: seq<string>, scene: string)
    requires Shaped(w, v.save) && Fits(w, rule) && scene in v.save.scenes
    ensures var r, s := UseAll(w, rule, v, lines).save, v.save;
      && r.scenes[scene].totals.entrances.total == s.scenes[scene].totals.entrances.total + RecordedIn(rule, lines, scene)
      && r.scenes[scene].totals.entrances.undiscovered == s.scenes[scene].totals.entrances.undiscovered
      && r.scenes[scene].totals.checks == s.scenes[scene].totals.checks
      && r.scenes[scene].checks == s.scenes[scene].checks
      && r.totals == s.totals
  {
    if lines != [] {
      UseAllCounts(w, rule, v, lines[..|lines| - 1], scene);
    }
  }

  /**
   * The entrance a door has after the loop: a door some portal line names
   * and the rule places in `scene` holds the rule's value there; any other
   * key of the scene is as before.
   */
  lemma {:induction false} UseAllEntrance<E>(w: World, rule: Rule<E>, v: Visit<E>, lines: seq<string>, scene: string, d: string)
    requires Shaped(w, v.save) && Fits(w, rule) && scene in v.save.scenes
    ensures var r, s := UseAll(w, rule, v, lines).save.scenes[scene].entrances, v.save.scenes[scene].entrances;
      if d in Portals(lines) && PlacedIn(rule, d, scene)
      then d in r && r[d] == rule.place(d).value.1
      else (d in r <==> d in s) && (d in r ==> r[d] == s[d])
  {
    if lines != [] {
      UseAllEntrance(w, rule, v, lines[..|lines| - 1], scene, d);
    }
  }

  /** The loop keeps every scene's undiscovered count within its total. */
  lemma {:induction false} UseAllBounded<E>(w: World, rule: Rule<E>, v: Visit<E>, lines: seq<string>)
    requires Shaped(w, v.save) && Fits(w, rule) && EntrancesBounded(v.save)
    ensures EntrancesBounded(UseAll(w, rule, v, lines).save)
  {
    if lines != [] {
      UseAllBounded(w, rule, v, lines[..|lines| - 1]);
    }
  }
}

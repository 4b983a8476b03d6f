/**
 * The settings part of a save-file pass: the `if ... else if ...` chain
 * that recognises the randomizer switches, the held items and the
 * `key|value` lines for the seed and the player's scenes. The current
 * tracker and the older spoiler parser use the full chain; the older
 * spoiler-free parser uses a shorter chain without the held items and the
 * campfire keys.
 *
 * No line answers to two links of the chain, so the order of the links
 * never matters (`ClassifyExact`): a line sets a setting exactly when it has
 * that setting's shape.
 */
module SaveFlags {
  import opened Wrappers
  import opened Text
  import opened Snapshot
  import opened Codes
  import opened Patterns

  const ArchipelagoLine: string := "archipelago|1"
  const RandomizerLine: string := "randomizer|1"
  const HexQuestLine: string := "randomizer hexagon quest enabled|1"
  const EntranceRandoLine: string := "randomizer entrance rando enabled|1"
  const FixedShopLine: string := "randomizer ER fixed shop|1"
  const DathStoneLine: string := "inventory quantity Dath Stone|1"
  const LaurelsLine: string := "inventory quantity Hyperdash|1"
  const SeedKey: string := "seed|"
  const SpawnKey: string := "last spawn scene name|"
  const CampfireKey: string := "last campfire scene name|"
  const DathCampfireKey: string := "randomizer last campfire scene name" + " for dath stone|"

  /** The links of the chain, plus `NoFlag` for a line that none of them takes. */
  datatype Flag =
    | Archipelago | Randomizer | HexQuest | EntranceRando | FixedShop
    | DathStone | Laurels
    | SeedIs | SpawnAt | CampfireAt | DathCampfireAt
    | NoFlag

  /** A link that reads a value after the line's first `|`. */
  predicate Keyed(f: Flag) {
    f == SeedIs || f == SpawnAt || f == CampfireAt || f == DathCampfireAt
  }

  /** The shape of line each link takes: the whole line, or a key in front of a value. */
  predicate Answers(f: Flag, line: string) {
    match f
    case Archipelago => line == ArchipelagoLine
    case Randomizer => line == RandomizerLine
    case HexQuest => line == HexQuestLine
    case EntranceRando => line == EntranceRandoLine
    case FixedShop => line == FixedShopLine
    case DathStone => line == DathStoneLine
    case Laurels => line == LaurelsLine
    case SeedIs => HasPrefix(line, SeedKey)
    case SpawnAt => HasPrefix(line, SpawnKey)
    case CampfireAt => HasPrefix(line, CampfireKey)
    case DathCampfireAt => HasPrefix(line, DathCampfireKey)
    case NoFlag => false
  }

  /** The full chain of the current tracker and the older spoiler parser, first link first. */
  function Classify(line: string): (r: Flag)
    ensures r != NoFlag ==> Answers(r, line)
    ensures r == NoFlag ==> forall f :: !Answers(f, line)
    ensures Keyed(r) ==> '|' in line
  {
    if line == ArchipelagoLine then Archipelago
    else if line == RandomizerLine then Randomizer
    else if line == HexQuestLine then HexQuest
    else if line == EntranceRandoLine then EntranceRando
    else if line == FixedShopLine then FixedShop
    else if line == DathStoneLine then DathStone
    else if line == LaurelsLine then Laurels
    else if HasPrefix(line, SeedKey) then KeyBar(line, SeedKey); SeedIs
    else if HasPrefix(line, SpawnKey) then KeyBar(line, SpawnKey); SpawnAt
    else if HasPrefix(line, CampfireKey) then KeyBar(line, CampfireKey); CampfireAt
    else if HasPrefix(line, DathCampfireKey) then KeyBar(line, DathCampfireKey); DathCampfireAt
    else NoFlag
  }

  /** A key ends in `|`, so a line that starts with it contains one. */
  lemma KeyBar(line: string, key: string)
    requires HasPrefix(line, key) && |key| > 0 && key[|key| - 1] == '|'
    ensures '|' in line
  {
    assert line[|key| - 1] == line[..|key|][|key| - 1];
  }

  lemma KeyAt(line: string, key: string, i: nat)
    requires HasPrefix(line, key) && i < |key|
    ensures line[i] == key[i]
  {
    assert line[i] == line[..|key|][i];
  }

  /** The character at `i` of a line that answers to `f` (when the shape fixes it). */
  lemma Shape(f: Flag, line: string, i: nat)
    requires Answers(f, line) && i < 12
    ensures f == Archipelago ==> |line| == 13 && line[0] == 'a'
    ensures f == Randomizer ==> |line| == 12 && line[0] == 'r' && line[10] == '|'
    ensures f == HexQuest ==> |line| == 34 && line[0] == 'r' && line[10] == ' ' && line[11] == 'h'
    ensures f == EntranceRando ==> |line| == 35 && line[0] == 'r' && line[10] == ' ' && line[11] == 'e'
    ensures f == FixedShop ==> |line| == 26 && line[0] == 'r' && line[10] == ' ' && line[11] == 'E'
    ensures f == DathStone ==> |line| == 31 && line[0] == 'i' && line[19] == 'D'
    ensures f == Laurels ==> |line| == 30 && line[0] == 'i' && line[19] == 'H'
    ensures f == SeedIs ==> |line| >= 5 && line[0] == 's'
    ensures f == SpawnAt ==> |line| >= 22 && line[0] == 'l' && line[5] == 's'
    ensures f == CampfireAt ==> |line| >= 25 && line[0] == 'l' && line[5] == 'c'
    ensures f == DathCampfireAt ==> |line| >= 51 && line[0] == 'r' && line[10] == ' ' && line[11] == 'l'
  {
    match f
    case SeedIs => KeyAt(line, SeedKey, 0);
    case SpawnAt => KeyAt(line, SpawnKey, 0); KeyAt(line, SpawnKey, 5);
    case CampfireAt => KeyAt(line, CampfireKey, 0); KeyAt(line, CampfireKey, 5);
    case DathCampfireAt =>
      KeyAt(line, DathCampfireKey, 0); KeyAt(line, DathCampfireKey, 10); KeyAt(line, DathCampfireKey, 11);
    case _ =>
  }

  /** No line has the shape of two different links. */
  lemma Disjoint(f: Flag, g: Flag, line: string)
    requires Answers(f, line) && Answers(g, line)
    ensures f == g
  {
    Shape(f, line, 0);
    Shape(g, line, 0);
  }

  /** The chain's order is immaterial: a line takes link `f` exactly when it has `f`'s shape. */
  lemma ClassifyExact(line: string, f: Flag)
    requires f != NoFlag
    ensures Classify(line) == f <==> Answers(f, line)
  {
    if Answers(f, line) {
      Disjoint(f, Classify(line), line);
    }
  }

  /** The shorter chain of the older spoiler-free parser. */
  function ClassifyShort(line: string): (r: Flag)
  {
    if line == ArchipelagoLine then Archipelago
    else if line == RandomizerLine then Randomizer
    else if line == HexQuestLine then HexQuest
    else if line == EntranceRandoLine then EntranceRando
    else if line == FixedShopLine then FixedShop
    else if HasPrefix(line, SeedKey) then SeedIs
    else if HasPrefix(line, SpawnKey) then SpawnAt
    else NoFlag
  }

  /** The links the shorter chain keeps. */
  predicate InShortChain(f: Flag) {
    f in {Archipelago, Randomizer, HexQuest, EntranceRando, FixedShop, SeedIs, SpawnAt}
  }

  /** The shorter chain is the full chain with the held items and campfire keys dropped. */
  lemma ShortChainRestricts(line: string)
    ensures ClassifyShort(line) == if InShortChain(Classify(line)) then Classify(line) else NoFlag
  {
    var f := Classify(line);
    if f != NoFlag {
      ClassifyExact(line, f);
    }
    var g := ClassifyShort(line);
    if g != NoFlag {
      ClassifyExact(line, g);
    }
  }

  /** `getSceneFromFlag`: the value after the key, through the scene-name translation. */
  function SceneFromFlag(line: string, translate: string -> string): string
    requires '|' in line
  {
    translate(Field1(line))
  }

  /** One line's effect on the settings. `short` selects the older parser's shorter chain. */
  function Apply<E>(s: Save<E>, line: string, translate: string -> string, short: bool): (r: Save<E>)
    ensures r.scenes == s.scenes && r.totals == s.totals && r.codes == s.codes
    ensures r.debug.name == s.debug.name && r.debug.hash == s.debug.hash
    ensures r.debug.spoilerSeed == s.debug.spoilerSeed && r.debug.spoilerMod == s.debug.spoilerMod
  {
    var f := if short then ClassifyShort(line) else Classify(line);
    ShortChainRestricts(line);
    match f
    case Archipelago => s.(debug := s.debug.(archipelago := true, randomized := true))
    case Randomizer => s.(debug := s.debug.(randomized := true))
    case HexQuest => s.(debug := s.debug.(hexQuest := true))
    case EntranceRando => s.(debug := s.debug.(entranceRando := true))
    case FixedShop => s.(debug := s.debug.(fixedShops := true))
    case DathStone => s.(current := s.current.(hasDath := true))
    case Laurels => s.(current := s.current.(hasLaurels := true))
    case SeedIs => s.(debug := s.debug.(seed := Field1(line)))
    case SpawnAt => s.(current := s.current.(scene := SceneFromFlag(line, translate)))
    case CampfireAt => s.(current := s.current.(respawn := SceneFromFlag(line, translate)))
    case DathCampfireAt => s.(current := s.current.(dath := SceneFromFlag(line, translate)))
    case NoFlag => s
  }

  /** The settings after every line of `lines`, in order. */
  function ApplyAll<E>(s: Save<E>, lines: seq<string>, translate: string -> string, short: bool): (r: Save<E>)
    ensures r.scenes == s.scenes && r.totals == s.totals && r.codes == s.codes
    ensures r.debug.name == s.debug.name && r.debug.hash == s.debug.hash
    ensures r.debug.spoilerSeed == s.debug.spoilerSeed && r.debug.spoilerMod == s.debug.spoilerMod
  {
    if lines == [] then s
    else Apply(ApplyAll(s, lines[..|lines| - 1], translate, short), lines[|lines| - 1], translate, short)
  }

  /** One line's effect, field by field. */
  lemma ApplySwitches<E>(s: Save<E>, line: string, translate: string -> string, short: bool)
    ensures var r := Apply(s, line, translate, short);
      && (r.debug.archipelago <==> s.debug.archipelago || line == ArchipelagoLine)
      && (r.debug.randomized <==> s.debug.randomized || line == ArchipelagoLine || line == RandomizerLine)
      && (r.debug.hexQuest <==> s.debug.hexQuest || line == HexQuestLine)
      && (r.debug.entranceRando <==> s.debug.entranceRando || line == EntranceRandoLine)
      && (r.debug.fixedShops <==> s.debug.fixedShops || line == FixedShopLine)
      && (r.current.hasDath <==> s.current.hasDath || (!short && line == DathStoneLine))
      && (r.current.hasLaurels <==> s.current.hasLaurels || (!short && line == LaurelsLine))
  {
    ShortChainRestricts(line);
    var f := Classify(line);
    forall g | g != NoFlag && !Keyed(g) ensures Answers(g, line) <==> f == g {
      ClassifyExact(line, g);
    }
  }

  lemma ApplyValues<E>(s: Save<E>, line: string, translate: string -> string, short: bool)
    ensures var r := Apply(s, line, translate, short);
      && r.debug.seed == (if HasPrefix(line, SeedKey) then Field1Of(line) else s.debug.seed)
      && r.current.scene == (if HasPrefix(line, SpawnKey) then SceneOf(line, translate) else s.current.scene)
      && r.current.respawn == (if !short && HasPrefix(line, CampfireKey) then SceneOf(line, translate)
                               else s.current.respawn)
      && r.current.dath == (if !short && HasPrefix(line, DathCampfireKey) then SceneOf(line, translate)
                            else s.current.dath)
  {
    ShortChainRestricts(line);
    ApplyValue(s, line, translate, short, SeedIs);
    ApplyValue(s, line, translate, short, SpawnAt);
    ApplyValue(s, line, translate, short, CampfireAt);
    ApplyValue(s, line, translate, short, DathCampfireAt);
  }

  /** One keyed setting: the line sets it exactly when the line answers its key. */
  lemma ApplyValue<E>(s: Save<E>, line: string, translate: string -> string, short: bool, f: Flag)
    requires f in {SeedIs, SpawnAt, CampfireAt, DathCampfireAt}
    ensures var r := Apply(s, line, translate, short);
      && (f == SeedIs ==> r.debug.seed == (if HasPrefix(line, SeedKey) then Field1Of(line) else s.debug.seed))
      && (f == SpawnAt ==> r.current.scene == (if HasPrefix(line, SpawnKey) then SceneOf(line, translate) else s.current.scene))
      && (f == CampfireAt ==> r.current.respawn == (if !short && HasPrefix(line, CampfireKey) then SceneOf(line, translate)
                                                    else s.current.respawn))
      && (f == DathCampfireAt ==> r.current.dath == (if !short && HasPrefix(line, DathCampfireKey) then SceneOf(line, translate)
                                                     else s.current.dath))
  {
    ShortChainRestricts(line);
    ClassifyExact(line, f);
  }

  /** A switch is on after the pass exactly when it was on already or its line occurs. */
  lemma {:induction false} ApplyAllSwitches<E>(s: Save<E>, lines: seq<string>, translate: string -> string, short: bool)
    ensures var r := ApplyAll(s, lines, translate, short);
      && (r.debug.archipelago <==> s.debug.archipelago || ArchipelagoLine in lines)
      && (r.debug.randomized <==> s.debug.randomized || ArchipelagoLine in lines || RandomizerLine in lines)
      && (r.debug.hexQuest <==> s.debug.hexQuest || HexQuestLine in lines)
      && (r.debug.entranceRando <==> s.debug.entranceRando || EntranceRandoLine in lines)
      && (r.debug.fixedShops <==> s.debug.fixedShops || FixedShopLine in lines)
      && (r.current.hasDath <==> s.current.hasDath || (!short && DathStoneLine in lines))
      && (r.current.hasLaurels <==> s.current.hasLaurels || (!short && LaurelsLine in lines))
  {
    if lines != [] {
      var init := lines[..|lines| - 1];
      var last := lines[|lines| - 1];
      ApplyAllSwitches(s, init, translate, short);
      assert lines == init + [last];
      ApplySwitches(ApplyAll(s, init, translate, short), last, translate, short);
    }
  }

  /** Each value is the one its last `key|value` line gives, or unchanged when there is none. */
  lemma {:induction false} ApplyAllValues<E>(s: Save<E>, lines: seq<string>, translate: string -> string, short: bool)
    ensures var r := ApplyAll(s, lines, translate, short);
      && r.debug.seed == LastValue(lines, SeedKey, s.debug.seed, Field1Of)
      && r.current.scene == LastValue(lines, SpawnKey, s.current.scene, SceneReader(translate))
      && r.current.respawn == (if short then s.current.respawn
                               else LastValue(lines, CampfireKey, s.current.respawn, SceneReader(translate)))
      && r.current.dath == (if short then s.current.dath
                            else LastValue(lines, DathCampfireKey, s.current.dath, SceneReader(translate)))
  {
    if lines != [] {
      var init := lines[..|lines| - 1];
      ApplyAllValues(s, init, translate, short);
      ApplyValues(ApplyAll(s, init, translate, short), lines[|lines| - 1], translate, short);
    }
  }

  /** `Field1` made total for use as a reader: lines without a bar read as empty. */
  function Field1Of(line: string): string {
    if '|' in line then Field1(line) else ""
  }

  function SceneOf(line: string, translate: string -> string): string {
    if '|' in line then SceneFromFlag(line, translate) else ""
  }

  /** `SceneOf` under a fixed translation, as a reader for `LastValue`. */
  function SceneReader(translate: string -> string): string -> string {
    line => SceneOf(line, translate)
  }

  /** A code signal never sets a setting and never names a portal. */
  lemma SignalsAreNotSettings(sig: Sig)
    ensures Classify(Signal(sig)) == NoFlag && ClassifyShort(Signal(sig)) == NoFlag
    ensures MatchPortal(Signal(sig)) == None
  {
    var line := Signal(sig);
    SignalStart(sig);
    forall f | f != NoFlag ensures !Answers(f, line) {
      if Answers(f, line) { Shape(f, line, 0); }
    }
    ShortChainRestricts(line);
    if MatchPortal(line).Some? {
      KeyAt(line, PortalPrefix, 0);
    }
  }

  /** A portal line never sets a setting. */
  lemma PortalsAreNotSettings(t: string)
    ensures Classify(PortalPrefix + t + PortalSuffix) == NoFlag
    ensures ClassifyShort(PortalPrefix + t + PortalSuffix) == NoFlag
  {
    var line := PortalPrefix + t + PortalSuffix;
    PrefixOfConcat(PortalPrefix, t + PortalSuffix);
    assert line == PortalPrefix + (t + PortalSuffix);
    KeyAt(line, PortalPrefix, 0);
    KeyAt(line, PortalPrefix, 10);
    KeyAt(line, PortalPrefix, 11);
    KeyAt(line, PortalPrefix, 14);
    forall f | f != NoFlag ensures !Answers(f, line) {
      if Answers(f, line) {
        Shape(f, line, 0);
      }
    }
    ShortChainRestricts(line);
  }
}

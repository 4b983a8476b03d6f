/**
 * Code flags: the secret doors, fairies and treasures the tracker shows as
 * found. A registry maps family -> flag -> signal, where the signal is the
 * exact save-file line the game writes once the flag is raised. Both parsers
 * start every registered flag at `false` and raise a flag when some save line
 * equals its signal.
 *
 * Signals are stored by their shape rather than as flat text: the game's
 * save variables are `SV_<scene>_<thing>|1`, the fairy variables are
 * `SV_Fairy_<number>_<place>_Revealed|1`, and the granted items are
 * `Granted <item>|1`. `Signal` puts the pieces back together into the exact
 * text of the registry entry.
 */
module Codes {
  import opened Text

  datatype Sig =
    | Granted(item: string)
    | Fairy(number: nat, place: string)
    | Saved(scene: string, thing: string)

  const SavePrefix: string := "SV_"
  const GrantPrefix: string := "Granted "
  /** Every signal records a flag raised to 1. */
  const Raised: string := "|1"

  /** The save variable `SV_<scene>_<thing>` raised to 1. */
  function SaveVariable(scene: string, thing: string): string {
    SavePrefix + (scene + "_" + (thing + Raised))
  }

  /** The scene and thing a save-variable signal is built from. */
  function Parts(s: Sig): (string, string)
    requires !s.Granted?
  {
    match s
    case Fairy(n, place) => ("Fairy", Decimal(n) + "_" + place + "_Revealed")
    case Saved(scene, thing) => (scene, thing)
  }

  /** The exact save line that raises a flag. */
  function Signal(s: Sig): (r: string)
    ensures HasSuffix(r, Raised)
    ensures s.Granted? ==> HasPrefix(r, GrantPrefix)
    ensures !s.Granted? ==> HasPrefix(r, SavePrefix)
  {
    if s.Granted? then
      PrefixOfConcat(GrantPrefix, s.item + Raised);
      SuffixOfConcat(GrantPrefix + s.item, Raised);
      GrantPrefix + s.item + Raised
    else
      var (scene, thing) := Parts(s);
      PrefixOfConcat(SavePrefix, scene + "_" + (thing + Raised));
      SuffixOfConcat(SavePrefix + scene + "_" + thing, Raised);
      SaveVariable(scene, thing)
  }

  /**
   * A scene name stops at the first `_` of the variable and is not the fairy
   * family itself; under that reading a signal names one entry only.
   */
  predicate WellFormed(s: Sig) {
    s.Saved? ==> '_' !in s.scene && s.scene != "Fairy"
  }

  lemma SaveVariableInjective(scene: string, thing: string, scene': string, thing': string)
    requires '_' !in scene && '_' !in scene'
    requires SaveVariable(scene, thing) == SaveVariable(scene', thing')
    ensures scene == scene' && thing == thing'
  {
    PrefixCancel(SavePrefix, scene + "_" + (thing + Raised), scene' + "_" + (thing' + Raised));
    assert scene + "_" + (thing + Raised) == scene + ['_'] + (thing + Raised);
    assert scene' + "_" + (thing' + Raised) == scene' + ['_'] + (thing' + Raised);
    SplitAtFirst('_', scene, thing + Raised, scene', thing' + Raised);
    SuffixCancel(thing, thing', Raised);
  }

  /** The first letter tells a granted item from a save variable. */
  lemma SignalStart(s: Sig)
    ensures |Signal(s)| > 0 && Signal(s)[0] == if s.Granted? then 'G' else 'S'
  {
    assert Signal(s)[0] == Signal(s)[..1][0];
  }

  /** Well-formed signatures render to different lines unless they are equal. */
  lemma SignalInjective(a: Sig, b: Sig)
    requires WellFormed(a) && WellFormed(b)
    requires Signal(a) == Signal(b)
    ensures a == b
  {
    if a.Granted? && b.Granted? {
      assert GrantPrefix + a.item + Raised == GrantPrefix + (a.item + Raised);
      assert GrantPrefix + b.item + Raised == GrantPrefix + (b.item + Raised);
      PrefixCancel(GrantPrefix, a.item + Raised, b.item + Raised);
      SuffixCancel(a.item, b.item, Raised);
    } else if a.Granted? || b.Granted? {
      SignalStart(a);
      SignalStart(b);
      assert false;
    } else {
      var (sa, oa) := Parts(a);
      var (sb, ob) := Parts(b);
      SaveVariableInjective(sa, oa, sb, ob);
      if a.Fairy? && b.Fairy? {
        var ra := a.place + "_Revealed";
        var rb := b.place + "_Revealed";
        assert oa == Decimal(a.number) + ['_'] + ra;
        assert ob == Decimal(b.number) + ['_'] + rb;
        DecimalAvoids(a.number, '_');
        DecimalAvoids(b.number, '_');
        SplitAtFirst('_', Decimal(a.number), ra, Decimal(b.number), rb);
        SuffixCancel(a.place, b.place, "_Revealed");
        if a.number != b.number {
          DecimalInjective(a.number, b.number);
        }
      }
    }
  }

  /** One registry entry: the flag `flag` of family `family` is raised by the save line of `sig`. */
  datatype Code = Code(family: string, flag: string, sig: Sig)

  predicate WellFormedRows(rows: seq<Code>) {
    forall i :: 0 <= i < |rows| ==> WellFormed(rows[i].sig)
  }

  /** A Go map literal cannot repeat a key: each (family, flag) is listed once. */
  predicate UniqueKeys(rows: seq<Code>) {
    forall i, j :: 0 <= i < j < |rows| ==> rows[i].family != rows[j].family || rows[i].flag != rows[j].flag
  }

  predicate DistinctSigs(rows: seq<Code>) {
    forall i, j :: 0 <= i < j < |rows| ==> rows[i].sig != rows[j].sig
  }

  predicate DistinctSignals(rows: seq<Code>) {
    forall i, j :: 0 <= i < j < |rows| ==> Signal(rows[i].sig) != Signal(rows[j].sig)
  }

  /** Distinct well-formed signatures give pairwise distinct signal lines. */
  lemma SignalsOfDistinctSigs(rows: seq<Code>)
    requires WellFormedRows(rows) && DistinctSigs(rows)
    ensures DistinctSignals(rows)
  {
    forall i, j | 0 <= i < j < |rows| ensures Signal(rows[i].sig) != Signal(rows[j].sig) {
      if Signal(rows[i].sig) == Signal(rows[j].sig) {
        SignalInjective(rows[i].sig, rows[j].sig);
      }
    }
  }

  /** Some entry of the registry is the fairy numbered `k`. */
  predicate ListsFairy(rows: seq<Code>, k: nat) {
    exists i :: 0 <= i < |rows| && rows[i].sig.Fairy? && rows[i].sig.number == k
  }

  /** Some entry of the registry has signature `s`. */
  predicate ListsSig(rows: seq<Code>, s: Sig) {
    exists i :: 0 <= i < |rows| && rows[i].sig == s
  }

  /** A fairy signal begins with `SV_Fairy_<number>_`. */
  lemma FairyPrefix(k: nat, place: string)
    ensures HasPrefix(Signal(Fairy(k, place)), "SV_Fairy_" + Decimal(k) + "_")
  {
    var d := Decimal(k);
    var p := "SV_Fairy_" + d + "_";
    var x := place + "_Revealed" + Raised;
    var t := d + "_" + place + "_Revealed";
    assert Signal(Fairy(k, place)) == SavePrefix + ("Fairy" + "_" + (t + Raised));
    assert t + Raised == d + "_" + x;
    assert "Fairy" + "_" + (d + "_" + x) == "Fairy_" + (d + "_" + x);
    assert SavePrefix + ("Fairy_" + (d + "_" + x)) == p + x;
    PrefixOfConcat(p, x);
  }

  /** `codes[family][flag]` for every registered pair. */
  type Flags = map<string, map<string, bool>>

  predicate Registered(rows: seq<Code>, family: string, flag: string) {
    exists i :: 0 <= i < |rows| && rows[i].family == family && rows[i].flag == flag
  }

  /** The entry `(family, flag)` of the registry has `line` as its signal. */
  predicate SetBy(rows: seq<Code>, family: string, flag: string, line: string) {
    exists i :: 0 <= i < |rows| && rows[i].family == family && rows[i].flag == flag && Signal(rows[i].sig) == line
  }

  /** The payload's code section before any save line is read. */
  function InitCodes(rows: seq<Code>): (r: Flags)
    ensures forall i :: 0 <= i < |rows| ==> rows[i].family in r && rows[i].flag in r[rows[i].family]
    ensures forall f, k :: f in r && k in r[f] ==> Registered(rows, f, k) && !r[f][k]
  {
    map f | f in Families(rows) :: map k | k in FlagsOf(rows, f) :: false
  }

  function Families(rows: seq<Code>): set<string> {
    set i | 0 <= i < |rows| :: rows[i].family
  }

  function FlagsOf(rows: seq<Code>, family: string): set<string> {
    set i | 0 <= i < |rows| && rows[i].family == family :: rows[i].flag
  }

  /** One save line raises the flag whose signal it is; nothing is ever lowered. */
  function MarkCodes(codes: Flags, rows: seq<Code>, line: string): (r: Flags)
    ensures r.Keys == codes.Keys
    ensures forall f :: f in r ==> r[f].Keys == codes[f].Keys
    ensures forall f, k :: f in r && k in r[f] ==> (r[f][k] <==> codes[f][k] || SetBy(rows, f, k, line))
  {
    map f | f in codes :: map k | k in codes[f] :: codes[f][k] || SetBy(rows, f, k, line)
  }

  /** The code section after every line of `lines`, in order. */
  function MarkAll(codes: Flags, rows: seq<Code>, lines: seq<string>): (r: Flags)
    ensures r.Keys == codes.Keys
    ensures forall f :: f in r ==> r[f].Keys == codes[f].Keys
  {
    if lines == [] then codes
    else MarkCodes(MarkAll(codes, rows, lines[..|lines| - 1]), rows, lines[|lines| - 1])
  }

  /** Some line of `lines` is the signal of `(family, flag)`. */
  predicate SeenIn(rows: seq<Code>, family: string, flag: string, lines: seq<string>) {
    exists n :: 0 <= n < |lines| && SetBy(rows, family, flag, lines[n])
  }

  /**
   * After the whole save file a flag is up exactly when it was up before or
   * some line equals its signal.
   */
  lemma {:induction false} MarkAllExactly(codes: Flags, rows: seq<Code>, lines: seq<string>)
    ensures forall f, k :: f in codes && k in codes[f] ==>
      (MarkAll(codes, rows, lines)[f][k] <==> codes[f][k] || SeenIn(rows, f, k, lines))
  {
    if lines != [] {
      var init := lines[..|lines| - 1];
      var last := lines[|lines| - 1];
      MarkAllExactly(codes, rows, init);
      var before, after := MarkAll(codes, rows, init), MarkAll(codes, rows, lines);
      forall f, k | f in codes && k in codes[f]
        ensures after[f][k] <==> codes[f][k] || SeenIn(rows, f, k, lines)
      {
        assert after[f][k] <==> before[f][k] || SetBy(rows, f, k, last);
        if SeenIn(rows, f, k, init) {
          var n :| 0 <= n < |init| && SetBy(rows, f, k, init[n]);
          assert lines[n] == init[n];
        }
        if SeenIn(rows, f, k, lines) {
          var n :| 0 <= n < |lines| && SetBy(rows, f, k, lines[n]);
          if n < |init| {
            assert init[n] == lines[n];
          }
        }
      }
    }
  }

  /** With distinct signals one save line belongs to at most one (family, flag). */
  lemma OneLineOneFlag(rows: seq<Code>, line: string, f: string, k: string, f': string, k': string)
    requires DistinctSignals(rows)
    requires SetBy(rows, f, k, line) && SetBy(rows, f', k', line)
    ensures f == f' && k == k'
  {
    var i :| 0 <= i < |rows| && rows[i].family == f && rows[i].flag == k && Signal(rows[i].sig) == line;
    var j :| 0 <= j < |rows| && rows[j].family == f' && rows[j].flag == k' && Signal(rows[j].sig) == line;
    assert i == j;
  }
}

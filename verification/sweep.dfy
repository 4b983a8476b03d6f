/**
 * The undiscovered-door sweep that ends every parser: each door of the
 * world's door list that the save file never showed gets a blank entrance
 * in its scene, and the undiscovered counters rise. The three parsers
 * differ only in the details collected in `Policy`:
 *   - the current tracker skips the shop doors, stores `Door{}` and counts
 *     the door in its scene's total;
 *   - the older spoiler parser skips nothing, stores `""` and counts it;
 *   - the older spoiler-free parser skips nothing, stores `""` and does not
 *     raise the scene's total.
 */
module Sweep {
  import opened Snapshot

  datatype Policy<E> = Policy(skipShops: bool, blank: E, countTotal: bool)

  /** The (scene, door) pairs of `allDoors`, in the order the nested loop visits them. */
  function Listing(allDoors: seq<(string, seq<string>)>): (r: seq<(string, string)>)
    ensures forall i :: 0 <= i < |r| ==> exists j :: 0 <= j < |allDoors| && r[i].0 == allDoors[j].0
  {
    if allDoors == [] then []
    else
      var rest := Listing(allDoors[1..]);
      var here := seq(|allDoors[0].1|, k requires 0 <= k < |allDoors[0].1| => (allDoors[0].0, allDoors[0].1[k]));
      assert forall i :: 0 <= i < |rest| ==> exists j :: 0 <= j < |allDoors| && rest[i].0 == allDoors[j].0 by {
        forall i | 0 <= i < |rest| ensures exists j :: 0 <= j < |allDoors| && rest[i].0 == allDoors[j].0 {
          var j :| 0 <= j < |allDoors[1..]| && rest[i].0 == allDoors[1..][j].0;
          assert allDoors[1..][j] == allDoors[j + 1];
        }
      }
      here + rest
  }

  /** A pair is listed exactly when its door appears in its scene's entry of `allDoors`. */
  lemma {:induction false} ListingExact(allDoors: seq<(string, seq<string>)>, scene: string, door: string)
    ensures (scene, door) in Listing(allDoors) <==>
      exists i, k :: 0 <= i < |allDoors| && 0 <= k < |allDoors[i].1| && allDoors[i].0 == scene && allDoors[i].1[k] == door
  {
    if allDoors != [] {
      var tail := allDoors[1..];
      ListingExact(tail, scene, door);
      var e := allDoors[0];
      var here := seq(|e.1|, k requires 0 <= k < |e.1| => (e.0, e.1[k]));
      assert Listing(allDoors) == here + Listing(tail);
      if (scene, door) in here {
        var k :| 0 <= k < |here| && here[k] == (scene, door);
        assert allDoors[0].1[k] == door;
      }
      if (scene, door) in Listing(tail) {
        var i, k :| 0 <= i < |tail| && 0 <= k < |tail[i].1| && tail[i].0 == scene && tail[i].1[k] == door;
        assert allDoors[i + 1] == tail[i];
      }
      if exists i, k :: 0 <= i < |allDoors| && 0 <= k < |allDoors[i].1| && allDoors[i].0 == scene && allDoors[i].1[k] == door {
        var i, k :| 0 <= i < |allDoors| && 0 <= k < |allDoors[i].1| && allDoors[i].0 == scene && allDoors[i].1[k] == door;
        if i == 0 {
          assert here[k] == (scene, door);
        } else {
          assert tail[i - 1] == allDoors[i];
        }
      }
    }
  }

  /** A door the sweep passes over whatever happened to it. */
  predicate Skipped<E>(p: Policy<E>, door: string) {
    p.skipShops && (door == "Shop" || door == "Shop Portal")
  }

  /** The sweep acts on this listed door: it is not skipped and was never observed. */
  predicate Pending<E>(p: Policy<E>, observed: set<string>, door: string) {
    !Skipped(p, door) && door !in observed
  }

  /** One unobserved door: blank entrance, undiscovered counters up, and the scene total when counted. */
  function MarkUnseen<E>(s: Save<E>, p: Policy<E>, scene: string, door: string): (r: Save<E>)
    requires scene in s.scenes
    ensures r.scenes.Keys == s.scenes.Keys
    ensures r.scenes[scene].entrances == s.scenes[scene].entrances[door := p.blank]
    ensures r.scenes[scene].totals.entrances.undiscovered == s.scenes[scene].totals.entrances.undiscovered + 1
    ensures r.scenes[scene].totals.entrances.total == s.scenes[scene].totals.entrances.total + (if p.countTotal then 1 else 0)
    ensures r.totals.entrances.undiscovered == s.totals.entrances.undiscovered + 1
    ensures forall k :: k in s.scenes && k != scene ==> r.scenes[k] == s.scenes[k]
  {
    var sc := s.scenes[scene];
    var t := sc.totals.entrances;
    var g := s.totals.entrances;
    s.(totals := s.totals.(entrances := g.(undiscovered := g.undiscovered + 1)),
       scenes := s.scenes[scene := sc.(
         entrances := sc.entrances[door := p.blank],
         totals := sc.totals.(entrances := Total(t.total + (if p.countTotal then 1 else 0), t.undiscovered + 1)))])
  }

  /** Every listed scene is a scene of the payload. */
  predicate Covers<E>(s: Save<E>, listing: seq<(string, string)>) {
    forall i :: 0 <= i < |listing| ==> listing[i].0 in s.scenes
  }

  function SweepAll<E>(s: Save<E>, p: Policy<E>, listing: seq<(string, string)>, observed: set<string>): (r: Save<E>)
    requires Covers(s, listing)
    ensures r.scenes.Keys == s.scenes.Keys
    ensures r.debug == s.debug && r.current == s.current && r.codes == s.codes
    ensures r.totals.checks == s.totals.checks && r.totals.entrances.total == s.totals.entrances.total
  {
    if listing == [] then s
    else
      var init, last := listing[..|listing| - 1], listing[|listing| - 1];
      var r := SweepAll(s, p, init, observed);
      if Pending(p, observed, last.1) then MarkUnseen(r, p, last.0, last.1) else r
  }

  /** How many listed doors of `scene` the sweep acts on. */
  function PendingIn<E>(p: Policy<E>, observed: set<string>, listing: seq<(string, string)>, scene: string): nat {
    if listing == [] then 0
    else
      var last := listing[|listing| - 1];
      PendingIn(p, observed, listing[..|listing| - 1], scene)
        + if last.0 == scene && Pending(p, observed, last.1) then 1 else 0
  }

  /** How many listed doors the sweep acts on. */
  function PendingAll<E>(p: Policy<E>, observed: set<string>, listing: seq<(string, string)>): nat {
    if listing == [] then 0
    else
      PendingAll(p, observed, listing[..|listing| - 1])
        + if Pending(p, observed, listing[|listing| - 1].1) then 1 else 0
  }

  /**
   * The counters after the sweep: each scene's undiscovered count rises by
   * its pending doors, its total too when the policy counts them, and the
   * global undiscovered count by all pending doors. Check counters and the
   * global entrance total stay.
   */
  lemma {:induction false} SweepCounts<E>(s: Save<E>, p: Policy<E>, listing: seq<(string, string)>, observed: set<string>, scene: string)
    requires Covers(s, listing) && scene in s.scenes
    ensures var r, n := SweepAll(s, p, listing, observed), PendingIn(p, observed, listing, scene);
      && r.totals.entrances.undiscovered == s.totals.entrances.undiscovered + PendingAll(p, observed, listing)
      && r.scenes[scene].totals.entrances.undiscovered == s.scenes[scene].totals.entrances.undiscovered + n
      && r.scenes[scene].totals.entrances.total == s.scenes[scene].totals.entrances.total + (if p.countTotal then n else 0)
      && r.scenes[scene].totals.checks == s.scenes[scene].totals.checks
      && r.scenes[scene].checks == s.scenes[scene].checks
  {
    if listing != [] {
      SweepCounts(s, p, listing[..|listing| - 1], observed, scene);
    }
  }

  /**
   * The entrances after the sweep: a door of `scene` that the sweep acts on
   * holds the blank record, and every other key of the scene is as before.
   */
  lemma {:induction false} SweepEntrances<E>(s: Save<E>, p: Policy<E>, listing: seq<(string, string)>, observed: set<string>, scene: string, door: string)
    requires Covers(s, listing) && scene in s.scenes
    ensures var r := SweepAll(s, p, listing, observed).scenes[scene].entrances;
      if (scene, door) in listing && Pending(p, observed, door) then door in r && r[door] == p.blank
      else (door in r <==> door in s.scenes[scene].entrances)
           && (door in r ==> r[door] == s.scenes[scene].entrances[door])
  {
    if listing != [] {
      var init := listing[..|listing| - 1];
      SweepEntrances(s, p, init, observed, scene, door);
      assert listing == init + [listing[|listing| - 1]];
    }
  }

  /** When every swept door is counted in its scene, no scene has more undiscovered entrances than entrances. */
  lemma {:induction false} SweepBounded<E>(s: Save<E>, p: Policy<E>, listing: seq<(string, string)>, observed: set<string>)
    requires Covers(s, listing) && p.countTotal && EntrancesBounded(s)
    ensures EntrancesBounded(SweepAll(s, p, listing, observed))
  {
    if listing != [] {
      SweepBounded(s, p, listing[..|listing| - 1], observed);
    }
  }

  /** The sweep of the world's whole door list. */
  function Swept<E>(w: World, p: Policy<E>, s: Save<E>, observed: set<string>): (r: Save<E>)
    requires Consistent(w) && s.scenes.Keys == SceneSet(w)
    ensures r.scenes.Keys == SceneSet(w)
    ensures r.debug == s.debug && r.current == s.current && r.codes == s.codes
  {
    ListingCovered(w, s);
    SweepAll(s, p, Listing(w.allDoors), observed)
  }

  /** The world's door list lies inside the payload's scenes. */
  lemma ListingCovered<E>(w: World, s: Save<E>)
    requires Consistent(w) && s.scenes.Keys == SceneSet(w)
    ensures Covers(s, Listing(w.allDoors))
  {
  }
}

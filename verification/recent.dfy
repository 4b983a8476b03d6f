/**
 * Which save file the parsers read (`mostRecentSave`): of the directory's
 * entries, in the order the directory listing gives them, the ".tunic" file
 * modified last. The comparison is strict and starts from Go's zero time,
 * so of several files sharing the newest time the first listed is kept.
 */
module Recent {
  import opened Text

  /** A directory entry: its name and its modification time, 0 standing for Go's zero time. */
  datatype Entry = Entry(name: string, mtime: int)

  const Extension: string := ".tunic"

  predicate IsSave(e: Entry) {
    HasSuffix(e.name, Extension)
  }

  /**
   * Entry `i` is the pick among the first `n` entries: a save modified after
   * the zero time, strictly newer than every save listed before it and no
   * older than any save listed after it.
   */
  predicate PickedAmong(files: seq<Entry>, n: nat, i: nat)
    requires n <= |files|
  {
    && i < n && IsSave(files[i]) && files[i].mtime > 0
    && (forall j :: 0 <= j < i && IsSave(files[j]) ==> files[j].mtime < files[i].mtime)
    && (forall j :: i < j < n && IsSave(files[j]) ==> files[j].mtime <= files[i].mtime)
  }

  /** No save among the first `n` entries was modified after the zero time. */
  predicate NoneAmong(files: seq<Entry>, n: nat)
    requires n <= |files|
  {
    forall j :: 0 <= j < n && IsSave(files[j]) ==> files[j].mtime <= 0
  }

  /**
   * The name of the save to read: the picked entry's name, or "" when no
   * save qualifies. A save's name ends in ".tunic" and so is never "".
   */
  method MostRecentSave(files: seq<Entry>) returns (name: string)
    ensures name == "" <==> NoneAmong(files, |files|)
    ensures name != "" ==> exists i: nat :: PickedAmong(files, |files|, i) && files[i].name == name
  {
    name := "";
    var mod := 0;
    ghost var picked := 0;
    var k := 0;
    while k < |files|
      invariant k <= |files|
      invariant name == "" ==> mod == 0 && NoneAmong(files, k)
      invariant name != "" ==> PickedAmong(files, k, picked) && name == files[picked].name && mod == files[picked].mtime
    {
      var f := files[k];
      if IsSave(f) && f.mtime > mod {
        name, mod, picked := f.name, f.mtime, k;
      }
      k := k + 1;
    }
  }

  /** The pick is unique: the first of the newest saves, whatever follows it. */
  lemma PickUnique(files: seq<Entry>, i: nat, j: nat)
    requires PickedAmong(files, |files|, i) && PickedAmong(files, |files|, j)
    ensures i == j
  {
  }

  /** A save is picked exactly when some save is newer than the zero time. */
  lemma {:induction false} PickExists(files: seq<Entry>, n: nat)
    requires n <= |files|
    ensures !NoneAmong(files, n) <==> exists i: nat :: PickedAmong(files, n, i)
  {
    if n > 0 {
      PickExists(files, n - 1);
      var f := files[n - 1];
      if !NoneAmong(files, n - 1) {
        var i: nat :| PickedAmong(files, n - 1, i);
        if IsSave(f) && f.mtime > files[i].mtime {
          assert PickedAmong(files, n, n - 1);
        } else {
          assert PickedAmong(files, n, i);
        }
      } else if IsSave(f) && f.mtime > 0 {
        assert PickedAmong(files, n, n - 1);
      }
    }
  }
}

/**
 Rotating backup slots (sandbox/lib/db.ts, `rotateBackupSlots` and `runBackup`).

 `files` is the backup directory: the newest snapshot, its numbered slots and the temporary file.
*/
module BackupSlots {
  import opened Wrappers

  datatype Name = Dest | Slot(i: nat) | Tmp
  type Content = string
  type Files = map<Name, Content>

  function Lookup(f: Files, x: Name): Option<Content> { if x in f then Some(f[x]) else None }

  /** Where rotation leaves each name: slot i gets what slot i-1 held, and slot 0 is free. */
  function RotatedAt(f: Files, slots: int, x: Name): Option<Content> {
    if x.Slot? && 0 < x.i < slots && Slot(x.i - 1) in f then Some(f[Slot(x.i - 1)])
    else if x == Slot(0) && slots > 1 then None
    else if x.Slot? && 0 < x.i < slots - 1 then None
    else Lookup(f, x)
  }

  function Rotated(f: Files, slots: int): Files {
    map x | x in f.Keys + (set i: nat | i < slots :: Slot(i)) && RotatedAt(f, slots, x).Some?
      :: RotatedAt(f, slots, x).value
  }

  lemma RotatedLookup(f: Files, slots: int, x: Name)
    ensures Lookup(Rotated(f, slots), x) == RotatedAt(f, slots, x)
  {
  }

  /** A successful backup: rotate, put the snapshot in place and copy it to slot 0. */
  function BackedUp(f: Files, slots: int, c: Content): Files {
    Rotated(f - {Tmp}, slots)[Dest := c][Slot(0) := c]
  }

  function BackedUpAll(f: Files, slots: int, cs: seq<Content>): Files {
    if cs == [] then f else BackedUp(BackedUpAll(f, slots, cs[..|cs| - 1]), slots, cs[|cs| - 1])
  }

  /** After any backups, the newest is `Dest` and slot i holds the i-th newest, as far as there are slots. */
  lemma {:induction false} SlotsHoldTheNewest(f: Files, slots: int, cs: seq<Content>, i: nat)
    requires i < |cs| && (i < slots || i == 0)
    ensures Lookup(BackedUpAll(f, slots, cs), Slot(i)) == Some(cs[|cs| - 1 - i])
    ensures Lookup(BackedUpAll(f, slots, cs), Dest) == Some(cs[|cs| - 1])
    decreases |cs|
  {
    hide Rotated;
    var init := cs[..|cs| - 1];
    if i > 0 {
      SlotsHoldTheNewest(f, slots, init, i - 1);
      var g := BackedUpAll(f, slots, init);
      assert Lookup(g - {Tmp}, Slot(i - 1)) == Lookup(g, Slot(i - 1));
      RotatedLookup(g - {Tmp}, slots, Slot(i));
    }
  }

  /** A rotation forgets one snapshot only: what the last slot held, when every slot is full. */
  lemma RotationDropsOnlyTheLast(f: Files, slots: int, x: Name)
    requires x in f && (x.Slot? ==> x.i != slots - 1)
    ensures exists y :: Lookup(Rotated(f, slots), y) == Some(f[x])
  {
    var y := if x.Slot? && x.i < slots - 1 then Slot(x.i + 1) else x;
    RotatedLookup(f, slots, y);
    assert Lookup(Rotated(f, slots), y) == Some(f[x]);
  }

  class Directory {
    var files: Files

    constructor (f: Files)
      ensures files == f
    {
      files := f;
    }

    method Rename(from: Name, to: Name)
      requires from in files && from != to
      modifies this
      ensures files == (old(files) - {from})[to := old(files)[from]]
    {
      var c := files[from];
      files := (files - {from})[to := c];
    }

    /** The downward loop: the oldest slot goes first, so no snapshot is overwritten before it moved. */
    method RotateBackupSlots(slots: int)
      modifies this
      ensures files == Rotated(old(files), slots)
    {
      var i := slots - 1;
      while i >= 1
        invariant i <= slots - 1 && (slots > 1 ==> i >= 0)
        invariant forall x :: Lookup(files, x) == Partly(old(files), slots, i, x)
        decreases i
      {
        var older, newer := Slot(i), Slot(i - 1);
        ghost var before := files;
        assert Lookup(before, newer) == Lookup(old(files), newer);
        if newer in files {
          files := files - {older};
          Rename(newer, older);
        }
        forall x ensures Lookup(files, x) == Partly(old(files), slots, i - 1, x) {
          assert Lookup(before, x) == Partly(old(files), slots, i, x);
          assert Lookup(files, x) == if newer !in before then Lookup(before, x)
            else if x == older then Lookup(before, newer) else if x == newer then None else Lookup(before, x);
        }
        i := i - 1;
      }
      forall x ensures Lookup(files, x) == Lookup(Rotated(old(files), slots), x) {
        RotatedLookup(old(files), slots, x);
      }
      assert forall x :: x in files <==> Lookup(files, x).Some?;
      assert forall x :: x in Rotated(old(files), slots) <==> Lookup(Rotated(old(files), slots), x).Some?;
    }

    /** `snapshot` is what was copied; `verified` whether it passed its integrity check. */
    method RunBackup(slots: int, snapshot: Content, verified: bool) returns (ok: bool)
      modifies this
      ensures ok == verified
      ensures ok ==> files == BackedUp(old(files), slots, snapshot)
      ensures !ok ==> files == old(files) - {Tmp}
    {
      files := files - {Tmp};
      files := files[Tmp := snapshot];
      if !verified {
        files := files - {Tmp};
        assert files == old(files) - {Tmp};
        return false;
      }
      ghost var before := old(files) - {Tmp};
      RotateBackupSlots(slots);
      forall x ensures Lookup(files, x) == if x == Tmp then Some(snapshot) else RotatedAt(before, slots, x) {
        RotatedLookup(before[Tmp := snapshot], slots, x);
      }
      Rename(Tmp, Dest);
      files := files[Slot(0) := files[Dest]];
      forall x ensures Lookup(files, x) == Lookup(BackedUp(old(files), slots, snapshot), x) {
        RotatedLookup(before, slots, x);
      }
      assert forall x :: x in files <==> Lookup(files, x).Some?;
      assert forall x ::
          x in BackedUp(old(files), slots, snapshot) <==> Lookup(BackedUp(old(files), slots, snapshot), x).Some?;
      return true;
    }
  }

  /** The directory when the loop has yet to fill slots 1 to `i`. */
  function Partly(f: Files, slots: int, i: int, x: Name): Option<Content> {
    if !x.Slot? || x.i < i || x.i >= slots then Lookup(f, x)
    else if x.i == i then (if i < slots - 1 then None else Lookup(f, x))
    else RotatedAt(f, slots, x)
  }
}

/**
 Promotion of a run's outputs to the `latest` files
 (`_promote_latest_set` and `_restore_latest_promotions` in src/open_trader/daily_premarket.py).

 Every file operation may fail. A failed promotion restores what it replaced, with
 operations that may fail in turn and whose failures are swallowed.
*/
module Promotion {
  import opened Prelude

  /** `Scratch` names are the unique temporary and backup names of `NamedTemporaryFile`. */
  datatype Path = Source(id: string) | Latest(name: string) | Scratch(n: nat)

  type Content = string
  type Files = map<Path, Content>

  datatype Promotion = Promotion(
    source: Path, latest: Path, temp: Option<Path>, backup: Option<Path>, replaced: bool)

  /** The two file maps agree about `p`: same content, or absent from both. */
  predicate Same(files: Files, orig: Files, p: Path) {
    (p in files <==> p in orig) && (p in files ==> files[p] == orig[p])
  }

  /** The original content of `p` survives under a name that did not exist before. */
  ghost predicate Survives(files: Files, orig: Files, p: Path)
    requires p in orig
  {
    exists b :: b in files && b !in orig && files[b] == orig[p]
  }

  predicate IsUnused(orig: Files, o: Option<Path>) {
    o.Some? ==> o.value.Scratch? && o.value !in orig
  }

  predicate HasBackup(files: Files, p: Promotion) {
    p.backup.Some? && p.backup.value in files
  }

  /** Everything needed to undo `p`: a backup of the original, or nothing replaced, or nothing there before. */
  predicate Undoable(files: Files, orig: Files, p: Promotion) {
    && IsUnused(orig, p.backup)
    && (HasBackup(files, p) ==> p.latest in orig && files[p.backup.value] == orig[p.latest])
    && (!HasBackup(files, p) ==> if p.replaced then p.latest !in orig else Same(files, orig, p.latest))
  }

  predicate Staged(files: Files, orig: Files, p: Promotion) {
    && p.temp.Some? && IsUnused(orig, p.temp) && p.temp.value in files
    && p.source in orig && files[p.temp.value] == orig[p.source]
    && p.backup.None? && !p.replaced && Same(files, orig, p.latest)
  }

  predicate Done(files: Files, orig: Files, p: Promotion) {
    && Undoable(files, orig, p) && p.temp.None? && p.replaced
    && p.source in orig && p.latest in files && files[p.latest] == orig[p.source]
  }

  /** Different promotions touch different paths. */
  predicate Separate(p: Promotion, q: Promotion) {
    && p.latest != q.latest
    && (p.temp.Some? ==> p.temp != q.temp && p.temp != q.backup && p.temp != Some(q.latest))
    && (p.backup.Some? ==> p.backup != q.backup && p.backup != q.temp && p.backup != Some(q.latest))
  }

  predicate AllSeparate(ps: seq<Promotion>) {
    && (forall i, j :: 0 <= i < |ps| && 0 <= j < |ps| && i != j ==> Separate(ps[i], ps[j]))
    && (forall i :: 0 <= i < |ps| ==> ps[i].latest.Latest? && (ps[i].temp.Some? ==> ps[i].temp != ps[i].backup))
  }

  predicate ScratchBelow(ps: seq<Promotion>, n: nat) {
    forall i :: 0 <= i < |ps| ==>
      && (ps[i].temp.Some? ==> ps[i].temp.value.Scratch? && ps[i].temp.value.n < n)
      && (ps[i].backup.Some? ==> ps[i].backup.value.Scratch? && ps[i].backup.value.n < n)
  }

  predicate Targets(ps: seq<Promotion>, targets: set<Path>) {
    forall i :: 0 <= i < |ps| ==> ps[i].latest in targets
  }

  /** Files that are no promotion's target keep their content. */
  ghost predicate OthersKept(files: Files, orig: Files, targets: set<Path>) {
    forall p :: p in orig && p !in targets ==> p in files && files[p] == orig[p]
  }

  ghost predicate Untouched(files: Files, before: Files, p: Promotion) {
    && Same(files, before, p.latest)
    && (p.backup.Some? ==> Same(files, before, p.backup.value))
    && (p.temp.Some? ==> Same(files, before, p.temp.value))
  }

  /** Only the paths of `p` differ between the two file maps. */
  ghost predicate OnlyTouches(files: Files, before: Files, p: Promotion) {
    forall x :: x != p.latest && Some(x) != p.backup && Some(x) != p.temp ==> Same(files, before, x)
  }

  lemma {:induction false} SeparateIsUntouched(files: Files, before: Files, p: Promotion, q: Promotion)
    requires OnlyTouches(files, before, p) && Separate(p, q) && Separate(q, p)
    ensures Untouched(files, before, q)
  {
  }

  lemma {:induction false} OthersStayKept(files: Files, before: Files, orig: Files, targets: set<Path>, p: Promotion)
    requires OthersKept(before, orig, targets) && OnlyTouches(files, before, p) && p.latest in targets
    requires IsUnused(orig, p.backup) && IsUnused(orig, p.temp)
    ensures OthersKept(files, orig, targets)
  {
    forall x | x in orig && x !in targets ensures x in files && files[x] == orig[x] {
      assert Same(files, before, x);
    }
  }

  /** Giving one promotion a new scratch name keeps all of them separate. */
  lemma {:induction false} UpdateSeparate(ps: seq<Promotion>, i: nat, q: Promotion, n: nat)
    requires AllSeparate(ps) && ScratchBelow(ps, n) && i < |ps| && q.latest == ps[i].latest
    requires q.temp in {ps[i].temp, None, Some(Scratch(n))} && q.backup in {ps[i].backup, Some(Scratch(n))}
    requires q.temp.Some? ==> q.temp != q.backup
    ensures AllSeparate(ps[i := q]) && ScratchBelow(ps[i := q], n + 1)
  {
    var qs := ps[i := q];
    forall j | 0 <= j < |ps| && j != i ensures Separate(q, qs[j]) && Separate(qs[j], q) {
      assert Separate(ps[i], ps[j]) && Separate(ps[j], ps[i]);
    }
    forall j, k | 0 <= j < |qs| && 0 <= k < |qs| && j != k ensures Separate(qs[j], qs[k]) {
      if j != i && k != i { assert Separate(ps[j], ps[k]); }
    }
  }

  /** The first `i` promotions are done and the others staged. */
  ghost predicate Halfway(files: Files, orig: Files, ps: seq<Promotion>, i: nat) {
    && (forall k :: 0 <= k < i <= |ps| ==> Done(files, orig, ps[k]))
    && (forall k :: 0 <= i <= k < |ps| ==> Staged(files, orig, ps[k]))
  }

  /** Everything can be undone. */
  ghost predicate Reversible(files: Files, orig: Files, ps: seq<Promotion>) {
    forall k :: 0 <= k < |ps| ==> Undoable(files, orig, ps[k]) && IsUnused(orig, ps[k].temp)
  }

  lemma {:induction false} KeptByOthers(files: Files, before: Files, orig: Files, p: Promotion)
    requires Untouched(files, before, p)
    ensures Done(before, orig, p) ==> Done(files, orig, p)
    ensures Staged(before, orig, p) ==> Staged(files, orig, p)
  {
  }

  lemma {:induction false} OthersUntouched(files: Files, before: Files, ps: seq<Promotion>, i: nat, n: nat)
    requires AllSeparate(ps) && ScratchBelow(ps, n) && i < |ps|
    requires OnlyTouches(files, before, ps[i].(backup := Some(Scratch(n))))
    ensures forall k :: 0 <= k < |ps| && k != i ==> Untouched(files, before, ps[k])
  {
    forall k | 0 <= k < |ps| && k != i ensures Untouched(files, before, ps[k]) {
      assert Separate(ps[i], ps[k]) && Separate(ps[k], ps[i]);
      SeparateIsUntouched(files, before, ps[i].(backup := Some(Scratch(n))), ps[k]);
    }
  }

  /** One more replacement, successful or not, in the middle of a promotion. */
  lemma {:induction false} HalfwayStep(files: Files, before: Files, orig: Files, ps: seq<Promotion>, i: nat,
        q: Promotion, n: nat)
    requires Halfway(before, orig, ps, i) && AllSeparate(ps) && ScratchBelow(ps, n) && i < |ps|
    requires OnlyTouches(files, before, ps[i].(backup := Some(Scratch(n))))
    requires q.temp in {ps[i].temp, None} && Undoable(files, orig, q)
    ensures Reversible(files, orig, ps[i := q])
    ensures Done(files, orig, q) ==> Halfway(files, orig, ps[i := q], i + 1)
  {
    OthersUntouched(files, before, ps, i, n);
    forall k | 0 <= k < |ps| && k != i
      ensures if k < i then Done(files, orig, ps[k]) else Staged(files, orig, ps[k])
    {
      KeptByOthers(files, before, orig, ps[k]);
    }
  }

  /** A promotion after `_restore_latest_promotions` has handled it. */
  ghost predicate Settled(files: Files, orig: Files, p: Promotion, stuck: set<Path>) {
    || Same(files, orig, p.latest)
    || (p.latest in stuck && (p.latest in orig ==>
         HasBackup(files, p) && IsUnused(orig, p.backup) && files[p.backup.value] == orig[p.latest]))
  }

  lemma {:induction false} NotATemp(ps: seq<Promotion>, i: nat)
    requires AllSeparate(ps) && i < |ps|
    requires forall k :: 0 <= k < |ps| && ps[k].temp.Some? ==> ps[k].temp.value.Scratch?
    ensures forall k :: 0 <= k < |ps| ==> ps[k].temp != Some(ps[i].latest)
    ensures ps[i].backup.Some? ==> forall k :: 0 <= k < |ps| ==> ps[k].temp != ps[i].backup
  {
    forall k | 0 <= k < |ps| && k != i ensures Separate(ps[k], ps[i]) {}
  }

  lemma {:induction false} KeptByDiscard(files: Files, before: Files, orig: Files, ps: seq<Promotion>,
        targets: set<Path>)
    requires forall i :: 0 <= i < |ps| ==> IsUnused(orig, ps[i].temp) && IsUnused(orig, ps[i].backup)
    requires OthersKept(before, orig, targets)
    requires forall x :: (forall i :: 0 <= i < |ps| ==> ps[i].temp != Some(x) && ps[i].backup != Some(x)) ==>
      Same(files, before, x)
    ensures OthersKept(files, orig, targets)
  {
    forall p | p in orig && p !in targets ensures p in files && files[p] == orig[p] {
      assert forall k :: 0 <= k < |ps| ==> ps[k].temp != Some(p) && ps[k].backup != Some(p);
      assert Same(files, before, p);
    }
  }

  predicate PathOf(p: Promotion, x: Path) {
    x == p.latest || Some(x) == p.temp || Some(x) == p.backup
  }

  predicate PathOfAny(ps: seq<Promotion>, x: Path) {
    exists k :: 0 <= k < |ps| && PathOf(ps[k], x)
  }

  /** Every file that is new since `orig` belongs to a promotion, except the junk of a failed copy or backup name. */
  ghost predicate Known(files: Files, orig: Files, ps: seq<Promotion>, junk: set<Path>) {
    forall x :: x in files && x !in orig && x !in junk ==> PathOfAny(ps, x)
  }

  /** The paths of `q` cover the new files, except the junk, and what is left of the old paths of `p`. */
  ghost predicate Covered(files: Files, before: Files, p: Promotion, q: Promotion, junk: set<Path>) {
    forall x :: x in files && x !in junk && (x !in before || PathOf(p, x)) ==> PathOf(q, x)
  }

  lemma {:induction false} KnownStep(files: Files, before: Files, orig: Files, ps: seq<Promotion>, i: nat, q: Promotion,
        junk: set<Path>)
    requires i < |ps| && Known(before, orig, ps, {})
    requires Covered(files, before, ps[i], q, junk)
    ensures Known(files, orig, ps[i := q], junk)
  {
    var qs := ps[i := q];
    forall x | x in files && x !in orig && x !in junk ensures PathOfAny(qs, x) {
      if x in before && !PathOf(ps[i], x) {
        var k :| 0 <= k < |ps| && PathOf(ps[k], x);
        assert qs[k] == ps[k];
      } else {
        assert PathOf(qs[i], x);
      }
    }
  }

  lemma {:induction false} StagedKnown(before: Files, orig: Files, ps: seq<Promotion>, i: nat, temp: Path, c: Content)
    requires i < |ps| && ps[i].temp.None? && Known(before, orig, ps, {})
    ensures Known(before[temp := c], orig, ps[i := ps[i].(temp := Some(temp))], {})
  {
    KnownStep(before[temp := c], before, orig, ps, i, ps[i].(temp := Some(temp)), {});
  }

  /** When no scratch name of a promotion is left, the new files are targets and junk. */
  lemma {:induction false} OnlyTargetsLeft(files: Files, before: Files, orig: Files, ps: seq<Promotion>,
        targets: set<Path>, junk: set<Path>)
    requires Known(before, orig, ps, junk) && Targets(ps, targets)
    requires forall x :: x in files ==> x in before || x in targets
    requires forall k :: 0 <= k < |ps| ==> !HasBackup(files, ps[k]) && !HasTemp(files, ps[k])
    ensures forall x :: x in files ==> x in orig || x in targets || x in junk
  {
    forall x | x in files ensures x in orig || x in targets || x in junk {
      if x in before && x !in orig && x !in junk {
        var k :| 0 <= k < |ps| && PathOf(ps[k], x);
        assert ps[k].latest in targets;
      }
    }
  }

  predicate HasTemp(files: Files, p: Promotion) {
    p.temp.Some? && p.temp.value in files
  }

  function TargetsOf(jobs: seq<(Path, Path)>): set<Path> {
    set i | 0 <= i < |jobs| :: jobs[i].1
  }

  predicate SameJobs(ps: seq<Promotion>, qs: seq<Promotion>) {
    |qs| == |ps| && forall k :: 0 <= k < |qs| ==> qs[k].source == ps[k].source && qs[k].latest == ps[k].latest
  }

  /** One turn of the replacement loop. */
  lemma {:induction false} ReplaceStep(files: Files, before: Files, orig: Files, ps: seq<Promotion>, i: nat,
        q: Promotion, n: nat, targets: set<Path>, junk: set<Path>)
    requires Halfway(before, orig, ps, i) && AllSeparate(ps) && ScratchBelow(ps, n) && i < |ps| && Scratch(n) !in orig
    requires OnlyTouches(files, before, ps[i].(backup := Some(Scratch(n)))) && Covered(files, before, ps[i], q, junk)
    requires q.latest == ps[i].latest && q.temp in {ps[i].temp, None} && q.backup in {ps[i].backup, Some(Scratch(n))}
    requires Undoable(files, orig, q) && ps[i].latest in targets && OthersKept(before, orig, targets)
      && Known(before, orig, ps, {})
    ensures q.backup != Some(Scratch(n)) ==> ScratchBelow(ps[i := q], n)
    ensures AllSeparate(ps[i := q]) && ScratchBelow(ps[i := q], n + 1) && Reversible(files, orig, ps[i := q])
    ensures OthersKept(files, orig, targets) && Known(files, orig, ps[i := q], junk)
    ensures Done(files, orig, q) ==> Halfway(files, orig, ps[i := q], i + 1)
  {
    assert Staged(before, orig, ps[i]);
    HalfwayStep(files, before, orig, ps, i, q, n);
    KnownStep(files, before, orig, ps, i, q, junk);
    UpdateSeparate(ps, i, q, n);
    OthersStayKept(files, before, orig, targets, ps[i].(backup := Some(Scratch(n))));
  }

  class Directory {
    var files: Files
    var nextScratch: nat

    ghost predicate Valid()
      reads this
    {
      forall n: nat :: n >= nextScratch ==> Scratch(n) !in files
    }

    constructor (files: Files, nextScratch: nat)
      requires forall n: nat :: n >= nextScratch ==> Scratch(n) !in files
      ensures Valid() && this.files == files
    {
      this.files, this.nextScratch := files, nextScratch;
    }

    // -------------------------------------------------------------- fallible file operations

    method NewScratch() returns (p: Path)
      requires Valid()
      modifies this
      ensures Valid() && files == old(files) && p == Scratch(old(nextScratch)) && nextScratch == old(nextScratch) + 1
      ensures p !in files
    {
      p := Scratch(nextScratch);
      nextScratch := nextScratch + 1;
    }

    /** A failed copy may leave its partial temporary file behind. */
    method CopyTemp(source: Path, mayFail: bool) returns (temp: Option<Path>)
      requires Valid()
      modifies this
      ensures Valid() && nextScratch == old(nextScratch) + 1
      ensures temp.Some? ==>
        source in old(files) && temp.value == Scratch(old(nextScratch))
        && files == old(files)[temp.value := old(files)[source]]
      ensures temp.None? ==> files - {Scratch(old(nextScratch))} == old(files)
      ensures !mayFail && source in old(files) ==> temp.Some?
    {
      var p := NewScratch();
      var created, copied: bool := *, *;
      if mayFail && !created { return None; }
      if (mayFail && !copied) || source !in files {
        var junk: Content := *;
        files := files[p := junk];
        return None;
      }
      files := files[p := files[source]];
      temp := Some(p);
    }

    /** A new name is made by creating a file and removing it again; a failure may leave the file. */
    method NameBackup(mayFail: bool) returns (backup: Option<Path>)
      requires Valid()
      modifies this
      ensures Valid() && nextScratch == old(nextScratch) + 1
      ensures backup.Some? ==> backup.value == Scratch(old(nextScratch)) && files == old(files)
      ensures backup.None? ==> mayFail && files - {Scratch(old(nextScratch))} == old(files)
    {
      var p := NewScratch();
      var created, removed: bool := *, *;
      if mayFail && !created { return None; }
      files := files[p := ""];
      if mayFail && !removed { return None; }
      files := files - {p};
      backup := Some(p);
    }

    method Rename(from: Path, to: Path, mayFail: bool := true) returns (ok: bool)
      requires Valid() && (to.Scratch? ==> to.n < nextScratch)
      modifies this`files
      ensures Valid()
      ensures ok ==> from in old(files) && files == (old(files) - {from})[to := old(files)[from]]
      ensures !ok ==> files == old(files)
      ensures !mayFail && from in old(files) ==> ok
    {
      ok := *;
      ok := (ok || !mayFail) && from in files;
      if ok {
        var c := files[from];
        files := (files - {from})[to := c];
      }
    }

    method Unlink(p: Path, mayFail: bool := true) returns (ok: bool)
      requires Valid()
      modifies this`files
      ensures Valid()
      ensures files == if ok then old(files) - {p} else old(files)
      ensures !mayFail ==> ok
    {
      ok := *;
      ok := ok || !mayFail;
      if ok { files := files - {p}; }
    }

    // -------------------------------------------------------------- promotion

    /** Moves the old file out of the way and the staged one into place. */
    method ReplaceOne(ghost orig: Files, p: Promotion, mayFail: bool)
        returns (ok: bool, q: Promotion, ghost junk: set<Path>)
      requires Valid() && Staged(files, orig, p) && p.latest.Latest?
      requires forall n: nat :: n >= nextScratch ==> Scratch(n) !in orig
      requires p.temp.value.n < nextScratch
      modifies this
      ensures Valid() && old(nextScratch) <= nextScratch <= old(nextScratch) + 1
      ensures q.source == p.source && q.latest == p.latest
      ensures q.backup.Some? ==> q.backup == Some(Scratch(old(nextScratch))) && nextScratch == old(nextScratch) + 1
      ensures if ok then Done(files, orig, q) else Undoable(files, orig, q)
      ensures q.temp == if ok then None else p.temp
      ensures !mayFail ==> ok
      ensures OnlyTouches(files, old(files), p.(backup := Some(Scratch(old(nextScratch)))))
      ensures Covered(files, old(files), p, q, junk) && |junk| <= 1 && (ok ==> junk == {})
    {
      q, junk := p, {};
      if q.latest in files {
        var b := NameBackup(mayFail);
        if b.None? { return false, q, {Scratch(old(nextScratch))}; }
        q := q.(backup := b);
        var moved := Rename(q.latest, b.value, mayFail);
        if !moved { return false, q, {}; }
      }
      ok := Rename(q.temp.value, q.latest, mayFail);
      if ok { q := q.(replaced := true, temp := None); }
    }

    /** `stuck` are the targets at which the decisive restore operation fails. */
    method UndoOne(ghost orig: Files, p: Promotion, stuck: set<Path>)
      requires Valid() && Undoable(files, orig, p) && p.latest.Latest?
      modifies this`files
      ensures Valid() && Settled(files, orig, p, stuck)
      ensures OnlyTouches(files, old(files), p.(temp := None))
      ensures p.latest !in stuck ==> !HasBackup(files, p)
      ensures forall x :: x in files ==> x in old(files) || x == p.latest
    {
      if HasBackup(files, p) {
        if p.latest in files { var unlinked := Unlink(p.latest); }
        var moved := Rename(p.backup.value, p.latest, p.latest in stuck);
      } else if p.replaced && p.latest in files {
        var unlinked := Unlink(p.latest, p.latest in stuck);
      }
    }

    /** Undoes in reverse order. */
    method Restore(ghost orig: Files, ps: seq<Promotion>, ghost targets: set<Path>, stuck: set<Path>)
      requires Valid() && AllSeparate(ps) && Reversible(files, orig, ps)
      requires Targets(ps, targets) && OthersKept(files, orig, targets)
      modifies this`files
      ensures Valid() && OthersKept(files, orig, targets)
      ensures forall i :: 0 <= i < |ps| ==> Settled(files, orig, ps[i], stuck)
      ensures forall i :: 0 <= i < |ps| && ps[i].latest !in stuck ==> !HasBackup(files, ps[i])
      ensures forall x :: x in files ==> x in old(files) || x in targets
    {
      var i := |ps|;
      while i > 0
        invariant 0 <= i <= |ps| && Valid() && OthersKept(files, orig, targets)
        invariant forall k :: 0 <= k < i ==> Undoable(files, orig, ps[k])
        invariant forall k :: i <= k < |ps| ==> Settled(files, orig, ps[k], stuck)
        invariant forall k :: i <= k < |ps| && ps[k].latest !in stuck ==> !HasBackup(files, ps[k])
        invariant forall x :: x in files ==> x in old(files) || x in targets
      {
        i := i - 1;
        ghost var before := files;
        UndoOne(orig, ps[i], stuck);
        ghost var p := ps[i].(temp := None);
        forall k | 0 <= k < |ps| && k != i ensures Untouched(files, before, ps[k]) {
          assert Separate(ps[i], ps[k]) && Separate(ps[k], ps[i]);
          SeparateIsUntouched(files, before, p, ps[k]);
        }
        OthersStayKept(files, before, orig, targets, p);
      }
    }

    /** Copies every source next to its target. */
    method StageAll(ghost orig: Files, ps: seq<Promotion>, mayFail: bool)
        returns (ok: bool, qs: seq<Promotion>, ghost junk: set<Path>)
      requires Valid() && files == orig && AllSeparate(ps)
      requires forall i :: 0 <= i < |ps| ==>
        ps[i].temp.None? && ps[i].backup.None? && !ps[i].replaced && !ps[i].source.Scratch?
      modifies this
      ensures Valid() && nextScratch >= old(nextScratch) && AllSeparate(qs) && ScratchBelow(qs, nextScratch)
      ensures |qs| == |ps| && forall i :: 0 <= i < |ps| ==>
        qs[i] == ps[i].(temp := qs[i].temp) && IsUnused(orig, qs[i].temp)
      ensures forall x: Path :: !(x.Scratch? && x !in orig) ==> Same(files, orig, x)
      ensures ok ==> forall i :: 0 <= i < |qs| ==> Staged(files, orig, qs[i])
      ensures Known(files, orig, qs, junk) && |junk| <= 1 && (ok ==> junk == {})
      ensures !mayFail && (forall i :: 0 <= i < |ps| ==> ps[i].source in orig) ==> ok
    {
      qs, junk := ps, {};
      for i := 0 to |ps|
        invariant Known(files, orig, qs, {})
        invariant Valid() && nextScratch >= old(nextScratch) && AllSeparate(qs) && ScratchBelow(qs, nextScratch)
        invariant |qs| == |ps| && forall k :: 0 <= k < |ps| ==>
          qs[k] == ps[k].(temp := qs[k].temp) && IsUnused(orig, qs[k].temp)
        invariant forall x: Path :: !(x.Scratch? && x !in orig) ==> Same(files, orig, x)
        invariant forall k :: i <= k < |ps| ==> qs[k].temp.None?
        invariant forall k :: 0 <= k < i ==> qs[k].temp.Some? && qs[k].temp.value in files
        invariant forall k :: 0 <= k < i ==> qs[k].source in orig && files[qs[k].temp.value] == orig[qs[k].source]
      {
        ghost var mark, before := nextScratch, files;
        assert Scratch(mark) !in orig;
        var temp := CopyTemp(qs[i].source, mayFail);
        if temp.None? { return false, qs, {Scratch(mark)}; }
        var q := qs[i].(temp := temp);
        UpdateSeparate(qs, i, q, mark);
        StagedKnown(before, orig, qs, i, temp.value, before[qs[i].source]);
        qs := qs[i := q];
      }
      ok := true;
    }

    /** Best-effort removal of staged copies that were not used. */
    method DiscardTemps(ps: seq<Promotion>, mayFail: bool)
      requires Valid()
      modifies this`files
      ensures Valid() && files.Keys <= old(files.Keys)
      ensures !mayFail ==> forall k :: 0 <= k < |ps| ==> !HasTemp(files, ps[k])
      ensures forall x :: (forall i :: 0 <= i < |ps| ==> ps[i].temp != Some(x)) ==> Same(files, old(files), x)
    {
      for i := 0 to |ps|
        invariant Valid() && files.Keys <= old(files.Keys)
        invariant !mayFail ==> forall k :: 0 <= k < i ==> !HasTemp(files, ps[k])
        invariant forall x :: (forall k :: 0 <= k < |ps| ==> ps[k].temp != Some(x)) ==> Same(files, old(files), x)
      {
        if HasTemp(files, ps[i]) { var unlinked := Unlink(ps[i].temp.value, mayFail); }
      }
    }

    method DiscardBackups(ps: seq<Promotion>, mayFail: bool)
      requires Valid()
      modifies this`files
      ensures Valid() && files.Keys <= old(files.Keys)
      ensures !mayFail ==> forall k :: 0 <= k < |ps| ==> !HasBackup(files, ps[k])
      ensures forall x :: (forall i :: 0 <= i < |ps| ==> ps[i].backup != Some(x)) ==> Same(files, old(files), x)
    {
      for i := 0 to |ps|
        invariant Valid() && files.Keys <= old(files.Keys)
        invariant !mayFail ==> forall k :: 0 <= k < i ==> !HasBackup(files, ps[k])
        invariant forall x :: (forall k :: 0 <= k < |ps| ==> ps[k].backup != Some(x)) ==> Same(files, old(files), x)
      {
        if HasBackup(files, ps[i]) { var unlinked := Unlink(ps[i].backup.value, mayFail); }
      }
    }

    /** Replaces the i-th target, after those before it. */
    method ReplaceNext(ghost orig: Files, ps: seq<Promotion>, i: nat, ghost targets: set<Path>, mayFail: bool)
        returns (ok: bool, qs: seq<Promotion>, ghost junk: set<Path>)
      requires Valid() && i < |ps| && AllSeparate(ps) && ScratchBelow(ps, nextScratch) && Halfway(files, orig, ps, i)
      requires ps[i].latest in targets && OthersKept(files, orig, targets) && Known(files, orig, ps, {})
      requires forall n: nat :: n >= nextScratch ==> Scratch(n) !in orig
      modifies this
      ensures Valid() && nextScratch >= old(nextScratch) && SameJobs(ps, qs) && AllSeparate(qs)
        && ScratchBelow(qs, nextScratch)
      ensures OthersKept(files, orig, targets) && Known(files, orig, qs, junk) && |junk| <= 1
      ensures if ok then Halfway(files, orig, qs, i + 1) && junk == {} else Reversible(files, orig, qs)
      ensures !mayFail ==> ok
    {
      ghost var before, mark := files, nextScratch;
      var q;
      ok, q, junk := ReplaceOne(orig, ps[i], mayFail);
      ReplaceStep(files, before, orig, ps, i, q, mark, targets, junk);
      qs := ps[i := q];
    }

    /** Replaces the targets one by one; on failure everything so far can be undone. */
    method ReplaceAll(ghost orig: Files, ps: seq<Promotion>, ghost targets: set<Path>, mayFail: bool)
        returns (ok: bool, qs: seq<Promotion>, ghost junk: set<Path>)
      requires Valid() && AllSeparate(ps) && ScratchBelow(ps, nextScratch) && Halfway(files, orig, ps, 0)
      requires Targets(ps, targets) && OthersKept(files, orig, targets) && Known(files, orig, ps, {})
      requires forall n: nat :: n >= nextScratch ==> Scratch(n) !in orig
      modifies this
      ensures Valid() && AllSeparate(qs) && Reversible(files, orig, qs) && OthersKept(files, orig, targets)
      ensures SameJobs(ps, qs)
      ensures ok ==> Halfway(files, orig, qs, |qs|)
      ensures Known(files, orig, qs, junk) && |junk| <= 1 && (ok ==> junk == {})
      ensures !mayFail ==> ok
    {
      qs, junk := ps, {};
      for i := 0 to |ps|
        invariant junk == {}
        invariant Valid() && SameJobs(ps, qs) && AllSeparate(qs) && ScratchBelow(qs, nextScratch)
          && nextScratch >= old(nextScratch)
        invariant Halfway(files, orig, qs, i) && OthersKept(files, orig, targets) && Known(files, orig, qs, {})
      {
        ok, qs, junk := ReplaceNext(orig, qs, i, targets, mayFail);
        if !ok { return; }
      }
      ok := true;
    }

    /** Commit or roll back, then remove what is left over. */
    method Settle(ghost orig: Files, ps: seq<Promotion>, ghost targets: set<Path>, stuck: set<Path>, promoted: bool,
          leaves: bool, ghost junk: set<Path>)
      requires Valid() && AllSeparate(ps) && Reversible(files, orig, ps)
      requires Targets(ps, targets) && OthersKept(files, orig, targets)
      requires promoted ==> Halfway(files, orig, ps, |ps|)
      requires Known(files, orig, ps, junk)
      modifies this`files
      ensures Valid() && OthersKept(files, orig, targets)
      ensures promoted ==> forall i :: 0 <= i < |ps| ==>
        ps[i].source in orig && ps[i].latest in files && files[ps[i].latest] == orig[ps[i].source]
      ensures !promoted ==> forall i :: 0 <= i < |ps| ==> Settled(files, orig, ps[i], stuck)
      ensures !leaves && (promoted || stuck == {}) ==> forall x :: x in files ==> x in orig || x in targets || x in junk
    {
      ghost var before := files;
      if promoted {
        ghost var replaced := files;
        DiscardBackups(ps, leaves);
        KeptByDiscard(files, replaced, orig, ps, targets);
        forall i | 0 <= i < |ps| ensures Same(files, replaced, ps[i].latest) {
          assert forall k :: 0 <= k < |ps| ==> ps[k].backup != Some(ps[i].latest);
        }
      } else {
        Restore(orig, ps, targets, stuck);
      }
      ghost var settled := files;
      DiscardTemps(ps, leaves);
      forall i | 0 <= i < |ps| ensures Untouched(files, settled, ps[i].(temp := None)) {
        NotATemp(ps, i);
      }
      KeptByDiscard(files, settled, orig, ps, targets);
      if !leaves && (promoted || stuck == {}) { OnlyTargetsLeft(files, before, orig, ps, targets, junk); }
    }

    /**
     The whole promotion: stage, replace, and restore on failure. With `mayFail` any operation
     may fail at any point; `stuck` are the targets whose restore operation fails,
     and with `leaves` the best-effort removals may fail.
    */
    method PromoteLatestSet(jobs: seq<(Path, Path)>, mayFail: bool, stuck: set<Path>, leaves: bool)
        returns (ok: bool, ghost junk: set<Path>)
      requires Valid()
      requires forall i :: 0 <= i < |jobs| ==> !jobs[i].0.Scratch? && jobs[i].1.Latest?
      requires forall i, j :: 0 <= i < j < |jobs| ==> jobs[i].1 != jobs[j].1
      modifies this
      ensures Valid()
      // All: every target holds what its source held.
      ensures ok ==> forall i :: 0 <= i < |jobs| ==>
        jobs[i].0 in old(files) && jobs[i].1 in files && files[jobs[i].1] == old(files)[jobs[i].0]
      ensures !mayFail && (forall i :: 0 <= i < |jobs| ==> jobs[i].0 in old(files)) ==> ok
      // Or nothing: every target is as it was, unless its own restore operation failed.
      ensures !ok ==> forall i :: 0 <= i < |jobs| && jobs[i].1 !in stuck ==> Same(files, old(files), jobs[i].1)
      // Even then the replaced content is not lost.
      ensures !ok ==> forall i :: 0 <= i < |jobs| && jobs[i].1 in old(files) ==>
        Same(files, old(files), jobs[i].1) || Survives(files, old(files), jobs[i].1)
      // If the clean-up works, the new files are the targets and, after a failure, one partial copy or backup name.
      ensures |junk| <= 1 && (ok ==> junk == {})
      ensures !leaves && (ok || stuck == {}) ==> forall x :: x in files ==>
        x in old(files) || x in TargetsOf(jobs) || x in junk
      // Nothing else that existed is changed.
      ensures OthersKept(files, old(files), TargetsOf(jobs))
    {
      ghost var orig := files;
      ghost var targets := TargetsOf(jobs);
      var ps := seq(|jobs|, i requires 0 <= i < |jobs| => Promotion(jobs[i].0, jobs[i].1, None, None, false));
      ok, ps, junk := StageAll(orig, ps, mayFail);
      if ok {
        ok, ps, junk := ReplaceAll(orig, ps, targets, mayFail);
      }
      Settle(orig, ps, targets, stuck, ok, leaves, junk);
      forall i | 0 <= i < |jobs| ensures ps[i].source == jobs[i].0 && ps[i].latest == jobs[i].1 {}
    }
  }
}

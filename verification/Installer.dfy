/**
 The crash-tolerant local installer (scripts/lp_auto_launcher.py).

 An installation is four owned artifacts and an optional transaction file. Every
 change is one atomic filesystem step, and any step may be the last one: a killed
 process leaves whatever disk the steps so far have produced. `Accepted` is the
 ownership check that the next process runs before it touches anything.
*/
module Installer {
  import opened Prelude

  datatype Artifact = Launcher | Config | Receipt | Entry

  /** The files of the payload directory, in publication order; the entry lives elsewhere. */
  const OWNED: seq<Artifact> := [Launcher, Config, Receipt]
  const ARTIFACTS: seq<Artifact> := [Launcher, Config, Receipt, Entry]
  const VERSION_LIMIT := 5

  type Hash = int

  datatype ReceiptDoc = ReceiptDoc(
    binary: string, payload: string, commit: string,
    sourceHash: Hash, configHash: Hash, entryHash: Hash)

  /** File contents: a parsable receipt, or anything else. */
  datatype Content = ReceiptFile(receipt: ReceiptDoc) | Bytes(text: string)

  datatype Version = Version(receipt: ReceiptDoc, receiptHash: Hash)

  datatype Transaction = Transaction(binary: string, payload: string, versions: seq<Version>)

  /** The configured paths and the digests, which may be any functions of the contents. */
  datatype Site = Site(binary: string, payload: string, digest: Content -> Hash, digestTransaction: Transaction -> Hash)

  /** `litter` counts unowned files in the payload directory. */
  datatype Disk = Disk(
    files: map<Artifact, Content>, transaction: Option<Transaction>,
    directory: bool, litter: nat)

  type Snapshot = map<Artifact, Hash>

  const EMPTY_DISK := Disk(map[], None, false, 0)

  // ---------------------------------------------------------------- ownership check

  predicate ReceiptValid(site: Site, receipt: ReceiptDoc) {
    receipt.binary == site.binary && receipt.payload == site.payload
  }

  function VersionHash(v: Version, a: Artifact): Hash {
    match a
    case Launcher => v.receipt.sourceHash
    case Config => v.receipt.configHash
    case Receipt => v.receiptHash
    case Entry => v.receipt.entryHash
  }

  function SnapshotOf(site: Site, d: Disk): Snapshot {
    map a | a in d.files :: site.digest(d.files[a])
  }

  function TransactionDigest(site: Site, d: Disk): Option<Hash> {
    if d.transaction.Some? then Some(site.digestTransaction(d.transaction.value)) else None
  }

  /** What the ownership check returns: the versions, and the digests of all files, the transaction's included. */
  datatype Reading = Reading(versions: seq<Version>, snapshot: Snapshot, transaction: Option<Hash>)

  function ReadingOf(site: Site, d: Disk): Reading {
    Reading(Versions(site, d), SnapshotOf(site, d), TransactionDigest(site, d))
  }

  /** The versions that may vouch for bytes on this disk. */
  function Versions(site: Site, d: Disk): seq<Version> {
    if d.transaction.Some? then d.transaction.value.versions
    else if Receipt in d.files && d.files[Receipt].ReceiptFile? then
      [Version(d.files[Receipt].receipt, site.digest(d.files[Receipt]))]
    else []
  }

  predicate Certified(versions: seq<Version>, a: Artifact, h: Hash) {
    exists i :: 0 <= i < |versions| && VersionHash(versions[i], a) == h
  }

  predicate AllValid(site: Site, versions: seq<Version>) {
    forall i :: 0 <= i < |versions| ==> ReceiptValid(site, versions[i].receipt)
  }

  predicate AllCertified(versions: seq<Version>, snapshot: Snapshot) {
    forall a :: a in snapshot ==> Certified(versions, a, snapshot[a])
  }

  predicate SourceReadable(site: Site, d: Disk) {
    match d.transaction
    case Some(t) => t.binary == site.binary && t.payload == site.payload && 1 <= |t.versions| <= VERSION_LIMIT
    case None =>
      if Receipt in d.files then d.files[Receipt].ReceiptFile?
      else d.files == map[] && d.litter == 0
  }

  /** `publication_state` returns instead of raising. */
  predicate Accepted(site: Site, d: Disk) {
    && SourceReadable(site, d)
    && AllValid(site, Versions(site, d))
    && AllCertified(Versions(site, d), SnapshotOf(site, d))
  }

  /** A transaction of another installation, or one that lists no version or too many, is refused. */
  lemma {:induction false} ForeignTransactionRefused(site: Site, d: Disk, t: Transaction)
    requires d.transaction == Some(t)
    requires t.binary != site.binary || t.payload != site.payload || |t.versions| == 0 || |t.versions| > 5
    ensures !Accepted(site, d)
  {
  }

  /** A receipt of another binary or payload is refused, wherever it is listed. */
  lemma {:induction false} ForeignReceiptRefused(site: Site, d: Disk, receipt: ReceiptDoc)
    requires receipt.binary != site.binary || receipt.payload != site.payload
    requires match d.transaction
             case Some(t) => exists i :: 0 <= i < |t.versions| && t.versions[i].receipt == receipt
             case None => Receipt in d.files && d.files[Receipt] == ReceiptFile(receipt)
    ensures !Accepted(site, d)
  {
    if d.transaction.Some? {
      var i :| 0 <= i < |d.transaction.value.versions| && d.transaction.value.versions[i].receipt == receipt;
      assert Versions(site, d)[i].receipt == receipt;
    } else {
      assert Versions(site, d)[0].receipt == receipt;
    }
  }

  /** So are bytes that no listed version vouches for, and a directory that holds artifacts without a receipt. */
  lemma {:induction false} UnknownBytesRefused(site: Site, d: Disk, a: Artifact)
    requires a in d.files
    requires forall i :: 0 <= i < |Versions(site, d)| ==>
      VersionHash(Versions(site, d)[i], a) != site.digest(d.files[a])
    ensures !Accepted(site, d)
  {
    assert a in SnapshotOf(site, d);
  }

  // ---------------------------------------------------------------- what a publication retains

  function FirstMatch(versions: seq<Version>, a: Artifact, h: Hash): (v: Version)
    requires Certified(versions, a, h)
    ensures v in versions && VersionHash(v, a) == h
  {
    if VersionHash(versions[0], a) == h then versions[0]
    else
      assert Certified(versions[1..], a, h) by {
        var i :| 0 <= i < |versions| && VersionHash(versions[i], a) == h;
        assert versions[1..][i - 1] == versions[i];
      }
      FirstMatch(versions[1..], a, h)
  }

  /** One vouching version for each present artifact of `names`, without repetition. */
  function Retained(names: seq<Artifact>, versions: seq<Version>, snapshot: Snapshot): (kept: seq<Version>)
    requires AllCertified(versions, snapshot)
    ensures |kept| <= |names|
    ensures forall v :: v in kept ==> v in versions
    ensures forall a :: a in names && a in snapshot ==> Certified(kept, a, snapshot[a])
  {
    if names == [] then []
    else
      var last := names[|names| - 1];
      var before := Retained(names[..|names| - 1], versions, snapshot);
      assert forall a :: a in names ==> a in names[..|names| - 1] || a == last;
      if last !in snapshot then before
      else
        var vouching := FirstMatch(versions, last, snapshot[last]);
        if vouching in before then before
        else
          var kept := before + [vouching];
          assert kept[|before|] == vouching;
          assert forall a :: a in names[..|names| - 1] && a in snapshot ==> Certified(kept, a, snapshot[a]) by {
            forall a | a in names[..|names| - 1] && a in snapshot ensures Certified(kept, a, snapshot[a]) {
              var i :| 0 <= i < |before| && VersionHash(before[i], a) == snapshot[a];
              assert kept[i] == before[i];
            }
          }
          kept
  }

  // ---------------------------------------------------------------- proposals and steps

  datatype Proposal = Proposal(launcher: Content, config: Content, entry: Content, commit: string)

  function ReceiptOf(site: Site, p: Proposal): ReceiptDoc {
    ReceiptDoc(site.binary, site.payload, p.commit, site.digest(p.launcher), site.digest(p.config),
      site.digest(p.entry))
  }

  function ContentOf(site: Site, p: Proposal, a: Artifact): Content {
    match a
    case Launcher => p.launcher
    case Config => p.config
    case Receipt => ReceiptFile(ReceiptOf(site, p))
    case Entry => p.entry
  }

  function Proposed(site: Site, p: Proposal): Version {
    Version(ReceiptOf(site, p), site.digest(ReceiptFile(ReceiptOf(site, p))))
  }

  datatype Step =
    | SwapDirectory(payload: map<Artifact, Content>)
    | WriteTransaction(t: Transaction)
    | PutArtifact(a: Artifact, c: Content)
    | DropArtifact(a: Artifact)
    | DropTransaction
    | RemoveDirectory

  /** Each step happens completely or not at all. */
  function Apply(s: Step, d: Disk): Disk {
    match s
    case SwapDirectory(payload) => d.(files := d.files + payload, directory := true)
    case WriteTransaction(t) => d.(transaction := Some(t))
    case PutArtifact(a, c) => d.(files := d.files[a := c])
    case DropArtifact(a) => d.(files := d.files - {a})
    case DropTransaction => d.(transaction := None)
    case RemoveDirectory =>
      if d.litter == 0 && d.transaction.None? && (forall a :: a in OWNED ==> a !in d.files) then d.(directory := false)
      else d
  }

  /** The disk when the first `k` steps are done. */
  function After(d: Disk, steps: seq<Step>, k: nat): Disk
    requires k <= |steps|
  {
    if k == 0 then d else Apply(steps[k - 1], After(d, steps, k - 1))
  }

  /** The disks that the first `k` steps produce, one after each step. */
  function Trace(d: Disk, steps: seq<Step>, k: nat): (t: seq<Disk>)
    requires k <= |steps|
    ensures |t| == k
    ensures forall i :: 0 <= i < k ==> t[i] == After(d, steps, i + 1)
  {
    if k == 0 then [] else Trace(d, steps, k - 1) + [After(d, steps, k)]
  }

  function TransactionFor(site: Site, p: Proposal, versions: seq<Version>, snapshot: Snapshot): Transaction
    requires AllCertified(versions, snapshot)
  {
    var kept := Retained(ARTIFACTS, versions, snapshot);
    var listed := if Proposed(site, p) in kept then kept else kept + [Proposed(site, p)];
    Transaction(site.binary, site.payload, listed)
  }

  function OwnedContents(site: Site, p: Proposal): map<Artifact, Content> {
    map a | a in OWNED :: ContentOf(site, p, a)
  }

  function PublishSteps(site: Site, d: Disk, p: Proposal): seq<Step>
    requires Accepted(site, d)
  {
    if Versions(site, d) == [] then FreshSteps(site, p)
    else RepairSteps(site, p, TransactionFor(site, p, Versions(site, d), SnapshotOf(site, d)))
  }

  function FreshSteps(site: Site, p: Proposal): seq<Step> {
    [SwapDirectory(OwnedContents(site, p)), PutArtifact(Entry, p.entry), DropTransaction]
  }

  function Put(site: Site, p: Proposal, a: Artifact): Step {
    PutArtifact(a, ContentOf(site, p, a))
  }

  function RepairSteps(site: Site, p: Proposal, t: Transaction): seq<Step> {
    [WriteTransaction(t), Put(site, p, Launcher), Put(site, p, Config), Put(site, p, Receipt),
     Put(site, p, Entry), DropTransaction]
  }

  function UninstallSteps(site: Site, d: Disk): seq<Step> {
    if Versions(site, d) == [] then []
    else [DropArtifact(Entry), DropArtifact(Launcher), DropArtifact(Config), DropArtifact(Receipt),
          DropTransaction, RemoveDirectory]
  }

  // ---------------------------------------------------------------- interrupted sessions

  datatype Command = Publish(proposal: Proposal) | Uninstall

  /** A kill after `done` steps; a kill inside the transaction write may strand its temporary file. */
  datatype Cut = Cut(done: nat, torn: bool)

  datatype Session = Session(command: Command, cut: Cut)

  function Steps(site: Site, d: Disk, c: Command): seq<Step>
    requires Accepted(site, d)
  {
    match c
    case Publish(p) => PublishSteps(site, d, p)
    case Uninstall => UninstallSteps(site, d)
  }

  function Interrupted(d: Disk, steps: seq<Step>, cut: Cut): Disk {
    if cut.done >= |steps| then After(d, steps, |steps|)
    else
      var reached := After(d, steps, cut.done);
      if cut.torn && steps[cut.done].WriteTransaction? then reached.(litter := reached.litter + 1) else reached
  }

  /** A session that the ownership check refuses changes nothing. */
  function Execute(site: Site, d: Disk, s: Session): Disk {
    if Accepted(site, d) then Interrupted(d, Steps(site, d, s.command), s.cut) else d
  }

  function Run(site: Site, d: Disk, sessions: seq<Session>): Disk {
    if sessions == [] then d
    else Execute(site, Run(site, d, sessions[..|sessions| - 1]), sessions[|sessions| - 1])
  }

  // ---------------------------------------------------------------- the recovery invariant

  /** What every crash-reachable disk satisfies, whatever unowned files lie beside it. */
  predicate Sound(site: Site, d: Disk) {
    && Accepted(site, d.(litter := 0))
    && (d.directory || (d.litter == 0 && d.transaction.None? && forall a :: a in OWNED ==> a !in d.files))
  }

  function Rank(a: Artifact): nat {
    match a case Launcher => 0 case Config => 1 case Receipt => 2 case Entry => 3
  }

  /** `files` with the first `n` artifacts replaced by the proposed ones. */
  function Overlay(site: Site, files: map<Artifact, Content>, p: Proposal, n: nat): map<Artifact, Content> {
    files + map a: Artifact | Rank(a) < n :: ContentOf(site, p, a)
  }

  lemma {:induction false} OverlayNext(site: Site, files: map<Artifact, Content>, p: Proposal, a: Artifact)
    ensures Overlay(site, files, p, Rank(a) + 1) == Overlay(site, files, p, Rank(a))[a := ContentOf(site, p, a)]
  {
    forall b: Artifact | Rank(b) == Rank(a) ensures a == b {}
  }

  /** The disk after the transaction is written and the first `n` artifacts are put. */
  function Midway(site: Site, d: Disk, p: Proposal, t: Transaction, n: nat): Disk {
    d.(files := Overlay(site, d.files, p, n), transaction := Some(t))
  }

  lemma {:induction false} MidwayNext(site: Site, d: Disk, p: Proposal, t: Transaction, a: Artifact)
    ensures Apply(Put(site, p, a), Midway(site, d, p, t, Rank(a))) == Midway(site, d, p, t, Rank(a) + 1)
  {
    OverlayNext(site, d.files, p, a);
  }

  lemma {:induction false} AfterNext(d: Disk, steps: seq<Step>, k: nat)
    requires 0 < k <= |steps|
    ensures After(d, steps, k) == Apply(steps[k - 1], After(d, steps, k - 1))
  {
  }

  lemma {:induction false} RepairPuts(site: Site, p: Proposal, t: Transaction, i: nat)
    requires 1 <= i <= 4
    ensures RepairSteps(site, p, t)[i] == Put(site, p, ARTIFACTS[i - 1]) && Rank(ARTIFACTS[i - 1]) == i - 1
  {
  }

  lemma {:induction false} RepairFirst(site: Site, d: Disk, p: Proposal, t: Transaction)
    ensures Apply(WriteTransaction(t), d) == Midway(site, d, p, t, 0)
  {
    assert Overlay(site, d.files, p, 0) == d.files;
  }

  lemma {:induction false} RepairNext(site: Site, d: Disk, p: Proposal, t: Transaction, steps: seq<Step>, k: nat)
    requires steps == RepairSteps(site, p, t) && 1 <= k <= 4 && After(d, steps, k) == Midway(site, d, p, t, k - 1)
    ensures After(d, steps, k + 1) == Midway(site, d, p, t, k)
  {
    AfterNext(d, steps, k + 1);
    RepairPuts(site, p, t, k);
    MidwayNext(site, d, p, t, ARTIFACTS[k - 1]);
  }

  /** The disk after `k` steps of a repair: first the transaction, then the artifacts one by one. */
  function Repaired(site: Site, d: Disk, p: Proposal, t: Transaction, k: nat): Disk {
    if k == 0 then d
    else if k >= 6 then Midway(site, d, p, t, 4).(transaction := None)
    else Midway(site, d, p, t, k - 1)
  }

  lemma {:induction false} RepairLast(site: Site, d: Disk, p: Proposal, t: Transaction, steps: seq<Step>)
    requires steps == RepairSteps(site, p, t) && After(d, steps, 5) == Midway(site, d, p, t, 4)
    ensures After(d, steps, 6) == Midway(site, d, p, t, 4).(transaction := None)
  {
    AfterNext(d, steps, 6);
  }

  lemma {:induction false} RepairPrefix(site: Site, d: Disk, p: Proposal, t: Transaction, steps: seq<Step>, k: nat)
    requires steps == RepairSteps(site, p, t) && k <= 6
    ensures After(d, steps, k) == Repaired(site, d, p, t, k)
  {
    if k > 0 {
      RepairPrefix(site, d, p, t, steps, k - 1);
      if k == 1 {
        RepairFirst(site, d, p, t);
        AfterNext(d, steps, 1);
      } else if k < 6 {
        RepairNext(site, d, p, t, steps, k - 1);
      } else {
        RepairLast(site, d, p, t, steps);
      }
    }
  }

  lemma {:induction false} OwnedIsOverlay(site: Site, p: Proposal)
    ensures map[] + OwnedContents(site, p) == Overlay(site, map[], p, 3)
  {
    assert forall a: Artifact :: a in OWNED <==> Rank(a) < 3;
  }

  lemma {:induction false} FreshPrefix(site: Site, d: Disk, p: Proposal, steps: seq<Step>, k: nat)
    requires d.files == map[] && d.transaction.None? && steps == FreshSteps(site, p) && k <= 3
    ensures After(d, steps, k) ==
      if k == 0 then d else d.(files := Overlay(site, map[], p, if k == 1 then 3 else 4), directory := true)
  {
    if k == 0 {
    } else {
      FreshPrefix(site, d, p, steps, k - 1);
      AfterNext(d, steps, k);
      if k == 1 {
        OwnedIsOverlay(site, p);
      } else if k == 2 {
        OverlayNext(site, map[], p, Entry);
      }
    }
  }

  /** While the transaction is on disk, every mixture of old and proposed artifacts is certified. */
  lemma {:induction false} TransactionCertifies(site: Site, versions: seq<Version>, d: Disk, p: Proposal, n: nat)
    requires AllValid(site, versions) && AllCertified(versions, SnapshotOf(site, d))
    ensures var t := TransactionFor(site, p, versions, SnapshotOf(site, d));
            && 1 <= |t.versions| <= VERSION_LIMIT
            && AllValid(site, t.versions)
            && AllCertified(t.versions, SnapshotOf(site, d.(files := Overlay(site, d.files, p, n))))
  {
    var snapshot := SnapshotOf(site, d);
    var kept := Retained(ARTIFACTS, versions, snapshot);
    var listed := TransactionFor(site, p, versions, snapshot).versions;
    forall i | 0 <= i < |listed| ensures ReceiptValid(site, listed[i].receipt) {
      if i < |kept| { assert kept[i] in versions; }
    }
    assert Proposed(site, p) in listed by {
      if Proposed(site, p) !in kept { assert listed[|kept|] == Proposed(site, p); }
    }
    var mixed := SnapshotOf(site, d.(files := Overlay(site, d.files, p, n)));
    forall a | a in mixed ensures Certified(listed, a, mixed[a]) {
      if Rank(a) < n {
        var i :| 0 <= i < |listed| && listed[i] == Proposed(site, p);
        assert VersionHash(listed[i], a) == mixed[a];
      } else {
        assert a == ARTIFACTS[Rank(a)];
        var i :| 0 <= i < |kept| && VersionHash(kept[i], a) == snapshot[a];
        assert listed[i] == kept[i];
      }
    }
  }

  lemma {:induction false} CompleteIsSound(site: Site, d: Disk, p: Proposal)
    requires d.transaction.None? && d.directory
    requires d.files == Overlay(site, map[], p, 3) || d.files == Overlay(site, map[], p, 4)
    ensures Sound(site, d) && Accepted(site, d)
  {
    assert Rank(Receipt) < 3;
    assert Versions(site, d) == [Proposed(site, p)];
    forall a | a in d.files ensures VersionHash(Versions(site, d)[0], a) == SnapshotOf(site, d)[a] {
    }
  }

  function DropRank(a: Artifact): nat {
    match a case Entry => 0 case Launcher => 1 case Config => 2 case Receipt => 3
  }

  function Remaining(d: Disk, n: nat): Disk {
    d.(files := map a | a in d.files && DropRank(a) >= n :: d.files[a])
  }

  lemma {:induction false} RemainingNext(d: Disk, a: Artifact)
    ensures Apply(DropArtifact(a), Remaining(d, DropRank(a))) == Remaining(d, DropRank(a) + 1)
  {
    forall b: Artifact | DropRank(b) == DropRank(a) ensures a == b {}
    assert Remaining(d, DropRank(a)).files - {a} == Remaining(d, DropRank(a) + 1).files;
  }

  /** The disk after any prefix of an uninstall; the receipt goes last and the transaction after it. */
  lemma {:induction false} UninstallPrefix(site: Site, d: Disk, steps: seq<Step>, k: nat)
    requires Versions(site, d) != [] && steps == UninstallSteps(site, d) && k <= 6
    ensures After(d, steps, k) ==
      if k <= 4 then Remaining(d, k)
      else d.(files := map[], transaction := None, directory := d.directory && (k == 5 || d.litter > 0))
  {
    if k == 0 {
      assert Remaining(d, 0).files == d.files;
    } else {
      UninstallPrefix(site, d, steps, k - 1);
      AfterNext(d, steps, k);
      if k <= 4 {
        var a := [Entry, Launcher, Config, Receipt][k - 1];
        assert steps[k - 1] == DropArtifact(a) && DropRank(a) == k - 1;
        RemainingNext(d, a);
      } else {
        assert Remaining(d, 4).files == map[];
      }
    }
  }

  lemma {:induction false} RemainingIsSound(site: Site, d: Disk, n: nat)
    requires Sound(site, d) && n <= 4
    ensures Sound(site, Remaining(d, n))
  {
    var before, left := d.(litter := 0), Remaining(d, n).(litter := 0);
    if d.transaction.Some? || n <= 3 {
      assert Versions(site, left) == Versions(site, before);
      forall a | a in left.files ensures Certified(Versions(site, left), a, site.digest(left.files[a])) {
        assert a in SnapshotOf(site, before);
      }
    } else {
      assert left.files == map[];
    }
  }

  /** The ownership check can only be refused because of unowned files in an otherwise empty payload directory. */
  lemma {:induction false} AcceptedIff(site: Site, d: Disk)
    requires Sound(site, d)
    ensures Accepted(site, d) <==> d.litter == 0 || d.transaction.Some? || Receipt in d.files
  {
    var clean := d.(litter := 0);
    assert Versions(site, clean) == Versions(site, d) && SnapshotOf(site, clean) == SnapshotOf(site, d);
  }

  lemma {:induction false} MidwayIsSound(site: Site, d: Disk, p: Proposal, n: nat)
    requires Sound(site, d) && Accepted(site, d) && Versions(site, d) != []
    ensures Sound(site, Midway(site, d, p, TransactionFor(site, p, Versions(site, d), SnapshotOf(site, d)), n))
  {
    var t := TransactionFor(site, p, Versions(site, d), SnapshotOf(site, d));
    TransactionCertifies(site, Versions(site, d), d, p, n);
    var mid := Midway(site, d, p, t, n).(litter := 0);
    assert Versions(site, mid) == t.versions;
    assert SnapshotOf(site, mid) == SnapshotOf(site, d.(files := Overlay(site, d.files, p, n)));
  }

  lemma {:induction false} OverlayAll(site: Site, files: map<Artifact, Content>, p: Proposal)
    ensures Overlay(site, files, p, 4) == Overlay(site, map[], p, 4)
  {
    assert forall a: Artifact :: Rank(a) < 4;
  }

  /** Wherever a publication is cut off, the disk it leaves is sound. */
  lemma {:induction false} PublishCutSound(site: Site, d: Disk, p: Proposal, k: nat)
    requires Sound(site, d) && Accepted(site, d) && k <= |PublishSteps(site, d, p)|
    ensures Sound(site, After(d, PublishSteps(site, d, p), k))
  {
    if Versions(site, d) == [] {
      FreshPrefix(site, d, p, PublishSteps(site, d, p), k);
      if k > 0 { CompleteIsSound(site, After(d, PublishSteps(site, d, p), k), p); }
    } else {
      var t := TransactionFor(site, p, Versions(site, d), SnapshotOf(site, d));
      RepairPrefix(site, d, p, t, PublishSteps(site, d, p), k);
      if 0 < k < 6 {
        MidwayIsSound(site, d, p, k - 1);
      } else if k == 6 {
        OverlayAll(site, d.files, p);
        CompleteIsSound(site, After(d, PublishSteps(site, d, p), k), p);
      }
    }
  }

  lemma {:induction false} UninstallCutSound(site: Site, d: Disk, k: nat)
    requires Sound(site, d) && Accepted(site, d) && k <= |UninstallSteps(site, d)|
    ensures Sound(site, After(d, UninstallSteps(site, d), k))
  {
    if Versions(site, d) != [] {
      UninstallPrefix(site, d, UninstallSteps(site, d), k);
      if k <= 4 { RemainingIsSound(site, d, k); }
    }
  }

  lemma {:induction false} ExecuteSound(site: Site, d: Disk, s: Session)
    requires Sound(site, d)
    ensures Sound(site, Execute(site, d, s))
  {
    if Accepted(site, d) {
      var steps := Steps(site, d, s.command);
      var k := if s.cut.done >= |steps| then |steps| else s.cut.done;
      match s.command {
        case Publish(p) => PublishCutSound(site, d, p, k);
        case Uninstall => UninstallCutSound(site, d, k);
      }
      // A stranded temporary file needs a directory, which every repair has.
      if s.cut.torn && k < |steps| && steps[k].WriteTransaction? {
        assert k == 0;
      }
    }
  }

  /** Every run of installs, repairs and uninstalls, each killed anywhere, leaves a sound disk. */
  lemma {:induction false} RunSound(site: Site, sessions: seq<Session>)
    ensures Sound(site, Run(site, EMPTY_DISK, sessions))
  {
    if sessions == [] {
    } else {
      RunSound(site, sessions[..|sessions| - 1]);
      ExecuteSound(site, Run(site, EMPTY_DISK, sessions[..|sessions| - 1]), sessions[|sessions| - 1]);
    }
  }

  function Complete(c: Command): Session {
    Session(c, Cut(6, false))
  }

  /** What `publication_state` is promised on every crash-reachable disk. */
  lemma {:induction false} CrashRecovery(site: Site, sessions: seq<Session>)
    ensures var d := Run(site, EMPTY_DISK, sessions);
      && (d.transaction.Some? ==> 1 <= |d.transaction.value.versions| <= VERSION_LIMIT)
      && (forall a :: a in d.files ==> Certified(Versions(site, d), a, site.digest(d.files[a])))
      && (Accepted(site, d) <==> d.litter == 0 || d.transaction.Some? || Receipt in d.files)
  {
    RunSound(site, sessions);
    var d := Run(site, EMPTY_DISK, sessions);
    AcceptedIff(site, d);
    forall a | a in d.files ensures Certified(Versions(site, d), a, site.digest(d.files[a])) {
      assert a in SnapshotOf(site, d.(litter := 0));
    }
  }

  lemma {:induction false} StepsKeepLitter(d: Disk, steps: seq<Step>, k: nat)
    requires k <= |steps|
    ensures After(d, steps, k).litter == d.litter
  {
    if k > 0 { StepsKeepLitter(d, steps, k - 1); }
  }

  /** If no kill tears the transaction write itself, the ownership check succeeds on every crash-reachable disk. */
  lemma {:induction false} AlwaysAccepted(site: Site, sessions: seq<Session>)
    requires forall i :: 0 <= i < |sessions| ==> !sessions[i].cut.torn
    ensures Run(site, EMPTY_DISK, sessions).litter == 0 && Accepted(site, Run(site, EMPTY_DISK, sessions))
  {
    RunSound(site, sessions);
    if sessions != [] {
      AlwaysAccepted(site, sessions[..|sessions| - 1]);
      var d, s := Run(site, EMPTY_DISK, sessions[..|sessions| - 1]), sessions[|sessions| - 1];
      var steps := Steps(site, d, s.command);
      StepsKeepLitter(d, steps, if s.cut.done >= |steps| then |steps| else s.cut.done);
    }
    AcceptedIff(site, Run(site, EMPTY_DISK, sessions));
  }

  /** Without a transaction file, the receipt on disk vouches for every present artifact by itself. */
  lemma {:induction false} NoMixtureWithoutTransaction(site: Site, sessions: seq<Session>)
    ensures var d := Run(site, EMPTY_DISK, sessions);
      d.transaction.None? && d.files != map[] ==>
        && Receipt in d.files && d.files[Receipt].ReceiptFile?
        && forall a :: a in d.files ==>
             site.digest(d.files[a]) == VersionHash(Version(d.files[Receipt].receipt, site.digest(d.files[Receipt])), a)
  {
    RunSound(site, sessions);
    var d := Run(site, EMPTY_DISK, sessions);
    if d.transaction.None? && d.files != map[] {
      forall a | a in d.files
        ensures site.digest(d.files[a]) == VersionHash(Version(d.files[Receipt].receipt, site.digest(d.files[Receipt])),
          a)
      {
        assert a in SnapshotOf(site, d.(litter := 0));
      }
    }
  }

  /** One uninterrupted init or repair ends with exactly the proposed version, from any crash-reachable disk. */
  lemma {:induction false} PublishCompletes(site: Site, sessions: seq<Session>, p: Proposal)
    requires Accepted(site, Run(site, EMPTY_DISK, sessions))
    ensures var d := Run(site, EMPTY_DISK, sessions);
      Execute(site, d, Complete(Publish(p))) ==
        Disk(map a: Artifact | true :: ContentOf(site, p, a), None, true, d.litter)
  {
    RunSound(site, sessions);
    var d := Run(site, EMPTY_DISK, sessions);
    assert Overlay(site, map[], p, 4) == (map a: Artifact | true :: ContentOf(site, p, a)) by {
      assert forall a: Artifact :: Rank(a) < 4;
    }
    if Versions(site, d) == [] {
      FreshPrefix(site, d, p, PublishSteps(site, d, p), 3);
    } else {
      var t := TransactionFor(site, p, Versions(site, d), SnapshotOf(site, d));
      RepairPrefix(site, d, p, t, PublishSteps(site, d, p), 6);
      OverlayAll(site, d.files, p);
    }
  }

  /** One uninterrupted uninstall ends with no owned file, from any crash-reachable disk. */
  lemma {:induction false} UninstallCompletes(site: Site, sessions: seq<Session>)
    requires Accepted(site, Run(site, EMPTY_DISK, sessions))
    ensures var d := Execute(site, Run(site, EMPTY_DISK, sessions), Complete(Uninstall));
      d.files == map[] && d.transaction.None? && (d.litter > 0 ==> d.directory)
  {
    RunSound(site, sessions);
    var d := Run(site, EMPTY_DISK, sessions);
    if Versions(site, d) != [] { UninstallPrefix(site, d, UninstallSteps(site, d), 6); }
  }

  /**
   The one way to lose an installation: a kill inside the transaction write strands a temporary file,
   and the uninstall that follows leaves it behind. Every later session is then refused.
  */
  lemma {:induction false} StrandedFileRefusesForever(site: Site, sessions: seq<Session>, p: Proposal,
        later: seq<Session>)
    requires Accepted(site, Run(site, EMPTY_DISK, sessions))
    requires Versions(site, Run(site, EMPTY_DISK, sessions)) != []
    ensures var d := Run(site, EMPTY_DISK, sessions);
      var torn := Execute(site, d, Session(Publish(p), Cut(0, true)));
      var gone := Execute(site, torn, Complete(Uninstall));
      Run(site, gone, later) == gone && gone.files == map[] && gone.litter > 0 && !Accepted(site, gone)
  {
    RunSound(site, sessions);
    var d := Run(site, EMPTY_DISK, sessions);
    var torn := Execute(site, d, Session(Publish(p), Cut(0, true)));
    assert torn == d.(litter := d.litter + 1);
    AcceptedIff(site, d);
    ExecuteSound(site, d, Session(Publish(p), Cut(0, true)));
    AcceptedIff(site, torn);
    UninstallPrefix(site, torn, UninstallSteps(site, torn), 6);
    if later != [] {
      StrandedFileRefusesForever(site, sessions, p, later[..|later| - 1]);
    }
  }

  // ---------------------------------------------------------------- the installed launcher

  /** The checks that the installed payload makes before it launches anything. */
  predicate Launches(site: Site, d: Disk) {
    && d.transaction.None?
    && Launcher in d.files && Config in d.files && Receipt in d.files && d.files[Receipt].ReceiptFile?
    && site.digest(d.files[Launcher]) == d.files[Receipt].receipt.sourceHash
    && site.digest(d.files[Config]) == d.files[Receipt].receipt.configHash
  }

  /** A launcher or a configuration that is not the receipt's own is never launched. */
  lemma {:induction false} ForeignPayloadNotLaunched(site: Site, d: Disk)
    requires Launcher in d.files && Config in d.files && Receipt in d.files && d.files[Receipt].ReceiptFile?
    requires site.digest(d.files[Launcher]) != d.files[Receipt].receipt.sourceHash
          || site.digest(d.files[Config]) != d.files[Receipt].receipt.configHash
    ensures !Launches(site, d)
  {
  }

  /** On a crash-reachable disk the hash checks never fail: presence and the transaction decide. */
  lemma {:induction false} LaunchesIff(site: Site, sessions: seq<Session>)
    ensures var d := Run(site, EMPTY_DISK, sessions);
      Launches(site, d) <==> d.transaction.None? && Launcher in d.files && Config in d.files
  {
    NoMixtureWithoutTransaction(site, sessions);
    var d := Run(site, EMPTY_DISK, sessions);
    if d.transaction.None? && Launcher in d.files && Config in d.files {
      assert d.files != map[];
      assert VersionHash(Version(d.files[Receipt].receipt, site.digest(d.files[Receipt])), Launcher)
          == d.files[Receipt].receipt.sourceHash;
    }
  }

  // ---------------------------------------------------------------- the installer as it runs

  /** The installation on disk; `trail` records the disk after every atomic step. */
  class Installation {
    const site: Site
    var files: map<Artifact, Content>
    var transaction: Option<Transaction>
    var directory: bool
    var litter: nat
    ghost var trail: seq<Disk>

    constructor (site: Site)
      ensures this.site == site && OnDisk() == EMPTY_DISK && trail == []
    {
      this.site := site;
      files, transaction, directory, litter := map[], None, false, 0;
      trail := [];
    }

    function OnDisk(): Disk
      reads this
    {
      Disk(files, transaction, directory, litter)
    }

    method Perform(step: Step)
      modifies this
      ensures OnDisk() == Apply(step, old(OnDisk()))
      ensures trail == old(trail) + [OnDisk()]
    {
      match step {
        case SwapDirectory(payload) => files, directory := files + payload, true;
        case WriteTransaction(t) => transaction := Some(t);
        case PutArtifact(a, c) => files := files[a := c];
        case DropArtifact(a) => files := files - {a};
        case DropTransaction => transaction := None;
        case RemoveDirectory =>
          if litter == 0 && transaction.None? && Launcher !in files && Config !in files && Receipt !in files {
            directory := false;
          }
      }
      trail := trail + [OnDisk()];
    }

    method TakeSnapshot() returns (snapshot: Snapshot)
      ensures snapshot == SnapshotOf(site, OnDisk())
    {
      snapshot := map[];
      for i := 0 to |ARTIFACTS|
        invariant snapshot.Keys == set a | a in files && Rank(a) < i
        invariant forall a :: a in snapshot ==> snapshot[a] == site.digest(files[a])
      {
        if ARTIFACTS[i] in files { snapshot := snapshot[ARTIFACTS[i] := site.digest(files[ARTIFACTS[i]])]; }
      }
      assert forall a: Artifact :: Rank(a) < 4;
    }

    /** Reads the disk and refuses anything that an owned receipt does not certify. */
    method PublicationState() returns (state: Option<Reading>)
      ensures state == if Accepted(site, OnDisk()) then Some(ReadingOf(site, OnDisk())) else None
    {
      var snapshot := TakeSnapshot();
      if !SourceReadable(site, OnDisk()) { return None; }
      var versions := Versions(site, OnDisk());
      for i := 0 to |versions|
        invariant forall j :: 0 <= j < i ==> ReceiptValid(site, versions[j].receipt)
      {
        if !ReceiptValid(site, versions[i].receipt) { return None; }
      }
      for i := 0 to |ARTIFACTS|
        invariant forall a :: a in snapshot && Rank(a) < i ==> Certified(versions, a, snapshot[a])
      {
        if ARTIFACTS[i] in snapshot && !Certified(versions, ARTIFACTS[i], snapshot[ARTIFACTS[i]]) { return None; }
      }
      assert forall a: Artifact :: Rank(a) < 4;
      return Some(Reading(versions, snapshot, if transaction.Some? then Some(site.digestTransaction(transaction.value))
                                              else None));
    }

    /** Publishes unless the disk changed since it was read. */
    method Publish(p: Proposal, reading: Reading) returns (ok: bool)
      modifies this
      ensures ok <==> old(Accepted(site, OnDisk())) && reading == old(ReadingOf(site, OnDisk()))
      ensures !ok ==> OnDisk() == old(OnDisk()) && trail == old(trail)
      ensures ok ==>
        var steps := PublishSteps(site, old(OnDisk()), p);
        OnDisk() == After(old(OnDisk()), steps, |steps|) && trail == old(trail) + Trace(old(OnDisk()), steps, |steps|)
    {
      var state := PublicationState();
      if state != Some(reading) { return false; }
      if reading.versions == [] {
        PublishFresh(p);
      } else {
        var t := Plan(p, reading.versions, reading.snapshot);
        Replace(p, t);
      }
      ok := true;
    }

    /** The staged directory in one rename, then the entry; there is no transaction to end. */
    method PublishFresh(p: Proposal)
      modifies this
      ensures OnDisk() == After(old(OnDisk()), FreshSteps(site, p), 3)
      ensures trail == old(trail) + Trace(old(OnDisk()), FreshSteps(site, p), 3)
    {
      ghost var d, steps := OnDisk(), FreshSteps(site, p);
      Perform(SwapDirectory(OwnedContents(site, p)));
      assert OnDisk() == After(d, steps, 1);
      assert Trace(d, steps, 1) == [OnDisk()];
      Perform(PutArtifact(Entry, p.entry));
      assert OnDisk() == After(d, steps, 2);
      Perform(DropTransaction);
    }

    /** The transaction first, then the owned files in order, the entry, and the end of the transaction. */
    method Replace(p: Proposal, t: Transaction)
      modifies this
      ensures OnDisk() == After(old(OnDisk()), RepairSteps(site, p, t), 6)
      ensures trail == old(trail) + Trace(old(OnDisk()), RepairSteps(site, p, t), 6)
    {
      ghost var d := OnDisk();
      ghost var steps := RepairSteps(site, p, t);
      Perform(WriteTransaction(t));
      for i := 0 to |OWNED|
        invariant OnDisk() == After(d, steps, i + 1)
        invariant trail == old(trail) + Trace(d, steps, i + 1)
      {
        Perform(Put(site, p, OWNED[i]));
      }
      Perform(PutArtifact(Entry, p.entry));
      Perform(DropTransaction);
    }

    method Plan(p: Proposal, versions: seq<Version>, snapshot: Snapshot) returns (t: Transaction)
      requires AllCertified(versions, snapshot)
      ensures t == TransactionFor(site, p, versions, snapshot)
    {
      var kept := Keep(versions, snapshot);
      var proposed := Proposed(site, p);
      if proposed !in kept { kept := kept + [proposed]; }
      t := Transaction(site.binary, site.payload, kept);
    }

    /** The loop that picks one vouching version for each present artifact. */
    method Keep(versions: seq<Version>, snapshot: Snapshot) returns (kept: seq<Version>)
      requires AllCertified(versions, snapshot)
      ensures kept == Retained(ARTIFACTS, versions, snapshot)
    {
      kept := [];
      for i := 0 to |ARTIFACTS|
        invariant kept == Retained(ARTIFACTS[..i], versions, snapshot)
      {
        assert ARTIFACTS[..i + 1][..i] == ARTIFACTS[..i];
        if ARTIFACTS[i] in snapshot {
          var vouching := FirstMatch(versions, ARTIFACTS[i], snapshot[ARTIFACTS[i]]);
          if vouching !in kept { kept := kept + [vouching]; }
        }
      }
      assert ARTIFACTS[..|ARTIFACTS|] == ARTIFACTS;
    }

    method Uninstall() returns (ok: bool)
      modifies this
      ensures ok <==> old(Accepted(site, OnDisk()))
      ensures !ok ==> OnDisk() == old(OnDisk()) && trail == old(trail)
      ensures ok ==>
        var steps := UninstallSteps(site, old(OnDisk()));
        OnDisk() == After(old(OnDisk()), steps, |steps|) && trail == old(trail) + Trace(old(OnDisk()), steps, |steps|)
    {
      var state := PublicationState();
      if state.None? { return false; }
      ghost var d := OnDisk();
      ghost var steps := UninstallSteps(site, d);
      if state.value.versions != [] {
        Perform(DropArtifact(Entry));
        for i := 0 to |OWNED|
          invariant OnDisk() == After(d, steps, i + 1)
          invariant trail == old(trail) + Trace(d, steps, i + 1)
        {
          Perform(DropArtifact(OWNED[i]));
        }
        Perform(DropTransaction);
        Perform(RemoveDirectory);
      }
      ok := true;
    }
  }
}

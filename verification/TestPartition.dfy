/**
 The proof that the required test machines cover every collected test exactly once
 (scripts/ci_partition.py and scripts/ci_evidence.py).

 The hash that spreads tests over shards is a parameter: nothing here depends on which
 hash it is.
*/
module TestPartition {
  import opened Prelude
  import opened Sorting

  // ---------------------------------------------------------------- node identities

  /** The text before the first `[`. */
  function BeforeBracket(node: string): string {
    if node == "" || node[0] == '[' then "" else [node[0]] + BeforeBracket(node[1..])
  }

  /** The text before the first `::`. */
  function FileOf(node: string): string {
    if node == "" || "::" <= node then "" else [node[0]] + FileOf(node[1..])
  }

  predicate HasSeparator(node: string) {
    node != "" && ("::" <= node || HasSeparator(node[1..]))
  }

  const CLOUD_FILES := {"tests/test_prediction_cloud.py", "tests/test_prediction_client.py"}
  const RECOVERY_TESTS := "tests/test_lp410_launchd_recovery.py::"

  /** Parameters of one test share a group, and so do all tests that need the shared ports. */
  function GroupKey(node: string): string {
    if FileOf(node) in CLOUD_FILES then "prediction_cloud_ports" else BeforeBracket(node)
  }

  datatype Service = Prediction | ReleaseAdvisory

  function ShardCount(service: Service): nat {
    match service case Prediction => 3 case ReleaseAdvisory => 4
  }

  function Buckets(service: Service, node: string): (n: nat)
    ensures 1 <= n <= ShardCount(service)
  {
    if service == ReleaseAdvisory && RECOVERY_TESTS <= node then 2 else ShardCount(service)
  }

  function BucketOf(hash: string -> nat, service: Service, node: string): (b: nat)
    ensures 1 <= b <= ShardCount(service)
  {
    hash(GroupKey(node)) % Buckets(service, node) + 1
  }

  /** As in Python: no element occurs twice. */
  predicate Distinct(nodes: seq<string>) {
    forall x :: x in nodes ==> multiset(nodes)[x] == 1
  }

  function Select(hash: string -> nat, service: Service, nodes: seq<string>, index: int): seq<string> {
    if nodes == [] then []
    else
      var before := Select(hash, service, nodes[..|nodes| - 1], index);
      var last := nodes[|nodes| - 1];
      if BucketOf(hash, service, last) == index then before + [last] else before
  }

  function Shard(hash: string -> nat, service: Service, nodes: seq<string>, index: int): seq<string> {
    Select(hash, service, Sort(nodes), index)
  }

  datatype Error = InvalidShard | Duplicate | Malformed | Overlap | Undeclared | Mismatch | Missing | Inconsistent

  /** `shard_nodeids`. */
  method ShardNodeIds(hash: string -> nat, service: Service, nodes: seq<string>, index: int)
      returns (r: Result<seq<string>, Error>)
    ensures r.Ok? <==> 1 <= index <= ShardCount(service) && Distinct(nodes)
    ensures r.Ok? ==> r.value == Shard(hash, service, nodes, index)
  {
    if !(1 <= index <= ShardCount(service)) { return Err(InvalidShard); }
    if !Distinct(nodes) { return Err(Duplicate); }
    var sorted, selected := Sort(nodes), [];
    for i := 0 to |sorted|
      invariant selected == Select(hash, service, sorted[..i], index)
    {
      assert sorted[..i + 1][..i] == sorted[..i];
      if BucketOf(hash, service, sorted[i]) == index { selected := selected + [sorted[i]]; }
    }
    assert sorted[..|sorted|] == sorted;
    return Ok(selected);
  }

  // ---------------------------------------------------------------- shards cover, are disjoint and keep groups

  lemma {:induction false} SelectMembers(hash: string -> nat, service: Service, nodes: seq<string>, index: int,
        x: string)
    ensures multiset(Select(hash, service, nodes, index))[x] ==
            if BucketOf(hash, service, x) == index then multiset(nodes)[x] else 0
  {
    if nodes != [] {
      SelectMembers(hash, service, nodes[..|nodes| - 1], index, x);
      assert nodes == nodes[..|nodes| - 1] + [nodes[|nodes| - 1]];
    }
  }

  /** A node is in the shard of its bucket, as often as it was collected, and in no other shard. */
  lemma {:induction false} ShardMembers(hash: string -> nat, service: Service, nodes: seq<string>, index: int,
        x: string)
    ensures multiset(Shard(hash, service, nodes, index))[x] ==
            if BucketOf(hash, service, x) == index then multiset(nodes)[x] else 0
  {
    SelectMembers(hash, service, Sort(nodes), index, x);
  }

  /** The shards from 1 to n together. */
  function ShardsUpTo(hash: string -> nat, service: Service, nodes: seq<string>, n: nat): multiset<string> {
    if n == 0 then multiset{} else ShardsUpTo(hash, service, nodes, n - 1) + multiset(Shard(hash, service, nodes, n))
  }

  lemma {:induction false} ShardsUpToMembers(hash: string -> nat, service: Service, nodes: seq<string>, n: nat,
        x: string)
    ensures ShardsUpTo(hash, service, nodes, n)[x] == if BucketOf(hash, service, x) <= n then multiset(nodes)[x] else 0
  {
    if n > 0 {
      ShardsUpToMembers(hash, service, nodes, n - 1, x);
      ShardMembers(hash, service, nodes, n, x);
    }
  }

  /**
   The shards of either service partition its tests, for any hash; the recovery tests use only two of the four advisory
   ones.
  */
  lemma {:induction false} ShardsCover(hash: string -> nat, service: Service, nodes: seq<string>)
    ensures ShardsUpTo(hash, service, nodes, ShardCount(service)) == multiset(nodes)
  {
    forall x ensures ShardsUpTo(hash, service, nodes, ShardCount(service))[x] == multiset(nodes)[x] {
      ShardsUpToMembers(hash, service, nodes, ShardCount(service), x);
    }
  }

  lemma {:induction false} PrefixBeforeBracket(prefix: string, node: string)
    requires '[' !in prefix
    ensures prefix <= node <==> prefix <= BeforeBracket(node)
  {
    if prefix != "" && node != "" && node[0] != '[' && prefix[0] == node[0] {
      PrefixBeforeBracket(prefix[1..], node[1..]);
      assert prefix <= node <==> prefix[1..] <= node[1..];
      assert prefix <= BeforeBracket(node) <==> prefix[1..] <= BeforeBracket(node)[1..];
    }
  }

  /** Which file a node is in shows in the text before its parameters. */
  lemma {:induction false} RecoveryIsNotCloud(node: string)
    requires RECOVERY_TESTS <= node
    ensures FileOf(node) !in CLOUD_FILES
  {
    assert node[..12] == RECOVERY_TESTS[..12] == "tests/test_l";
    FileKeepsPrefix(node, 12);
    assert FileOf(node)[..12][11] == 'l';
  }

  lemma {:induction false} FileKeepsPrefix(node: string, n: nat)
    requires n <= |node| && ':' !in node[..n]
    ensures n <= |FileOf(node)| && FileOf(node)[..n] == node[..n]
  {
    if n > 0 {
      assert node[0] in node[..n];
      assert node[1..][..n - 1] == node[..n][1..];
      FileKeepsPrefix(node[1..], n - 1);
    }
  }

  lemma {:induction false} RecoveryShowsInKey(node: string)
    ensures RECOVERY_TESTS <= node <==> RECOVERY_TESTS <= GroupKey(node)
  {
    if FileOf(node) in CLOUD_FILES {
      if RECOVERY_TESTS <= node { RecoveryIsNotCloud(node); }
    } else {
      PrefixBeforeBracket(RECOVERY_TESTS, node);
    }
  }

  /** Nodes with one group key always land in one shard. */
  lemma {:induction false} GroupsStayTogether(hash: string -> nat, service: Service, x: string, y: string)
    requires GroupKey(x) == GroupKey(y)
    ensures BucketOf(hash, service, x) == BucketOf(hash, service, y)
  {
    RecoveryShowsInKey(x);
    RecoveryShowsInKey(y);
  }

  lemma {:induction false} FileOfLonger(test: string, rest: string)
    requires HasSeparator(test)
    ensures FileOf(test + rest) == FileOf(test)
  {
    if "::" <= test {
      assert "::" <= test + rest;
    } else {
      FileOfLonger(test[1..], rest);
      assert (test + rest)[1..] == test[1..] + rest;
      SeparatorNotHere(test, rest);
    }
  }

  lemma {:induction false} SeparatorNotHere(test: string, rest: string)
    requires HasSeparator(test) && !("::" <= test)
    ensures !("::" <= test + rest)
  {
    assert |test| >= 2 && (test + rest)[..2] == test[..2];
  }

  lemma {:induction false} BeforeBracketOf(test: string, rest: string)
    requires '[' !in test
    ensures BeforeBracket(test + "[" + rest) == test
  {
    if test != "" {
      BeforeBracketOf(test[1..], rest);
      assert (test + "[" + rest)[1..] == test[1..] + "[" + rest;
      assert test == [test[0]] + test[1..];
    }
  }

  /** The node of a test with its parameters. */
  function Parameterized(test: string, parameters: string): string {
    test + "[" + parameters
  }

  /** All parameters of one test have one group key: the test itself, or the shared ports. */
  lemma {:induction false} ParametersShareKey(test: string, parameters: string)
    requires '[' !in test && HasSeparator(test)
    ensures GroupKey(Parameterized(test, parameters))
         == if FileOf(test) in CLOUD_FILES then "prediction_cloud_ports" else test
  {
    var rest := "[" + parameters;
    FileOfLonger(test, rest);
    assert test + rest == Parameterized(test, parameters);
    BeforeBracketOf(test, parameters);
  }

  /** So two parameterizations of a test always run in one shard, and so do all tests that need the shared ports. */
  lemma {:induction false} ParametersShareShard(hash: string -> nat, service: Service, test: string, one: string,
        other: string)
    requires '[' !in test && HasSeparator(test)
    ensures BucketOf(hash, service, Parameterized(test, one)) == BucketOf(hash, service, Parameterized(test, other))
  {
    ParametersShareKey(test, one);
    ParametersShareKey(test, other);
    GroupsStayTogether(hash, service, Parameterized(test, one), Parameterized(test, other));
  }

  lemma {:induction false} PortsShareShard(hash: string -> nat, service: Service, x: string, y: string)
    requires FileOf(x) in {"tests/test_prediction_cloud.py", "tests/test_prediction_client.py"}
    requires FileOf(y) in {"tests/test_prediction_cloud.py", "tests/test_prediction_client.py"}
    ensures BucketOf(hash, service, x) == BucketOf(hash, service, y)
  {
    GroupsStayTogether(hash, service, x, y);
  }

  /** Which shard a node is in is the hash of its group key, modulo the number of shards. */
  lemma {:induction false} BucketIsHash(hash: string -> nat, service: Service, node: string)
    requires service == Prediction || !("tests/test_lp410_launchd_recovery.py::" <= node)
    ensures BucketOf(hash, service, node) == hash(GroupKey(node)) % (if service == Prediction then 3 else 4) + 1
  {
  }

  /** The recovery tests of the advisory service run only in the first two of its four shards. */
  lemma {:induction false} RecoveryInFirstTwo(hash: string -> nat, nodes: seq<string>, index: int, x: string)
    requires "tests/test_lp410_launchd_recovery.py::" <= x && index > 2
    ensures multiset(Shard(hash, ReleaseAdvisory, nodes, index))[x] == 0
  {
    ShardMembers(hash, ReleaseAdvisory, nodes, index, x);
  }

  // ---------------------------------------------------------------- the partition proof

  datatype Scope = Gateway | Legacy | Account | PredictionScope

  /** Reviewed policies: files whose tests are retired, and tests that are optional. */
  datatype Policy = Policy(retiredFiles: seq<string>, optionalNodes: seq<string>)

  type Partitions = map<Scope, seq<string>>

  datatype Proof = Proof(
    policy: Policy, complete: seq<string>, partitions: Partitions, retired: seq<string>, optional: seq<string>,
    completeCount: nat, executedCount: nat, retiredCount: nat, optionalCount: nat, counts: map<Scope, nat>,
    completeHash: string, executedHash: string, retiredHash: string, optionalHash: string, coverageHash: string)

  type Digest = seq<string> -> string

  function Fingerprint(digest: Digest, nodes: seq<string>): string {
    digest(Sort(nodes))
  }

  predicate HasScopes(partitions: Partitions) {
    Gateway in partitions && Legacy in partitions && Account in partitions && PredictionScope in partitions
  }

  function Executed(partitions: Partitions): seq<string>
    requires HasScopes(partitions)
  {
    partitions[Gateway] + partitions[Legacy] + partitions[Account] + partitions[PredictionScope]
  }

  predicate WellFormed(nodes: seq<string>) {
    (forall i :: 0 <= i < |nodes| ==> HasSeparator(nodes[i])) && Distinct(nodes)
  }

  predicate Disjoint(a: seq<string>, b: seq<string>) {
    forall x :: x in a ==> x !in b
  }

  predicate SameMembers(a: seq<string>, b: seq<string>) {
    (forall x :: x in a ==> x in b) && (forall x :: x in b ==> x in a)
  }

  predicate Verified(policy: Policy, complete: seq<string>, partitions: Partitions, retired: seq<string>,
        optional: seq<string>) {
    && optional == policy.optionalNodes
    && HasScopes(partitions) && complete != [] && (forall s :: s in partitions ==> partitions[s] != [])
    && var executed := Executed(partitions);
    && WellFormed(complete) && WellFormed(executed) && WellFormed(retired) && WellFormed(optional)
    && Disjoint(optional, executed) && Disjoint(optional, retired) && Disjoint(executed, retired)
    && (forall x :: x in retired ==> FileOf(x) in policy.retiredFiles)
    && (forall x :: x in executed ==> FileOf(x) !in policy.retiredFiles)
    && SameMembers(complete, executed + retired + optional)
  }

  function SortAll(partitions: Partitions): Partitions {
    map s | s in partitions :: Sort(partitions[s])
  }

  function Describe(digest: Digest, policy: Policy, complete: seq<string>, partitions: Partitions, retired: seq<string>,
        optional: seq<string>): Proof
    requires HasScopes(partitions)
  {
    var executed := Executed(partitions);
    Proof(policy, Sort(complete), SortAll(partitions), Sort(retired), optional,
          |complete|, |executed|, |retired|, |optional|, Counts(partitions),
          Fingerprint(digest, complete), Fingerprint(digest, executed), Fingerprint(digest, retired),
          Fingerprint(digest, optional), Fingerprint(digest, executed + retired + optional))
  }

  /** `verify_partition`. */
  function Verify(digest: Digest, policy: Policy, complete: seq<string>, partitions: Partitions, retired: seq<string>,
        optional: seq<string>): Result<Proof, Error> {
    if Verified(policy, complete, partitions, retired, optional)
    then Ok(Describe(digest, policy, complete, partitions, retired, optional)) else Err(Mismatch)
  }

  /** `validate_partition`: recompute the proof from its own lists. */
  predicate ValidProof(digest: Digest, policy: Policy, proof: Proof) {
    Verify(digest, policy, proof.complete, proof.partitions, proof.retired, proof.optional) == Ok(proof)
  }

  // ---------------------------------------------------------------- the proof is a fixpoint

  lemma {:induction false} SameElements(a: seq<string>, b: seq<string>)
    requires multiset(a) == multiset(b)
    ensures |a| == |b| && SameMembers(a, b) && (Distinct(a) ==> Distinct(b))
  {
    assert |multiset(a)| == |a| && |multiset(b)| == |b|;
    assert forall x :: x in a <==> x in multiset(a);
    assert forall x :: x in b <==> x in multiset(b);
  }

  lemma {:induction false} WellFormedKept(a: seq<string>, b: seq<string>)
    requires multiset(a) == multiset(b) && WellFormed(a)
    ensures WellFormed(b)
  {
    SameElements(a, b);
    forall i | 0 <= i < |b| ensures HasSeparator(b[i]) {
      assert b[i] in a;
      var j :| 0 <= j < |a| && a[j] == b[i];
    }
  }

  /** Verification looks only at which nodes the lists hold. */
  lemma {:induction false} VerifiedKept(policy: Policy, complete: seq<string>, partitions: Partitions,
        retired: seq<string>, optional: seq<string>)
    requires Verified(policy, complete, partitions, retired, optional)
    ensures Verified(policy, Sort(complete), SortAll(partitions), Sort(retired), optional)
    ensures multiset(Executed(SortAll(partitions))) == multiset(Executed(partitions))
  {
    var sorted := SortAll(partitions);
    var executed, executed' := Executed(partitions), Executed(sorted);
    assert multiset(executed') == multiset(executed);
    forall s | s in sorted ensures sorted[s] != [] {
      SameElements(partitions[s], sorted[s]);
    }
    SameElements(complete, Sort(complete));
    SameElements(retired, Sort(retired));
    SameElements(executed, executed');
    WellFormedKept(complete, Sort(complete));
    WellFormedKept(retired, Sort(retired));
    WellFormedKept(executed, executed');
  }

  lemma {:induction false} SortAllAgain(partitions: Partitions)
    ensures SortAll(SortAll(partitions)) == SortAll(partitions)
    ensures forall s :: s in partitions ==> |SortAll(partitions)[s]| == |partitions[s]|
  {
    forall s | s in partitions ensures Sort(Sort(partitions[s])) == Sort(partitions[s])
      && |Sort(partitions[s])| == |partitions[s]| {
      SortIdempotent(partitions[s]);
      SameElements(partitions[s], Sort(partitions[s]));
    }
  }

  lemma {:induction false} FingerprintAgain(digest: Digest, a: seq<string>, b: seq<string>)
    requires multiset(a) == multiset(b)
    ensures Fingerprint(digest, a) == Fingerprint(digest, b) && |a| == |b|
  {
    SortOfPermutation(a, b);
    SameElements(a, b);
  }

  function Counts(partitions: Partitions): map<Scope, nat> {
    map s | s in partitions :: |partitions[s]|
  }

  /** The description depends only on which nodes the lists hold. */
  lemma {:induction false} DescribeSame(digest: Digest, policy: Policy, complete: seq<string>, partitions: Partitions,
        retired: seq<string>, optional: seq<string>,
                     complete': seq<string>, partitions': Partitions, retired': seq<string>)
    requires HasScopes(partitions) && HasScopes(partitions')
    requires multiset(complete') == multiset(complete) && multiset(retired') == multiset(retired)
    requires multiset(Executed(partitions')) == multiset(Executed(partitions))
    requires SortAll(partitions') == SortAll(partitions) && Counts(partitions') == Counts(partitions)
    ensures Describe(digest, policy, complete', partitions', retired', optional)
         == Describe(digest, policy, complete, partitions, retired, optional)
  {
    SortOfPermutation(complete', complete);
    SortOfPermutation(retired', retired);
    FingerprintAgain(digest, complete', complete);
    FingerprintAgain(digest, retired', retired);
    FingerprintAgain(digest, Executed(partitions'), Executed(partitions));
    FingerprintAgain(digest, Executed(partitions') + retired' + optional, Executed(partitions) + retired + optional);
  }

  lemma {:induction false} SortedDescription(digest: Digest, policy: Policy, complete: seq<string>,
        partitions: Partitions, retired: seq<string>, optional: seq<string>)
    requires HasScopes(partitions) && HasScopes(SortAll(partitions))
    requires multiset(Executed(SortAll(partitions))) == multiset(Executed(partitions))
    ensures Describe(digest, policy, Sort(complete), SortAll(partitions), Sort(retired), optional)
         == Describe(digest, policy, complete, partitions, retired, optional)
  {
    SortAllAgain(partitions);
    assert Counts(SortAll(partitions)) == Counts(partitions);
    DescribeSame(digest, policy, complete, partitions, retired, optional, Sort(complete), SortAll(partitions),
      Sort(retired));
  }

  /** Whatever `verify_partition` returns, it returns again when it is given its own lists. */
  lemma {:induction false} VerifyFixpoint(digest: Digest, policy: Policy, complete: seq<string>, partitions: Partitions,
        retired: seq<string>, optional: seq<string>)
    requires Verify(digest, policy, complete, partitions, retired, optional).Ok?
    ensures ValidProof(digest, policy, Verify(digest, policy, complete, partitions, retired, optional).value)
  {
    VerifiedKept(policy, complete, partitions, retired, optional);
    SortedDescription(digest, policy, complete, partitions, retired, optional);
  }

  /** The figures of a verified proof add up, and what covers the collection has the collection's own fingerprint. */
  lemma {:induction false} ProofAddsUp(digest: Digest, policy: Policy, complete: seq<string>, partitions: Partitions,
      retired: seq<string>, optional: seq<string>)
    requires Verify(digest, policy, complete, partitions, retired, optional).Ok?
    ensures var proof := Verify(digest, policy, complete, partitions, retired, optional).value;
      && proof.completeCount == proof.executedCount + proof.retiredCount + proof.optionalCount == |complete|
      && proof.executedCount ==
           |partitions[Gateway]| + |partitions[Legacy]| + |partitions[Account]| + |partitions[PredictionScope]|
      && proof.retiredCount == |retired| && proof.optionalCount == |optional|
      && (forall s :: s in partitions ==> s in proof.counts && proof.counts[s] == |partitions[s]|)
      && proof.coverageHash == proof.completeHash == Fingerprint(digest, complete)
      && proof.executedHash == Fingerprint(digest, Executed(proof.partitions))
      && proof.retiredHash == Fingerprint(digest, proof.retired)
        && proof.optionalHash == Fingerprint(digest, proof.optional)
  {
    var executed := Executed(partitions);
    CompleteIsCombined(policy, complete, partitions, retired, optional);
    FingerprintAgain(digest, executed + retired + optional, complete);
    VerifiedKept(policy, complete, partitions, retired, optional);
    FingerprintAgain(digest, Executed(SortAll(partitions)), executed);
    FingerprintAgain(digest, Sort(retired), retired);
  }

  // ---------------------------------------------------------------- the required machines

  datatype Machine = Backend(scope: Scope) | PredictionShard(index: int) | Portable | Unexpected(text: string)

  const REQUIRED_MACHINES: set<Machine> := {
    Backend(Gateway), Backend(Legacy), Backend(Account),
    PredictionShard(1), PredictionShard(2), PredictionShard(3), Portable}

  datatype Origin = Origin(sha: string, run: string, attempt: string, status: string, exit: int)

  datatype Record = Record(machine: Machine, origin: Origin, selected: seq<string>)

  function ExpectedNodes(hash: string -> nat, proof: Proof, m: Machine): Option<seq<string>> {
    match m
    case PredictionShard(i) =>
      if PredictionScope in proof.partitions && 1 <= i <= 3 && Distinct(proof.partitions[PredictionScope])
      then Some(Shard(hash, Prediction, proof.partitions[PredictionScope], i)) else None
    case Backend(s) => if s in proof.partitions then Some(Sort(proof.partitions[s])) else None
    case _ => None
  }

  predicate RecordValid(hash: string -> nat, proof: Proof, origin: Origin, r: Record) {
    r.origin == origin && (r.machine == Portable || ExpectedNodes(hash, proof, r.machine) == Some(r.selected))
  }

  function Machines(records: seq<Record>): set<Machine> {
    set i | 0 <= i < |records| :: records[i].machine
  }

  /** `validate_required_shards`. */
  method ValidateRequiredShards(hash: string -> nat, records: seq<Record>, proof: Proof, origin: Origin)
      returns (ok: bool)
    ensures ok <==> |records| == 7 && Machines(records) == REQUIRED_MACHINES
                    && forall i :: 0 <= i < |records| ==> RecordValid(hash, proof, origin, records[i])
  {
    if |records| != 7 || Machines(records) != REQUIRED_MACHINES { return false; }
    for i := 0 to |records|
      invariant forall j :: 0 <= j < i ==> RecordValid(hash, proof, origin, records[j])
    {
      if !RecordValid(hash, proof, origin, records[i]) { return false; }
    }
    return true;
  }

  ghost predicate ShardsAccepted(hash: string -> nat, records: seq<Record>, proof: Proof, origin: Origin) {
    |records| == 7 && Machines(records) == REQUIRED_MACHINES && forall i :: 0 <= i < |records| ==>
      RecordValid(hash, proof, origin, records[i])
  }

  /** In a verified partition the retired tests are exactly those of the retired files that are not optional. */
  lemma {:induction false} RetiredExactly(policy: Policy, complete: seq<string>, partitions: Partitions,
      retired: seq<string>, optional: seq<string>, x: string)
    requires Verified(policy, complete, partitions, retired, optional)
    ensures x in retired <==> x in complete && x !in optional && FileOf(x) in policy.retiredFiles
    ensures x in optional <==> x in complete && x in policy.optionalNodes
    ensures x in complete ==> HasSeparator(x)
  {
    var all := Executed(partitions) + retired + optional;
    assert x in all <==> x in Executed(partitions) || x in retired || x in optional;
    if x in complete { var i :| 0 <= i < |complete| && complete[i] == x; }
  }

  /** What the machines other than the portable one executed, over all records. */
  function BackendNodes(records: seq<Record>): multiset<string> {
    if records == [] then multiset{}
    else BackendNodes(records[..|records| - 1])
         + if records[|records| - 1].machine == Portable then multiset{} else multiset(records[|records| - 1].selected)
  }

  // ---------------------------------------------------------------- exact coverage

  /** The machine that has to execute `x`. */
  function Owner(hash: string -> nat, partitions: Partitions, x: string): Machine
    requires HasScopes(partitions)
  {
    if x in partitions[Gateway] then Backend(Gateway)
    else if x in partitions[Legacy] then Backend(Legacy)
    else if x in partitions[Account] then Backend(Account)
    else if x in partitions[PredictionScope] then PredictionShard(BucketOf(hash, Prediction, x))
    else Portable
  }

  function Count(nodes: seq<string>, x: string): nat {
    multiset(nodes)[x]
  }

  /** A node is executed at most once, so it is in at most one scope, and its owner says which. */
  lemma {:induction false} OneScope(hash: string -> nat, ps: Partitions, x: string)
    requires HasScopes(ps) && Distinct(Executed(ps))
    ensures var owner := Owner(hash, ps, x);
      && Count(ps[Gateway], x) == (if owner == Backend(Gateway) then 1 else 0)
      && Count(ps[Legacy], x) == (if owner == Backend(Legacy) then 1 else 0)
      && Count(ps[Account], x) == (if owner == Backend(Account) then 1 else 0)
      && Count(ps[PredictionScope], x) == (if owner.PredictionShard? then 1 else 0)
      && Count(Executed(ps), x) == (if owner == Portable then 0 else 1)
      && (owner.PredictionShard? ==> owner.index == BucketOf(hash, Prediction, x))
  {
    var executed := Executed(ps);
    assert Count(executed, x) == Count(ps[Gateway], x) + Count(ps[Legacy], x) + Count(ps[Account],
      x) + Count(ps[PredictionScope], x);
    assert x in executed <==> x in multiset(executed);
  }

  lemma {:induction false} BackendHolds(hash: string -> nat, ps: Partitions, s: Scope, x: string)
    requires HasScopes(ps) && Distinct(Executed(ps)) && s != PredictionScope
    ensures Count(Sort(ps[s]), x) == if Owner(hash, ps, x) == Backend(s) then 1 else 0
  {
    OneScope(hash, ps, x);
  }

  lemma {:induction false} ShardHolds(hash: string -> nat, ps: Partitions, i: int, x: string)
    requires HasScopes(ps) && Distinct(Executed(ps))
    ensures Count(Shard(hash, Prediction, ps[PredictionScope], i), x)
         == if Owner(hash, ps, x) == PredictionShard(i) then 1 else 0
  {
    OneScope(hash, ps, x);
    ShardMembers(hash, Prediction, ps[PredictionScope], i, x);
  }

  /** A record holds a node once if its machine owns the node, and not at all otherwise. */
  lemma {:induction false} RecordHolds(hash: string -> nat, proof: Proof, origin: Origin, r: Record, x: string)
    requires HasScopes(proof.partitions) && Distinct(Executed(proof.partitions))
    requires RecordValid(hash, proof, origin, r) && r.machine in REQUIRED_MACHINES && r.machine != Portable
    ensures Count(r.selected, x) == if r.machine == Owner(hash, proof.partitions, x) then 1 else 0
  {
    match r.machine {
      case Backend(s) => BackendHolds(hash, proof.partitions, s, x);
      case PredictionShard(i) => ShardHolds(hash, proof.partitions, i, x);
    }
  }

  /** Records that hold a node exactly when their machine owns it hold it once together. */
  lemma {:induction false} PrefixHolds(records: seq<Record>, owner: Machine, x: string)
    requires forall i :: 0 <= i < |records| && records[i].machine != Portable ==>
      Count(records[i].selected, x) == if records[i].machine == owner then 1 else 0
    requires forall i, j :: 0 <= i < j < |records| ==> records[i].machine != records[j].machine
    ensures BackendNodes(records)[x] == if owner != Portable && owner in Machines(records) then 1 else 0
  {
    if records == [] {
    } else {
      var before, last := records[..|records| - 1], records[|records| - 1];
      PrefixHolds(before, owner, x);
      assert Machines(records) == Machines(before) + {last.machine};
      assert last.machine !in Machines(before);
      assert Count(last.selected, x) == multiset(last.selected)[x];
    }
  }

  lemma {:induction false} MachinesLast(records: seq<Record>)
    requires records != []
    ensures Machines(records) == Machines(records[..|records| - 1]) + {records[|records| - 1].machine}
    ensures forall i :: 0 <= i < |records| - 1 ==> records[i].machine in Machines(records[..|records| - 1])
  {
    var before := records[..|records| - 1];
    assert forall i :: 0 <= i < |before| ==> before[i] == records[i];
  }

  lemma {:induction false} AsManyAsMachines(records: seq<Record>)
    ensures |Machines(records)| <= |records|
    ensures |Machines(records)| == |records| ==>
      forall i, j :: 0 <= i < j < |records| ==> records[i].machine != records[j].machine
  {
    if records != [] {
      var before, last := records[..|records| - 1], records[|records| - 1];
      AsManyAsMachines(before);
      MachinesLast(records);
      if |Machines(records)| == |records| {
        assert last.machine !in Machines(before);
        forall i, j | 0 <= i < j < |records| ensures records[i].machine != records[j].machine {
          if j < |before| { assert before[i].machine != before[j].machine; }
        }
      }
    }
  }

  lemma {:induction false} SevenMachines()
    ensures |REQUIRED_MACHINES| == 7
  {
    var backends: set<Machine> := {Backend(Gateway), Backend(Legacy), Backend(Account)};
    var shards: set<Machine> := {PredictionShard(1), PredictionShard(2), PredictionShard(3)};
    assert REQUIRED_MACHINES == backends + shards + {Portable};
    assert |backends| == 3 && |shards| == 3 && backends !! shards && |backends + shards| == 6;
  }

  lemma {:induction false} RecordsHold(hash: string -> nat, records: seq<Record>, proof: Proof, origin: Origin,
        x: string)
    requires ShardsAccepted(hash, records, proof, origin)
    requires HasScopes(proof.partitions) && Distinct(Executed(proof.partitions))
    ensures BackendNodes(records)[x] == Count(Executed(proof.partitions), x)
  {
    var owner := Owner(hash, proof.partitions, x);
    EachRecordHolds(hash, records, proof, origin, x);
    OneRecordEach(hash, records, proof, origin);
    PrefixHolds(records, owner, x);
    OneScope(hash, proof.partitions, x);
    OwnerRequired(hash, proof.partitions, x);
  }

  lemma {:induction false} EachRecordHolds(hash: string -> nat, records: seq<Record>, proof: Proof, origin: Origin,
        x: string)
    requires ShardsAccepted(hash, records, proof, origin)
    requires HasScopes(proof.partitions) && Distinct(Executed(proof.partitions))
    ensures forall i :: 0 <= i < |records| && records[i].machine != Portable ==>
      Count(records[i].selected, x) == if records[i].machine == Owner(hash, proof.partitions, x) then 1 else 0
  {
    forall i | 0 <= i < |records| && records[i].machine != Portable
      ensures Count(records[i].selected, x) == if records[i].machine == Owner(hash, proof.partitions, x) then 1 else 0
    {
      assert records[i].machine in Machines(records);
      RecordHolds(hash, proof, origin, records[i], x);
    }
  }

  /** Seven records for seven machines: none is repeated. */
  lemma {:induction false} OneRecordEach(hash: string -> nat, records: seq<Record>, proof: Proof, origin: Origin)
    requires ShardsAccepted(hash, records, proof, origin)
    ensures forall i, j :: 0 <= i < j < |records| ==> records[i].machine != records[j].machine
  {
    SevenMachines();
    AsManyAsMachines(records);
  }

  lemma {:induction false} OwnerRequired(hash: string -> nat, ps: Partitions, x: string)
    requires HasScopes(ps)
    ensures Owner(hash, ps, x) in REQUIRED_MACHINES
  {
  }

  /** What the accepted records executed is exactly the executed part of the proof. */
  lemma {:induction false} RecordsExecute(hash: string -> nat, records: seq<Record>, proof: Proof, origin: Origin)
    requires ShardsAccepted(hash, records, proof, origin)
    requires HasScopes(proof.partitions) && Distinct(Executed(proof.partitions))
    ensures BackendNodes(records) == multiset(Executed(proof.partitions))
  {
    forall x ensures BackendNodes(records)[x] == multiset(Executed(proof.partitions))[x] {
      RecordsHold(hash, records, proof, origin, x);
    }
  }

  lemma {:induction false} CompleteIsCombined(policy: Policy, complete: seq<string>, partitions: Partitions,
        retired: seq<string>, optional: seq<string>)
    requires Verified(policy, complete, partitions, retired, optional)
    ensures multiset(complete) == multiset(Executed(partitions)) + multiset(retired) + multiset(optional)
  {
    var executed := Executed(partitions);
    forall x ensures multiset(complete)[x] == multiset(executed)[x] + multiset(retired)[x] + multiset(optional)[x] {
      assert x in complete <==> x in executed + retired + optional;
      assert x in executed + retired + optional <==> x in executed || x in retired || x in optional;
    }
  }

  /**
   If the partition proof and the required shards are accepted, the collected tests are, each exactly once,
   the tests that the backend machines executed together with the retired and the optional ones.
  */
  lemma {:induction false} CoveredExactlyOnce(hash: string -> nat, digest: Digest, policy: Policy,
        complete: seq<string>, partitions: Partitions,
                           retired: seq<string>, optional: seq<string>, records: seq<Record>, origin: Origin)
    requires Verify(digest, policy, complete, partitions, retired, optional).Ok?
    requires ShardsAccepted(hash, records, Verify(digest, policy, complete, partitions, retired, optional).value,
      origin)
    ensures multiset(complete) == BackendNodes(records) + multiset(retired) + multiset(optional)
    ensures Distinct(complete)
    ensures forall i :: 0 <= i < |records| ==> records[i].origin == origin
  {
    var proof := Verify(digest, policy, complete, partitions, retired, optional).value;
    VerifiedKept(policy, complete, partitions, retired, optional);
    RecordsExecute(hash, records, proof, origin);
    CompleteIsCombined(policy, complete, partitions, retired, optional);
  }
}

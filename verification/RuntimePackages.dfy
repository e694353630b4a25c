/**
 The dependency closure of the lock file (`verify_runtime_packages` in
 scripts/deployment_preflight.py): a worklist over dependency edges, with an expansion
 set that makes it end on cyclic lock graphs.
*/
module RuntimePackages {
  import opened Prelude

  datatype Origin = PyPI | Elsewhere(text: string)

  /** `supported` says that the edge has no unknown keys; `listed` that its extras are a list. */
  datatype Edge = Edge(
    name: string, version: Option<string>, origin: Option<Origin>, marker: Option<string>,
    extras: seq<string>, supported: bool, listed: bool)

  datatype Package = Package(
    version: string, origin: Origin, markers: seq<string>,
    dependencies: seq<Edge>, optional: map<string, seq<Edge>>)

  /** The lock by normalized name, the environment's markers, and what is installed. */
  datatype Lock = Lock(
    packages: map<string, seq<Package>>, holds: string -> bool,
    normalize: string -> string, installed: map<string, string>)

  // ---------------------------------------------------------------- one edge

  /** An empty marker counts as none. */
  predicate Active(lock: Lock, e: Edge) {
    e.marker.Some? && e.marker.value != "" ==> lock.holds(e.marker.value)
  }

  function NameOf(lock: Lock, e: Edge): string {
    lock.normalize(e.name)
  }

  predicate Applies(lock: Lock, e: Edge, p: Package) {
    && (e.version.Some? ==> p.version == e.version.value)
    && (e.origin.Some? ==> p.origin == e.origin.value)
    && (p.markers == [] || exists i :: 0 <= i < |p.markers| && lock.holds(p.markers[i]))
  }

  function Filter(lock: Lock, e: Edge, ps: seq<Package>): (r: seq<Package>)
    ensures forall p :: p in r <==> p in ps && Applies(lock, e, p)
  {
    if ps == [] then []
    else
      var rest := Filter(lock, e, ps[1..]);
      assert forall p :: p in ps <==> p == ps[0] || p in ps[1..];
      if Applies(lock, e, ps[0]) then [ps[0]] + rest else rest
  }

  function Choices(lock: Lock, e: Edge): seq<Package> {
    if NameOf(lock, e) in lock.packages then Filter(lock, e, lock.packages[NameOf(lock, e)]) else []
  }

  predicate Resolved(lock: Lock, e: Edge) {
    Active(lock, e) && |Choices(lock, e)| == 1
  }

  function Chosen(lock: Lock, e: Edge): Package
    requires Resolved(lock, e)
  {
    Choices(lock, e)[0]
  }

  predicate Installed(lock: Lock, name: string, version: string) {
    name in lock.installed && lock.installed[name] == version
  }

  /** Nothing about this edge is refused. */
  predicate Good(lock: Lock, e: Edge) {
    && e.supported
    && (Active(lock, e) ==>
          && Resolved(lock, e)
          && Chosen(lock, e).origin == PyPI
          && Installed(lock, NameOf(lock, e), Chosen(lock, e).version)
          && e.listed
          && forall i :: 0 <= i < |e.extras| ==> e.extras[i] in Chosen(lock, e).optional)
  }

  /** The edges of the selected extras that exist, in order. */
  function ExtraEdges(optional: map<string, seq<Edge>>, extras: seq<string>): seq<Edge> {
    if extras == [] then []
    else
      var last := extras[|extras| - 1];
      ExtraEdges(optional, extras[..|extras| - 1]) + if last in optional then optional[last] else []
  }

  function Children(lock: Lock, e: Edge): seq<Edge> {
    if Resolved(lock, e) then Chosen(lock, e).dependencies + ExtraEdges(Chosen(lock, e).optional, e.extras) else []
  }

  // ---------------------------------------------------------------- reachability

  ghost predicate IsPath(lock: Lock, roots: seq<Edge>, path: seq<Edge>) {
    && path != [] && path[0] in roots
    && forall i :: 0 <= i < |path| - 1 ==> path[i + 1] in Children(lock, path[i])
  }

  ghost predicate Reachable(lock: Lock, roots: seq<Edge>, e: Edge) {
    exists path :: IsPath(lock, roots, path) && path[|path| - 1] == e
  }

  lemma {:induction false} RootReachable(lock: Lock, roots: seq<Edge>, e: Edge)
    requires e in roots
    ensures Reachable(lock, roots, e)
  {
    assert IsPath(lock, roots, [e]);
  }

  lemma {:induction false} ChildReachable(lock: Lock, roots: seq<Edge>, e: Edge, child: Edge)
    requires Reachable(lock, roots, e) && child in Children(lock, e)
    ensures Reachable(lock, roots, child)
  {
    var path :| IsPath(lock, roots, path) && path[|path| - 1] == e;
    var longer := path + [child];
    assert IsPath(lock, roots, longer) by {
      forall i | 0 <= i < |longer| - 1 ensures longer[i + 1] in Children(lock, longer[i]) {
        if i < |path| - 1 { assert path[i + 1] in Children(lock, path[i]); }
      }
    }
  }

  /** A set that contains the roots and is closed under `Children` contains everything reachable. */
  lemma {:induction false} PathStaysInside(lock: Lock, roots: seq<Edge>, path: seq<Edge>, inside: set<Edge>)
    requires IsPath(lock, roots, path)
    requires forall e :: e in roots ==> e in inside
    requires forall e, c :: e in inside && c in Children(lock, e) ==> c in inside
    ensures path[|path| - 1] in inside
  {
    if |path| > 1 {
      var shorter := path[..|path| - 1];
      assert IsPath(lock, roots, shorter);
      PathStaysInside(lock, roots, shorter, inside);
      assert path[|path| - 2 + 1] in Children(lock, path[|path| - 2]);
    }
  }

  // ---------------------------------------------------------------- what the result must be

  ghost function Reach(lock: Lock, roots: seq<Edge>): iset<Edge> {
    iset e | Reachable(lock, roots, e)
  }

  ghost predicate AllGood(lock: Lock, reach: iset<Edge>) {
    forall e :: e in reach ==> Good(lock, e)
  }

  predicate Selects(lock: Lock, e: Edge, name: string, version: string) {
    Resolved(lock, e) && NameOf(lock, e) == name && Chosen(lock, e).version == version
  }

  /** Exactly the packages that active edges reach, each at its locked version, which is installed. */
  ghost predicate IsClosure(lock: Lock, reach: iset<Edge>, expected: map<string, string>) {
    && (forall n :: n in expected ==>
      Installed(lock, n, expected[n]) && exists e :: e in reach && Selects(lock, e, n, expected[n]))
    && (forall e :: e in reach && Active(lock, e) ==>
      NameOf(lock, e) in expected && Selects(lock, e, NameOf(lock, e), expected[NameOf(lock, e)]))
  }

  lemma {:induction false} ClosureWithin(lock: Lock, reach: iset<Edge>, a: map<string, string>, b: map<string, string>,
        n: string)
    requires IsClosure(lock, reach, a) && IsClosure(lock, reach, b) && n in a
    ensures n in b && a[n] == b[n]
  {
    var e :| e in reach && Selects(lock, e, n, a[n]);
  }

  /** Two answers to the same question are equal, whatever order the worklist took. */
  lemma {:induction false} ClosureUnique(lock: Lock, reach: iset<Edge>, a: map<string, string>, b: map<string, string>)
    requires IsClosure(lock, reach, a) && IsClosure(lock, reach, b)
    ensures a == b
  {
    forall n | n in a ensures n in b && a[n] == b[n] { ClosureWithin(lock, reach, a, b, n); }
    forall n | n in b ensures n in a { ClosureWithin(lock, reach, b, a, n); }
  }

  // ---------------------------------------------------------------- why expanding a key once is enough

  type Key = (string, seq<string>)

  function KeyOf(lock: Lock, e: Edge): Key {
    (NameOf(lock, e), e.extras)
  }

  /** Every edge that can ever be on the worklist. */
  ghost function AllEdges(lock: Lock, roots: seq<Edge>): set<Edge> {
    (set e | e in roots)
    + (set n, i, e | n in lock.packages && 0 <= i < |lock.packages[n]| && e in lock.packages[n][i].dependencies :: e)
    + (set n, i, x, e | n in lock.packages && 0 <= i < |lock.packages[n]| && x in lock.packages[n][i].optional
                        && e in lock.packages[n][i].optional[x] :: e)
  }

  lemma {:induction false} ExtraEdgesOf(optional: map<string, seq<Edge>>, extras: seq<string>, e: Edge)
    requires e in ExtraEdges(optional, extras)
    ensures exists x :: x in optional && e in optional[x]
  {
    if extras != [] {
      if e in ExtraEdges(optional, extras[..|extras| - 1]) {
        ExtraEdgesOf(optional, extras[..|extras| - 1], e);
      } else {
        assert extras[|extras| - 1] in optional;
      }
    }
  }

  /** The edges of the extras are exactly those that the named extras list. */
  lemma {:induction false} ExtraEdgesIff(optional: map<string, seq<Edge>>, extras: seq<string>, e: Edge)
    ensures e in ExtraEdges(optional, extras) <==>
      exists i :: 0 <= i < |extras| && extras[i] in optional && e in optional[extras[i]]
  {
    if extras != [] {
      var n := |extras| - 1;
      var before := extras[..n];
      ExtraEdgesIff(optional, before, e);
      assert forall i :: 0 <= i < n ==> before[i] == extras[i];
      if e in ExtraEdges(optional, before) {
        var i :| 0 <= i < |before| && before[i] in optional && e in optional[before[i]];
        assert extras[i] in optional && e in optional[extras[i]];
      }
    }
  }

  /** The package that an edge selects is listed under its name and is what the edge and the environment ask for. */
  lemma {:induction false} ChosenFits(lock: Lock, e: Edge)
    requires Resolved(lock, e)
    ensures var p, name := Chosen(lock, e), NameOf(lock, e);
      && name in lock.packages && p in lock.packages[name]
      && (e.version == None || e.version == Some(p.version)) && (e.origin == None || e.origin == Some(p.origin))
      && (p.markers == [] || exists i :: 0 <= i < |p.markers| && lock.holds(p.markers[i]))
      && forall q :: q in lock.packages[name] && q != p ==>
           || (e.version.Some? && e.version.value != q.version) || (e.origin.Some? && e.origin.value != q.origin)
           || (q.markers != [] && forall i :: 0 <= i < |q.markers| ==> !lock.holds(q.markers[i]))
  {
    assert Chosen(lock, e) in Choices(lock, e);
    forall q | q in lock.packages[NameOf(lock, e)] && q != Chosen(lock, e) ensures !Applies(lock, e, q) {
      assert q in Choices(lock, e) <==> Applies(lock, e, q);
    }
  }

  /** An edge whose marker does not hold asks for nothing; one without a marker text always applies. */
  lemma {:induction false} InactiveAsksNothing(lock: Lock, e: Edge)
    requires e.marker.Some? && e.marker.value != "" && !lock.holds(e.marker.value)
    ensures Children(lock, e) == [] && (Good(lock, e) <==> e.supported)
  {
  }

  lemma {:induction false} ChildrenInAllEdges(lock: Lock, roots: seq<Edge>, e: Edge, child: Edge)
    requires child in Children(lock, e)
    ensures child in AllEdges(lock, roots)
  {
    var p, n := Chosen(lock, e), NameOf(lock, e);
    assert p in Choices(lock, e);
    var i :| 0 <= i < |lock.packages[n]| && lock.packages[n][i] == p;
    if child !in p.dependencies {
      ExtraEdgesOf(p.optional, e.extras, child);
    }
  }

  // ---------------------------------------------------------------- the worklist

  /** The children of everything done are done or pending. */
  ghost predicate Covers(lock: Lock, done: set<Edge>, pending: seq<Edge>) {
    forall e, c :: e in done && c in Children(lock, e) ==> c in done || c in pending
  }

  /** What is done is good and recorded, and nothing else is recorded. */
  ghost predicate Recorded(lock: Lock, done: set<Edge>, expected: map<string, string>) {
    && (forall e :: e in done ==> Good(lock, e))
    && (forall e :: e in done && Active(lock, e) ==>
      NameOf(lock, e) in expected && expected[NameOf(lock, e)] == Chosen(lock, e).version)
    && (forall n :: n in expected ==> exists e :: e in done && Selects(lock, e, n, expected[n]))
  }

  ghost predicate KeysDone(lock: Lock, done: set<Edge>, expanded: set<Key>) {
    forall k :: k in expanded ==> exists e :: e in done && Active(lock, e) && KeyOf(lock, e) == k
  }

  /** An edge that passes every check but that of its extras. */
  predicate Sane(lock: Lock, e: Edge) {
    && e.supported && Resolved(lock, e) && Chosen(lock, e).origin == PyPI && e.listed
    && Installed(lock, NameOf(lock, e), Chosen(lock, e).version)
  }

  /** Both versions are the installed one, so the source's conflict check cannot fire. */
  lemma {:induction false} NoConflict(lock: Lock, done: set<Edge>, expected: map<string, string>, e: Edge)
    requires Recorded(lock, done, expected) && Sane(lock, e)
    ensures NameOf(lock, e) in expected ==> expected[NameOf(lock, e)] == Chosen(lock, e).version
  {
    var n := NameOf(lock, e);
    if n in expected {
      var f :| f in done && Selects(lock, f, n, expected[n]);
      assert Good(lock, f);
    }
  }

  lemma {:induction false} Record(lock: Lock, done: set<Edge>, expected: map<string, string>, e: Edge)
    requires Recorded(lock, done, expected) && Good(lock, e) && Active(lock, e)
    ensures Recorded(lock, done + {e}, expected[NameOf(lock, e) := Chosen(lock, e).version])
  {
    NoConflict(lock, done, expected, e);
    var n, next := NameOf(lock, e), expected[NameOf(lock, e) := Chosen(lock, e).version];
    forall m | m in next ensures exists f :: f in done + {e} && Selects(lock, f, m, next[m]) {
      if m == n {
        assert Selects(lock, e, m, next[m]);
      } else {
        var f :| f in done && Selects(lock, f, m, expected[m]);
      }
    }
  }

  lemma {:induction false} RecordInactive(lock: Lock, done: set<Edge>, expected: map<string, string>, e: Edge)
    requires Recorded(lock, done, expected) && Good(lock, e) && !Active(lock, e)
    ensures Recorded(lock, done + {e}, expected)
  {
    forall m | m in expected ensures exists f :: f in done + {e} && Selects(lock, f, m, expected[m]) {
      var f :| f in done && Selects(lock, f, m, expected[m]);
    }
  }

  /** The package of an expanded key is the one whose extras were checked when it was expanded. */
  lemma {:induction false} SamePackage(lock: Lock, e: Edge, f: Edge)
    requires Sane(lock, e) && Good(lock, f) && Active(lock, f) && KeyOf(lock, f) == KeyOf(lock, e)
    ensures Good(lock, e) && Children(lock, e) == Children(lock, f)
  {
    assert Chosen(lock, f) in Choices(lock, f) && Chosen(lock, e) in Choices(lock, e);
    assert Chosen(lock, f) in Choices(lock, e);
    assert Chosen(lock, e) == Chosen(lock, f);
  }

  lemma {:induction false} KnownKey(lock: Lock, done: set<Edge>, expected: map<string, string>, expanded: set<Key>,
        pending: seq<Edge>, e: Edge)
    requires Recorded(lock, done, expected) && KeysDone(lock, done, expanded) && Covers(lock, done, pending)
    requires Sane(lock, e) && KeyOf(lock, e) in expanded
    ensures Good(lock, e) && forall c :: c in Children(lock, e) ==> c in done || c in pending
  {
    var f :| f in done && Active(lock, f) && KeyOf(lock, f) == KeyOf(lock, e);
    SamePackage(lock, e, f);
  }

  /** Popping an edge whose children are covered keeps everything covered. */
  lemma {:induction false} CoversDrop(lock: Lock, done: set<Edge>, pending: seq<Edge>)
    requires pending != [] && Covers(lock, done, pending)
    requires forall c :: c in Children(lock, pending[|pending| - 1]) ==> c in done || c in pending
    ensures Covers(lock, done + {pending[|pending| - 1]}, pending[..|pending| - 1])
  {
    var e, rest := pending[|pending| - 1], pending[..|pending| - 1];
    assert forall x :: x in pending ==> x in rest || x == e;
  }

  lemma {:induction false} CoversExpand(lock: Lock, done: set<Edge>, pending: seq<Edge>)
    requires pending != [] && Covers(lock, done, pending)
    ensures var e := pending[|pending| - 1];
      Covers(lock, done + {e}, pending[..|pending| - 1] + Children(lock, e))
  {
    var e, rest := pending[|pending| - 1], pending[..|pending| - 1];
    assert forall x :: x in pending ==> x in rest || x == e;
  }

  lemma {:induction false} KeysGrow(lock: Lock, done: set<Edge>, expanded: set<Key>, e: Edge)
    requires KeysDone(lock, done, expanded)
    ensures KeysDone(lock, done + {e}, expanded)
  {
    forall k | k in expanded ensures exists f :: f in done + {e} && Active(lock, f) && KeyOf(lock, f) == k {
      var f :| f in done && Active(lock, f) && KeyOf(lock, f) == k;
      assert f in done + {e};
    }
  }

  lemma {:induction false} KeyAdded(lock: Lock, done: set<Edge>, expanded: set<Key>, e: Edge)
    requires KeysDone(lock, done, expanded) && Active(lock, e)
    ensures KeysDone(lock, done + {e}, expanded + {KeyOf(lock, e)})
  {
    forall k | k in expanded + {KeyOf(lock, e)} ensures exists f ::
      f in done + {e} && Active(lock, f) && KeyOf(lock, f) == k {
      if k in expanded {
        var f :| f in done && Active(lock, f) && KeyOf(lock, f) == k;
        assert f in done + {e};
      } else {
        assert e in done + {e};
      }
    }
  }

  ghost predicate Within(lock: Lock, roots: seq<Edge>, edges: seq<Edge>) {
    forall e :: e in edges ==> e in Reach(lock, roots) && e in AllEdges(lock, roots)
  }

  lemma {:induction false} ChildrenWithin(lock: Lock, roots: seq<Edge>, e: Edge)
    requires e in Reach(lock, roots)
    ensures Within(lock, roots, Children(lock, e))
  {
    forall c | c in Children(lock, e) ensures c in Reach(lock, roots) && c in AllEdges(lock, roots) {
      ChildReachable(lock, roots, e, c);
      ChildrenInAllEdges(lock, roots, e, c);
    }
  }

  lemma {:induction false} RootsWithin(lock: Lock, roots: seq<Edge>)
    ensures Within(lock, roots, roots)
  {
    forall e | e in roots ensures e in Reach(lock, roots) { RootReachable(lock, roots, e); }
  }

  lemma {:induction false} AllDone(lock: Lock, roots: seq<Edge>, done: set<Edge>)
    requires Covers(lock, done, []) && (forall e :: e in roots ==> e in done)
    ensures forall e :: e in Reach(lock, roots) ==> e in done
  {
    forall e | e in Reach(lock, roots) ensures e in done {
      var path :| IsPath(lock, roots, path) && path[|path| - 1] == e;
      PathStaysInside(lock, roots, path, done);
    }
  }

  lemma {:induction false} FinishedIsClosure(lock: Lock, reach: iset<Edge>, expected: map<string, string>,
        done: set<Edge>)
    requires forall e :: e in done <==> e in reach
    requires Recorded(lock, done, expected)
    ensures AllGood(lock, reach) && IsClosure(lock, reach, expected)
  {
    forall n | n in expected ensures Installed(lock, n, expected[n]) && exists e ::
      e in reach && Selects(lock, e, n, expected[n]) {
      var e :| e in done && Selects(lock, e, n, expected[n]);
      assert Good(lock, e) && e in reach;
    }
  }

  datatype Refusal = BadPython | BadProject | BadRuntimeExtra | BadEdge | BadExtra

  ghost function Keys(lock: Lock, roots: seq<Edge>): set<Key> {
    set e | e in AllEdges(lock, roots) :: KeyOf(lock, e)
  }

  /** Everything the loop keeps true. */
  ghost predicate Progress(lock: Lock, roots: seq<Edge>, pending: seq<Edge>, expected: map<string, string>,
        expanded: set<Key>, done: set<Edge>) {
    && Within(lock, roots, pending) && (forall e :: e in done ==> e in Reach(lock, roots))
    && (forall e :: e in roots ==> e in done || e in pending)
    && Covers(lock, done, pending) && Recorded(lock, done, expected) && KeysDone(lock, done, expanded)
  }

  lemma {:induction false} PopInactive(lock: Lock, roots: seq<Edge>, pending: seq<Edge>, expected: map<string, string>,
        expanded: set<Key>, done: set<Edge>)
    requires pending != [] && Progress(lock, roots, pending, expected, expanded, done)
    requires var e := pending[|pending| - 1]; Good(lock, e) && !Active(lock, e)
    ensures Progress(lock, roots, pending[..|pending| - 1], expected, expanded, done + {pending[|pending| - 1]})
  {
    var e, rest := pending[|pending| - 1], pending[..|pending| - 1];
    assert forall x :: x in pending <==> x in rest || x == e;
    RecordInactive(lock, done, expected, e);
    KeysGrow(lock, done, expanded, e);
    CoversDrop(lock, done, pending);
  }

  lemma {:induction false} PopKnown(lock: Lock, roots: seq<Edge>, pending: seq<Edge>, expected: map<string, string>,
        expanded: set<Key>, done: set<Edge>)
    requires pending != [] && Progress(lock, roots, pending, expected, expanded, done)
    requires Good(lock, pending[|pending| - 1]) && Active(lock, pending[|pending| - 1])
    requires forall c :: c in Children(lock, pending[|pending| - 1]) ==> c in done || c in pending
    ensures var e := pending[|pending| - 1];
      Progress(lock, roots, pending[..|pending| - 1], expected[NameOf(lock, e) := Chosen(lock, e).version], expanded,
        done + {e})
  {
    var e, rest := pending[|pending| - 1], pending[..|pending| - 1];
    assert forall x :: x in pending <==> x in rest || x == e;
    Record(lock, done, expected, e);
    KeysGrow(lock, done, expanded, e);
    CoversDrop(lock, done, pending);
  }

  lemma {:induction false} PopExpand(lock: Lock, roots: seq<Edge>, pending: seq<Edge>, expected: map<string, string>,
        expanded: set<Key>, done: set<Edge>)
    requires pending != [] && Progress(lock, roots, pending, expected, expanded, done)
    requires var e := pending[|pending| - 1]; Good(lock, e) && Active(lock, e)
    ensures var e := pending[|pending| - 1];
      Progress(lock, roots, pending[..|pending| - 1] + Children(lock, e),
        expected[NameOf(lock, e) := Chosen(lock, e).version],
               expanded + {KeyOf(lock, e)}, done + {e})
  {
    var e, rest := pending[|pending| - 1], pending[..|pending| - 1];
    assert forall x :: x in pending <==> x in rest || x == e;
    Record(lock, done, expected, e);
    KeyAdded(lock, done, expanded, e);
    ChildrenWithin(lock, roots, e);
    CoversExpand(lock, done, pending);
  }

  lemma {:induction false} Finished(lock: Lock, roots: seq<Edge>, expected: map<string, string>, expanded: set<Key>,
        done: set<Edge>)
    requires Progress(lock, roots, [], expected, expanded, done)
    ensures AllGood(lock, Reach(lock, roots)) && IsClosure(lock, Reach(lock, roots), expected)
  {
    AllDone(lock, roots, done);
    FinishedIsClosure(lock, Reach(lock, roots), expected, done);
  }

  /** Moving one pending edge to the end. */
  function ToEnd(pending: seq<Edge>, k: nat): (moved: seq<Edge>)
    requires k < |pending|
    ensures |moved| == |pending| && moved[|moved| - 1] == pending[k]
    ensures forall e :: e in moved <==> e in pending
  {
    assert pending == pending[..k] + [pending[k]] + pending[k + 1..];
    pending[..k] + pending[k + 1..] + [pending[k]]
  }

  lemma {:induction false} ProgressToEnd(lock: Lock, roots: seq<Edge>, pending: seq<Edge>, k: nat, expected: map<string,
        string>, expanded: set<Key>, done: set<Edge>)
    requires k < |pending| && Progress(lock, roots, pending, expected, expanded, done)
    ensures Progress(lock, roots, ToEnd(pending, k), expected, expanded, done)
  {
  }

  /**
   One turn of the loop, for the last pending edge: it is refused, or its package is recorded, and its
   dependencies become pending unless its name and extras were expanded before.
  */
  method Visit(lock: Lock, ghost roots: seq<Edge>, pending: seq<Edge>, expected: map<string, string>,
        expanded: set<Key>, ghost done: set<Edge>)
    returns (refusal: Option<Refusal>, left: seq<Edge>, recorded: map<string, string>, keys: set<Key>)
    requires pending != [] && Progress(lock, roots, pending, expected, expanded, done)
    ensures refusal.Some? <==> !Good(lock, pending[|pending| - 1])
    ensures refusal.None? ==> Progress(lock, roots, left, recorded, keys, done + {pending[|pending| - 1]})
    ensures refusal.None? ==>
      (keys == expanded && |left| < |pending|) || exists k ::
        k in Keys(lock, roots) - expanded && keys == expanded + {k}
  {
    var e, rest := pending[|pending| - 1], pending[..|pending| - 1];
    assert e in pending;
    refusal, left, recorded, keys := None, rest, expected, expanded;
    if !e.supported { return Some(BadEdge), left, recorded, keys; }
    if !Active(lock, e) {
      PopInactive(lock, roots, pending, expected, expanded, done);
      return;
    }
    var choices := Choices(lock, e);
    if |choices| != 1 || choices[0].origin != PyPI || !Installed(lock, NameOf(lock, e), choices[0].version)
      || !e.listed {
      return Some(BadEdge), left, recorded, keys;
    }
    recorded := expected[NameOf(lock, e) := choices[0].version];
    if KeyOf(lock, e) in expanded {
      KnownKey(lock, done, expected, expanded, pending, e);
      PopKnown(lock, roots, pending, expected, expanded, done);
    } else {
      if FirstMissing(choices[0].optional, e.extras).Some? { return Some(BadExtra), left, recorded, keys; }
      PopExpand(lock, roots, pending, expected, expanded, done);
      assert KeyOf(lock, e) in Keys(lock, roots) - expanded;
      left := rest + (choices[0].dependencies + ExtraEdges(choices[0].optional, e.extras));
      keys := expanded + {KeyOf(lock, e)};
    }
  }

  /**
   Succeeds exactly when every reachable edge is good, and then returns exactly the closure. Any pending edge may
   be popped next, not only the last one, so that the answer is shown not to depend on the order.
  */
  method Closure(lock: Lock, roots: seq<Edge>) returns (r: Result<map<string, string>, Refusal>)
    ensures r.Ok? <==> AllGood(lock, Reach(lock, roots))
    ensures r.Ok? ==> IsClosure(lock, Reach(lock, roots), r.value)
  {
    var pending, expected: map<string, string>, expanded: set<Key> := roots, map[], {};
    ghost var done: set<Edge> := {};
    RootsWithin(lock, roots);
    while pending != []
      invariant Progress(lock, roots, pending, expected, expanded, done)
      decreases Keys(lock, roots) - expanded, |pending|
    {
      var k :| 0 <= k < |pending|;
      ProgressToEnd(lock, roots, pending, k, expected, expanded, done);
      var refusal, left, recorded, keys := Visit(lock, roots, ToEnd(pending, k), expected, expanded, done);
      if refusal.Some? {
        assert pending[k] in pending;
        return Err(refusal.value);
      }
      done := done + {pending[k]};
      pending, expected, expanded := left, recorded, keys;
    }
    Finished(lock, roots, expected, expanded, done);
    return Ok(expected);
  }

  function FirstMissing(optional: map<string, seq<Edge>>, extras: seq<string>): (m: Option<string>)
    ensures m.None? <==> forall i :: 0 <= i < |extras| ==> extras[i] in optional
  {
    if extras == [] then None
    else if extras[0] !in optional then Some(extras[0])
    else
      assert forall i :: 0 < i < |extras| ==> extras[i] == extras[1..][i - 1];
      FirstMissing(optional, extras[1..])
  }

  // ---------------------------------------------------------------- the whole check

  const PROJECT := "open-trader"
  const EDITABLE := Elsewhere("editable .")
  const RUNTIME_EXTRAS := {"cloud-ssm", "browser"}

  predicate ProjectIdentified(lock: Lock) {
    PROJECT in lock.packages && |lock.packages[PROJECT]| == 1 && lock.packages[PROJECT][0].origin == EDITABLE
  }

  predicate ExtrasAllowed(lock: Lock, extras: seq<string>)
    requires ProjectIdentified(lock)
  {
    forall i :: 0 <= i < |extras| ==> extras[i] in RUNTIME_EXTRAS && extras[i] in lock.packages[PROJECT][0].optional
  }

  function Roots(lock: Lock, extras: seq<string>): seq<Edge>
    requires ProjectIdentified(lock)
  {
    lock.packages[PROJECT][0].dependencies + ExtraEdges(lock.packages[PROJECT][0].optional, extras)
  }

  method VerifyRuntimePackages(lock: Lock, pythonSupported: bool, extras: seq<string>)
      returns (r: Result<map<string, string>, Refusal>)
    ensures r.Ok? <==>
      pythonSupported && ProjectIdentified(lock) && ExtrasAllowed(lock, extras)
      && AllGood(lock, Reach(lock, Roots(lock, extras)))
    ensures r.Ok? ==> IsClosure(lock, Reach(lock, Roots(lock, extras)), r.value)
  {
    if !pythonSupported { return Err(BadPython); }
    if !ProjectIdentified(lock) { return Err(BadProject); }
    var project := lock.packages[PROJECT][0];
    var pending := project.dependencies;
    for i := 0 to |extras|
      invariant pending == project.dependencies + ExtraEdges(project.optional, extras[..i])
      invariant forall j :: 0 <= j < i ==> extras[j] in RUNTIME_EXTRAS && extras[j] in project.optional
    {
      if extras[i] !in RUNTIME_EXTRAS || extras[i] !in project.optional { return Err(BadRuntimeExtra); }
      assert extras[..i + 1][..i] == extras[..i];
      pending := pending + project.optional[extras[i]];
    }
    assert extras[..|extras|] == extras;
    r := Closure(lock, pending);
  }

  /** Only the two runtime extras may be asked for, and only if the project offers them. */
  lemma {:induction false} OtherExtrasRefused(lock: Lock, extras: seq<string>, i: nat)
    requires ProjectIdentified(lock) && i < |extras|
    requires (extras[i] != "cloud-ssm" && extras[i] != "browser")
      || extras[i] !in lock.packages["open-trader"][0].optional
    ensures !ExtrasAllowed(lock, extras)
  {
  }
}

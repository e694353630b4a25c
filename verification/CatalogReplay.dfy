/**
 Replay of the persisted catalog generations (`read_active_identities` in
 scripts/run_nleg_cutover.py): newest row first up to the first anchor, then the collected
 deltas oldest first.
*/
module CatalogReplay {
  import opened Prelude

  type Identity = string

  /** An entry that is not a dictionary has no status. */
  datatype Entry = Entry(status: string, body: string) | Scalar(text: string)

  type Members = map<Identity, Entry>

  /** `Plain` is a dictionary without a kind; `Other` is any row that is not a dictionary. */
  datatype Row = Delta(added: Members,
    removed: seq<Identity>) | Anchor(members: Members) | Plain(members: Members) | Other

  function Without(m: Members, removed: seq<Identity>): Members {
    if removed == [] then m else Without(m, removed[..|removed| - 1]) - {removed[|removed| - 1]}
  }

  /** The plain meaning of a row: a delta changes the membership, any other row replaces it. */
  function Apply(m: Members, row: Row): Members {
    match row
    case Delta(added, removed) => Without(m + added, removed)
    case Anchor(members) => members
    case Plain(members) => members
    case Other => map[]
  }

  function Fold(m: Members, history: seq<Row>): Members {
    if history == [] then m else Apply(Fold(m, history[..|history| - 1]), history[|history| - 1])
  }

  predicate IsActive(e: Entry) {
    e.Entry? && e.status == "ACTIVE"
  }

  function ActiveOnly(m: Members): Members {
    map id | id in m && IsActive(m[id]) :: m[id]
  }

  /** Nothing before a row that replaces the membership matters. */
  lemma {:induction false} FoldFromReset(m: Members, history: seq<Row>, k: nat)
    requires k < |history| && !history[k].Delta?
    ensures Fold(m, history) == Fold(Apply(map[], history[k]), history[k + 1..])
  {
    var shorter := history[..|history| - 1];
    if k == |history| - 1 {
      assert history[k + 1..] == [];
    } else {
      FoldFromReset(m, shorter, k);
      assert history[k + 1..][..|history| - k - 2] == shorter[k + 1..];
      assert history[k + 1..][|history| - k - 2] == history[|history| - 1];
    }
  }

  lemma {:induction false} FoldSnoc(m: Members, rows: seq<Row>, n: nat)
    requires n < |rows|
    ensures Fold(m, rows[..n + 1]) == Apply(Fold(m, rows[..n]), rows[n])
  {
    assert rows[..n + 1][..n] == rows[..n];
  }

  /** The row says something about this identity: any row that replaces the membership does. */
  predicate Mentions(row: Row, id: Identity) {
    row.Delta? ==> id in row.added || id in row.removed
  }

  /** What a row that mentions the identity says: a removal wins over an addition in the same row. */
  function Says(row: Row, id: Identity): Option<Entry> {
    match row
    case Delta(added, removed) => if id !in removed && id in added then Some(added[id]) else None
    case Anchor(members) => if id in members then Some(members[id]) else None
    case Plain(members) => if id in members then Some(members[id]) else None
    case Other => None
  }

  lemma {:induction false} WithoutMembers(m: Members, removed: seq<Identity>, id: Identity)
    ensures id in Without(m, removed) <==> id in m && id !in removed
    ensures id in Without(m, removed) ==> Without(m, removed)[id] == m[id]
  {
    if removed != [] {
      WithoutMembers(m, removed[..|removed| - 1], id);
      assert id in removed <==> id in removed[..|removed| - 1] || id == removed[|removed| - 1];
    }
  }

  /** The latest row that mentions an identity decides its membership and its entry. */
  lemma {:induction false} LatestMentionDecides(history: seq<Row>, k: nat, id: Identity)
    requires k < |history| && Mentions(history[k], id)
    requires forall i :: k < i < |history| ==> !Mentions(history[i], id)
    ensures var m := Fold(map[], history);
      match Says(history[k], id)
      case Some(entry) => id in m && m[id] == entry
      case None => id !in m
  {
    var n := |history| - 1;
    var before, last := Fold(map[], history[..n]), history[n];
    if last.Delta? { WithoutMembers(before + last.added, last.removed, id); }
    if k < n {
      LatestMentionDecides(history[..n], k, id);
      assert !Mentions(history[n], id);
    }
  }

  /** Reads at most back to the newest replacing row and gives the membership of the full fold. */
  method ReadActiveIdentities(history: seq<Row>) returns (active: Members)
    ensures var m := Fold(map[], history);
      && (forall id :: id in active <==> id in m && m[id].Entry? && m[id].status == "ACTIVE")
      && (forall id :: id in active ==> active[id] == m[id])
  {
    var generation: Members := map[];
    var deltas: seq<Row> := [];
    var i := |history|;
    ghost var start := 0;
    while i > 0
      invariant 0 <= i <= |history| && |deltas| == |history| - i && start == 0 && generation == map[]
      invariant forall j :: 0 <= j < |deltas| ==> deltas[j] == history[|history| - 1 - j] && deltas[j].Delta?
    {
      var data := history[i - 1];
      if data.Delta? {
        deltas := deltas + [data];
        i := i - 1;
        continue;
      }
      if data.Anchor? || data.Plain? { generation := data.members; }
      start := i;
      break;
    }
    ghost var base, rows := generation, history[start..];
    assert |rows| == |deltas| && Fold(map[], history) == Fold(base, rows) by {
      if start > 0 { FoldFromReset(map[], history, start - 1); } else { assert rows == history; }
    }
    var n := 0;
    while n < |deltas|
      invariant 0 <= n <= |deltas|
      invariant generation == Fold(base, rows[..n])
    {
      var delta := deltas[|deltas| - 1 - n];
      assert delta == rows[n];
      FoldSnoc(base, rows, n);
      generation := generation + delta.added;
      ghost var merged := generation;
      for r := 0 to |delta.removed|
        invariant generation == Without(merged, delta.removed[..r])
      {
        assert delta.removed[..r + 1][..r] == delta.removed[..r];
        generation := generation - {delta.removed[r]};
      }
      assert delta.removed[..|delta.removed|] == delta.removed;
      n := n + 1;
    }
    assert rows[..|deltas|] == rows;
    active := ActiveOnly(generation);
  }
}

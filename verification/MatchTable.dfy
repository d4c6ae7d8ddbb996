/** The table of stored vulnerability matches and the three queries the scanner makes. */
module MatchTable {

  import opened Chunks

  datatype Pair = Pair(cveId: string, packageId: string)

  datatype Row = Row(id: nat, pair: Pair)

  predicate HasPair(rows: seq<Row>, q: Pair) { exists i :: 0 <= i < |rows| && rows[i].pair == q }

  /** The rows of one package, in table order. */
  function RowsOf(rows: seq<Row>, pid: string): seq<Row> {
    if rows == [] then []
    else
      var rest, last := rows[..|rows| - 1], rows[|rows| - 1];
      RowsOf(rest, pid) + if last.pair.packageId == pid then [last] else []
  }

  function RowsIn(rows: seq<Row>, pids: seq<string>): seq<Row> {
    if rows == [] then []
    else
      var rest, last := rows[..|rows| - 1], rows[|rows| - 1];
      RowsIn(rest, pids) + if last.pair.packageId in pids then [last] else []
  }

  function Without(rows: seq<Row>, ids: set<nat>): seq<Row> {
    if rows == [] then []
    else
      var rest, last := rows[..|rows| - 1], rows[|rows| - 1];
      Without(rest, ids) + if last.id in ids then [] else [last]
  }

  function NewRows(data: seq<Pair>, next: nat): (rows: seq<Row>)
    ensures |rows| == |data|
  {
    seq(|data|, i requires 0 <= i < |data| => Row(next + i, data[i]))
  }

  function IdSet(ids: seq<nat>): set<nat> { set x | x in ids }

  predicate UniqueRows(rows: seq<Row>) {
    forall i, j :: 0 <= i < j < |rows| ==> rows[i].id != rows[j].id && rows[i].pair != rows[j].pair
  }

  class Database {
    var rows: seq<Row>
    var next: nat

    /** Row ids and (cveId, packageId) pairs are unique; `next` and everything above is unused. */
    ghost predicate Valid()
      reads this
    {
      UniqueRows(rows) && forall i :: 0 <= i < |rows| ==> rows[i].id < next
    }

    method FindByPackages(pids: seq<string>) returns (found: seq<Row>)
      ensures found == RowsIn(rows, pids)
    {
      found := RowsIn(rows, pids);
    }

    /** The unique constraint makes the insertion of a stored or repeated pair an error. */
    method CreateMany(data: seq<Pair>) returns (count: nat)
      requires Valid() && NoDup(data)
      requires forall q :: q in data ==> !HasPair(rows, q)
      modifies this
      ensures Valid()
      ensures rows == old(rows) + NewRows(data, old(next)) && next == old(next) + |data|
      ensures count == |data|
    {
      var added := NewRows(data, next);
      forall i, j | 0 <= i < |rows| && 0 <= j < |data| ensures rows[i].pair != data[j] {
        assert data[j] in data;
      }
      rows := rows + added;
      next := next + |data|;
      count := |data|;
    }

    method DeleteMany(ids: seq<nat>) returns (count: nat)
      requires Valid()
      modifies this`rows
      ensures Valid()
      ensures rows == Without(old(rows), IdSet(ids)) && count == |old(rows)| - |rows|
    {
      WithoutKeeps(rows, IdSet(ids), next);
      count := |rows| - |Without(rows, IdSet(ids))|;
      rows := Without(rows, IdSet(ids));
    }
  }

  // --- facts about the queries ---

  lemma {:induction false} WithoutIff(rows: seq<Row>, ids: set<nat>, r: Row)
    ensures r in Without(rows, ids) <==> r in rows && r.id !in ids
  {
    if rows == [] {
    } else {
      WithoutIff(rows[..|rows| - 1], ids, r);
      assert rows == rows[..|rows| - 1] + [rows[|rows| - 1]];
    }
  }

  lemma {:induction false} WithoutKeeps(rows: seq<Row>, ids: set<nat>, next: nat)
    requires UniqueRows(rows) && forall i :: 0 <= i < |rows| ==> rows[i].id < next
    ensures |Without(rows, ids)| <= |rows|
    ensures UniqueRows(Without(rows, ids))
    ensures forall i :: 0 <= i < |Without(rows, ids)| ==> Without(rows, ids)[i].id < next
  {
    if rows == [] {
    } else {
      var rest, last := rows[..|rows| - 1], rows[|rows| - 1];
      WithoutKeeps(rest, ids, next);
      var kept := Without(rest, ids);
      forall i | 0 <= i < |kept| ensures kept[i].id != last.id && kept[i].pair != last.pair {
        WithoutIff(rest, ids, kept[i]);
      }
    }
  }

  lemma {:induction false} WithoutTwice(rows: seq<Row>, a: set<nat>, b: set<nat>)
    ensures Without(Without(rows, a), b) == Without(rows, a + b)
  {
    if rows == [] {
    } else {
      var rest, last := rows[..|rows| - 1], rows[|rows| - 1];
      WithoutTwice(rest, a, b);
      if last.id !in a {
        WithoutSnoc(Without(rest, a), last, b);
      } else {
        assert Without(rows, a) == Without(rest, a);
      }
    }
  }

  lemma WithoutSnoc(rows: seq<Row>, r: Row, ids: set<nat>)
    ensures Without(rows + [r], ids) == Without(rows, ids) + if r.id in ids then [] else [r]
  {
    assert (rows + [r])[..|rows|] == rows;
  }

  lemma RowsOfSnoc(rows: seq<Row>, r: Row, pid: string)
    ensures RowsOf(rows + [r], pid) == RowsOf(rows, pid) + if r.pair.packageId == pid then [r] else []
  {
    assert (rows + [r])[..|rows|] == rows;
  }

  lemma {:induction false} RowsOfConcat(a: seq<Row>, b: seq<Row>, pid: string)
    ensures RowsOf(a + b, pid) == RowsOf(a, pid) + RowsOf(b, pid)
  {
    if b == [] {
      assert a + b == a;
    } else {
      var rest, last := b[..|b| - 1], b[|b| - 1];
      RowsOfConcat(a, rest, pid);
      assert a + b == (a + rest) + [last];
      RowsOfSnoc(a + rest, last, pid);
      RowsOfSnoc(rest, last, pid);
      assert b == rest + [last];
    }
  }

  lemma {:induction false} RowsOfRowsIn(rows: seq<Row>, pids: seq<string>, pid: string)
    ensures RowsOf(RowsIn(rows, pids), pid) == if pid in pids then RowsOf(rows, pid) else []
  {
    if rows == [] {
    } else {
      var rest, last := rows[..|rows| - 1], rows[|rows| - 1];
      RowsOfRowsIn(rest, pids, pid);
      RowsOfSnoc(RowsIn(rest, pids), last, pid);
      if last.pair.packageId !in pids {
        assert RowsIn(rows, pids) == RowsIn(rest, pids);
      }
    }
  }

  lemma {:induction false} RowsOfIff(rows: seq<Row>, pid: string, r: Row)
    ensures r in RowsOf(rows, pid) <==> r in rows && r.pair.packageId == pid
  {
    if rows == [] {
    } else {
      RowsOfIff(rows[..|rows| - 1], pid, r);
      assert rows == rows[..|rows| - 1] + [rows[|rows| - 1]];
    }
  }

  lemma NewRowsConcat(a: seq<Pair>, b: seq<Pair>, next: nat)
    ensures NewRows(a + b, next) == NewRows(a, next) + NewRows(b, next + |a|)
  {
  }

  // --- the chunked queries ---

  /** Reading chunk by chunk gives every wanted package its rows, in table order. */
  method FindAll(db: Database, packageIds: seq<string>) returns (existing: seq<Row>)
    requires NoDup(packageIds)
    ensures forall pid :: RowsOf(existing, pid) == if pid in packageIds then RowsOf(db.rows, pid) else []
  {
    existing := [];
    var chunks := ChunkShort(packageIds, 900);
    for k := 0 to |chunks|
      invariant forall pid :: RowsOf(existing, pid) == if pid in Flatten(chunks[..k]) then RowsOf(db.rows, pid) else []
    {
      var found := db.FindByPackages(chunks[k]);
      FlattenTake(chunks, k);
      FlattenSplit(chunks, k + 1);
      NoDupSplit(Flatten(chunks[..k + 1]), Flatten(chunks[k + 1..]));
      NoDupSplit(Flatten(chunks[..k]), chunks[k]);
      ghost var before := existing;
      existing := existing + found;
      forall pid
        ensures RowsOf(existing, pid) == if pid in Flatten(chunks[..k + 1]) then RowsOf(db.rows, pid) else []
      {
        RowsOfConcat(before, found, pid);
        RowsOfRowsIn(db.rows, chunks[k], pid);
      }
    }
    assert chunks[..|chunks|] == chunks;
  }

  method CreateAll(db: Database, newMatches: seq<Pair>) returns (created: nat)
    requires db.Valid() && NoDup(newMatches)
    requires forall q :: q in newMatches ==> !HasPair(db.rows, q)
    modifies db
    ensures db.Valid()
    ensures db.rows == old(db.rows) + NewRows(newMatches, old(db.next)) && db.next == old(db.next) + |newMatches|
    ensures created == |newMatches|
  {
    created := 0;
    var chunks := ChunkShort(newMatches, 250);
    for k := 0 to |chunks|
      invariant db.Valid()
      invariant db.rows == old(db.rows) + NewRows(Flatten(chunks[..k]), old(db.next))
      invariant db.next == old(db.next) + |Flatten(chunks[..k])|
      invariant created == |Flatten(chunks[..k])|
    {
      FlattenTake(chunks, k);
      NewRowsConcat(Flatten(chunks[..k]), chunks[k], old(db.next));
      FreshChunk(old(db.rows), old(db.next), newMatches, chunks, k);
      if chunks[k] != [] {
        var count := db.CreateMany(chunks[k]);
        created := created + count;
      }
    }
    assert chunks[..|chunks|] == chunks;
  }

  /** The k-th chunk repeats nothing of the table or of the chunks before it. */
  lemma FreshChunk(rows: seq<Row>, next: nat, data: seq<Pair>, chunks: seq<seq<Pair>>, k: nat)
    requires Flatten(chunks) == data && NoDup(data) && k < |chunks|
    requires forall q :: q in data ==> !HasPair(rows, q)
    ensures NoDup(chunks[k])
    ensures forall q :: q in chunks[k] ==> !HasPair(rows + NewRows(Flatten(chunks[..k]), next), q)
  {
    var before := Flatten(chunks[..k]);
    FlattenTake(chunks, k);
    FlattenSplit(chunks, k + 1);
    NoDupSplit(before + chunks[k], Flatten(chunks[k + 1..]));
    NoDupSplit(before, chunks[k]);
    var table := rows + NewRows(before, next);
    forall q | q in chunks[k] ensures !HasPair(table, q) {
      assert q in data;
      forall i | 0 <= i < |table| ensures table[i].pair != q {
        if i < |rows| {
          assert table[i] == rows[i];
        } else {
          assert table[i].pair == before[i - |rows|];
        }
      }
    }
  }

  method DeleteAll(db: Database, staleIds: seq<nat>) returns (removed: nat)
    requires db.Valid()
    modifies db`rows
    ensures db.Valid()
    ensures db.rows == Without(old(db.rows), IdSet(staleIds)) && removed == |old(db.rows)| - |db.rows|
  {
    removed := 0;
    var chunks := ChunkShort(staleIds, 500);
    WithoutNothing(db.rows);
    for k := 0 to |chunks|
      invariant db.Valid()
      invariant db.rows == Without(old(db.rows), IdSet(Flatten(chunks[..k])))
      invariant removed == |old(db.rows)| - |db.rows|
    {
      FlattenTake(chunks, k);
      assert IdSet(Flatten(chunks[..k + 1])) == IdSet(Flatten(chunks[..k])) + IdSet(chunks[k]);
      WithoutTwice(old(db.rows), IdSet(Flatten(chunks[..k])), IdSet(chunks[k]));
      if chunks[k] != [] {
        var count := db.DeleteMany(chunks[k]);
        removed := removed + count;
      } else {
        WithoutNothing(db.rows);
      }
    }
    assert chunks[..|chunks|] == chunks;
  }

  lemma {:induction false} WithoutNothing(rows: seq<Row>)
    ensures Without(rows, {}) == rows
    ensures Without(rows, IdSet([])) == rows
  {
    assert IdSet([]) == {};
    if rows == [] {
    } else {
      WithoutNothing(rows[..|rows| - 1]);
    }
  }
}

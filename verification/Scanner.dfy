/** scanPackages: stored vulnerability matches are reconciled with what the fetched CVEs say about a list of
    packages. The result is compared with the naive check of every CVE against every package. */
module Scanner {

  import opened Chunks
  import opened OsvRange
  import opened Matcher
  import opened MatchTable

  // --- the truth ---

  predicate UniquePackages(packages: seq<Package>) {
    forall i, j :: 0 <= i < j < |packages| ==> packages[i].id != packages[j].id
  }

  /** Package ids hold no colon, so a cve id and a package id joined by one can be told apart again. */
  predicate PlainIds(packages: seq<Package>) { forall p :: p in packages ==> ':' !in p.id }

  predicate Scanned(packages: seq<Package>, pid: string) { exists i :: 0 <= i < |packages| && packages[i].id == pid }

  /** The all-pairs check. */
  predicate Accepted(o: Oracle, packages: seq<Package>, cves: seq<Cve>, q: Pair) {
    exists i, j :: 0 <= i < |packages| && 0 <= j < |cves|
                   && q == Pair(cves[j].id, packages[i].id) && Affects(o, cves[j].affected, packages[i])
  }

  /** What the all-pairs check reports for one package, then for all: package by package, CVE by CVE. */
  function PairsOf(cves: seq<Cve>, pid: string): (s: seq<Pair>)
    ensures |s| == |cves|
  {
    seq(|cves|, i requires 0 <= i < |cves| => Pair(cves[i].id, pid))
  }

  function AllPairs(o: Oracle, packages: seq<Package>, cves: seq<Cve>): seq<Pair> {
    if packages == [] then []
    else
      var rest, last := packages[..|packages| - 1], packages[|packages| - 1];
      AllPairs(o, rest, cves) + PairsOf(Hits(o, cves, last), last.id)
  }

  /** A row that may stay: of a package that is not scanned, or an accepted pair. */
  predicate Right(o: Oracle, packages: seq<Package>, cves: seq<Cve>, q: Pair) {
    Scanned(packages, q.packageId) ==> Accepted(o, packages, cves, q)
  }

  function Kept(o: Oracle, packages: seq<Package>, cves: seq<Cve>, rows: seq<Row>): (kept: seq<Row>)
    ensures |kept| <= |rows|
  {
    if rows == [] then []
    else
      var rest, last := rows[..|rows| - 1], rows[|rows| - 1];
      Kept(o, packages, cves, rest) + if Right(o, packages, cves, last.pair) then [last] else []
  }

  /** The table after a scan: the right rows as they were, then the accepted pairs that were missing. */
  ghost predicate Reconciled(o: Oracle, packages: seq<Package>, cves: seq<Cve>, before: seq<Row>, after: seq<Row>,
                             created: nat, removed: nat) {
    var kept := Kept(o, packages, cves, before);
    && UniqueRows(after)
    && |after| == |kept| + created && |before| == |kept| + removed
    && after[..|kept|] == kept
    && (forall i :: |kept| <= i < |after| ==> Accepted(o, packages, cves, after[i].pair) && !HasPair(before, after[i].pair))
    && (forall q :: Accepted(o, packages, cves, q) ==> HasPair(after, q))
  }

  lemma {:induction false} KeptIff(o: Oracle, packages: seq<Package>, cves: seq<Cve>, rows: seq<Row>, r: Row)
    ensures r in Kept(o, packages, cves, rows) <==> r in rows && Right(o, packages, cves, r.pair)
  {
    if rows == [] {
    } else {
      KeptIff(o, packages, cves, rows[..|rows| - 1], r);
      assert rows == rows[..|rows| - 1] + [rows[|rows| - 1]];
    }
  }

  lemma AcceptedIsScanned(o: Oracle, packages: seq<Package>, cves: seq<Cve>, q: Pair)
    requires Accepted(o, packages, cves, q)
    ensures Scanned(packages, q.packageId)
  {
  }

  /** After a scan the stored pairs of the scanned packages are exactly those the all-pairs check accepts. */
  lemma StoredPairsAreTruth(o: Oracle, packages: seq<Package>, cves: seq<Cve>, before: seq<Row>, after: seq<Row>,
                            created: nat, removed: nat, q: Pair)
    requires Reconciled(o, packages, cves, before, after, created, removed) && Scanned(packages, q.packageId)
    ensures HasPair(after, q) <==> Accepted(o, packages, cves, q)
  {
    var kept := Kept(o, packages, cves, before);
    if HasPair(after, q) {
      var i :| 0 <= i < |after| && after[i].pair == q;
      if i < |kept| {
        assert after[i] == after[..|kept|][i] == kept[i];
        KeptIff(o, packages, cves, before, kept[i]);
      }
    }
  }

  lemma {:induction false} KeptRowsOf(o: Oracle, packages: seq<Package>, cves: seq<Cve>, rows: seq<Row>, pid: string)
    requires !Scanned(packages, pid)
    ensures RowsOf(Kept(o, packages, cves, rows), pid) == RowsOf(rows, pid)
  {
    if rows == [] {
    } else {
      var rest, last := rows[..|rows| - 1], rows[|rows| - 1];
      KeptRowsOf(o, packages, cves, rest, pid);
      RowsOfSnoc(Kept(o, packages, cves, rest), last, pid);
      if !Right(o, packages, cves, last.pair) {
        assert Kept(o, packages, cves, rows) == Kept(o, packages, cves, rest);
      }
    }
  }

  lemma {:induction false} NoRowsOf(rows: seq<Row>, pid: string)
    requires forall i :: 0 <= i < |rows| ==> rows[i].pair.packageId != pid
    ensures RowsOf(rows, pid) == []
  {
    if rows == [] {
    } else {
      NoRowsOf(rows[..|rows| - 1], pid);
    }
  }

  /** A scan does not touch the rows of other packages. */
  lemma OthersUntouched(o: Oracle, packages: seq<Package>, cves: seq<Cve>, before: seq<Row>, after: seq<Row>,
                        created: nat, removed: nat, pid: string)
    requires Reconciled(o, packages, cves, before, after, created, removed) && !Scanned(packages, pid)
    ensures RowsOf(after, pid) == RowsOf(before, pid)
  {
    var kept := Kept(o, packages, cves, before);
    var added := after[|kept|..];
    assert after == kept + added;
    RowsOfConcat(kept, added, pid);
    KeptRowsOf(o, packages, cves, before, pid);
    forall i | 0 <= i < |added| ensures added[i].pair.packageId != pid {
      assert added[i] == after[|kept| + i];
      AcceptedIsScanned(o, packages, cves, added[i].pair);
    }
    NoRowsOf(added, pid);
  }

  lemma {:induction false} AllKept(o: Oracle, packages: seq<Package>, cves: seq<Cve>, rows: seq<Row>)
    requires forall i :: 0 <= i < |rows| ==> Right(o, packages, cves, rows[i].pair)
    ensures Kept(o, packages, cves, rows) == rows
  {
    if rows == [] {
    } else {
      AllKept(o, packages, cves, rows[..|rows| - 1]);
    }
  }

  /** An immediate second scan over the same CVEs creates nothing, removes nothing and leaves the table alone. */
  lemma SecondScanIdle(o: Oracle, packages: seq<Package>, cves: seq<Cve>, r0: seq<Row>, r1: seq<Row>, r2: seq<Row>,
                       created1: nat, removed1: nat, created2: nat, removed2: nat)
    requires Reconciled(o, packages, cves, r0, r1, created1, removed1)
    requires Reconciled(o, packages, cves, r1, r2, created2, removed2)
    ensures r2 == r1 && created2 == 0 && removed2 == 0
  {
    forall i | 0 <= i < |r1| ensures Right(o, packages, cves, r1[i].pair) {
      if Scanned(packages, r1[i].pair.packageId) {
        StoredPairsAreTruth(o, packages, cves, r0, r1, created1, removed1, r1[i].pair);
      }
    }
    AllKept(o, packages, cves, r1);
    var extra := if created2 > 0 then r2[|r1|].pair else Pair("", "");
    assert created2 > 0 ==> Accepted(o, packages, cves, extra) && !HasPair(r1, extra);
  }

  // --- what the loops compute ---

  function IdsOf(cves: seq<Cve>): set<string> { set c | c in cves :: c.id }

  function CveIdsOf(rows: seq<Row>): set<string> { set r | r in rows :: r.pair.cveId }

  /** The hits of one package that are not stored yet. */
  function Missing(hits: seq<Cve>, pid: string, known: set<string>): seq<Pair> {
    if hits == [] then []
    else
      var rest, last := hits[..|hits| - 1], hits[|hits| - 1];
      Missing(rest, pid, known) + if last.id in known then [] else [Pair(last.id, pid)]
  }

  /** The stored rows of one package that are no hits. */
  function Stale(rows: seq<Row>, active: set<string>): seq<nat> {
    if rows == [] then []
    else
      var rest, last := rows[..|rows| - 1], rows[|rows| - 1];
      Stale(rest, active) + if last.pair.cveId in active then [] else [last.id]
  }

  function AllMissing(o: Oracle, packages: seq<Package>, cves: seq<Cve>, rows: seq<Row>): seq<Pair> {
    if packages == [] then []
    else
      var rest, last := packages[..|packages| - 1], packages[|packages| - 1];
      AllMissing(o, rest, cves, rows) + Missing(Hits(o, cves, last), last.id, CveIdsOf(RowsOf(rows, last.id)))
  }

  function AllStale(o: Oracle, packages: seq<Package>, cves: seq<Cve>, rows: seq<Row>): seq<nat> {
    if packages == [] then []
    else
      var rest, last := packages[..|packages| - 1], packages[|packages| - 1];
      AllStale(o, rest, cves, rows) + Stale(RowsOf(rows, last.id), IdsOf(Hits(o, cves, last)))
  }

  lemma {:induction false} MissingIff(hits: seq<Cve>, pid: string, known: set<string>, q: Pair)
    ensures q in Missing(hits, pid, known) <==> q.packageId == pid && q.cveId in IdsOf(hits) && q.cveId !in known
  {
    if hits == [] {
    } else {
      var rest, last := hits[..|hits| - 1], hits[|hits| - 1];
      MissingIff(rest, pid, known, q);
      assert hits == rest + [last];
      assert IdsOf(hits) == IdsOf(rest) + {last.id};
    }
  }

  lemma {:induction false} StaleIff(rows: seq<Row>, active: set<string>, id: nat)
    ensures id in Stale(rows, active) <==> exists r :: r in rows && r.id == id && r.pair.cveId !in active
  {
    if rows == [] {
    } else {
      var rest, last := rows[..|rows| - 1], rows[|rows| - 1];
      StaleIff(rest, active, id);
      assert rows == rest + [last];
    }
  }

  /** One package's share of the all-pairs check. */
  lemma OnePackage(o: Oracle, packages: seq<Package>, cves: seq<Cve>, i: nat, cveId: string)
    requires UniquePackages(packages) && i < |packages|
    ensures Accepted(o, packages, cves, Pair(cveId, packages[i].id)) <==> cveId in IdsOf(Hits(o, cves, packages[i]))
  {
    var hits := Hits(o, cves, packages[i]);
    if cveId in IdsOf(hits) {
      var c :| c in hits && c.id == cveId;
      HitIff(o, cves, packages[i], c);
      var j :| 0 <= j < |cves| && cves[j] == c;
    }
    if Accepted(o, packages, cves, Pair(cveId, packages[i].id)) {
      var i', j :| 0 <= i' < |packages| && 0 <= j < |cves|
                   && Pair(cveId, packages[i].id) == Pair(cves[j].id, packages[i'].id) && Affects(o, cves[j].affected, packages[i']);
      assert i' == i;
      HitIff(o, cves, packages[i], cves[j]);
    }
  }

  lemma AcceptedSplit(o: Oracle, packages: seq<Package>, cves: seq<Cve>, q: Pair)
    requires UniquePackages(packages) && packages != []
    ensures var rest, last := packages[..|packages| - 1], packages[|packages| - 1];
            Accepted(o, packages, cves, q)
            <==> Accepted(o, rest, cves, q) || (q.packageId == last.id && q.cveId in IdsOf(Hits(o, cves, last)))
  {
    var rest, last := packages[..|packages| - 1], packages[|packages| - 1];
    OnePackage(o, packages, cves, |packages| - 1, q.cveId);
    if Accepted(o, rest, cves, q) {
      var i, j :| 0 <= i < |rest| && 0 <= j < |cves|
                  && q == Pair(cves[j].id, rest[i].id) && Affects(o, cves[j].affected, rest[i]);
      assert packages[i] == rest[i];
    }
    if Accepted(o, packages, cves, q) && q.packageId != last.id {
      var i, j :| 0 <= i < |packages| && 0 <= j < |cves|
                  && q == Pair(cves[j].id, packages[i].id) && Affects(o, cves[j].affected, packages[i]);
      assert rest[i] == packages[i];
    }
    assert q.packageId == last.id ==> q == Pair(q.cveId, last.id);
  }

  lemma PairsOfIff(cves: seq<Cve>, pid: string, q: Pair)
    ensures q in PairsOf(cves, pid) <==> q.packageId == pid && q.cveId in IdsOf(cves)
  {
    if q.packageId == pid && q.cveId in IdsOf(cves) {
      var c :| c in cves && c.id == q.cveId;
      var i :| 0 <= i < |cves| && cves[i] == c;
      assert PairsOf(cves, pid)[i] == q;
    }
  }

  /** The reported matches are the accepted pairs. */
  lemma {:induction false} AllPairsIff(o: Oracle, packages: seq<Package>, cves: seq<Cve>, q: Pair)
    requires UniquePackages(packages)
    ensures q in AllPairs(o, packages, cves) <==> Accepted(o, packages, cves, q)
  {
    if packages == [] {
    } else {
      var rest, last := packages[..|packages| - 1], packages[|packages| - 1];
      UniqueRest(packages);
      AllPairsIff(o, rest, cves, q);
      AcceptedSplit(o, packages, cves, q);
      PairsOfIff(Hits(o, cves, last), last.id, q);
    }
  }

  lemma {:induction false} AllPairsConcat(o: Oracle, first: seq<Package>, second: seq<Package>, cves: seq<Cve>)
    ensures AllPairs(o, first + second, cves) == AllPairs(o, first, cves) + AllPairs(o, second, cves)
  {
    hide Hits, PairsOf;
    if second == [] {
      assert first + second == first;
    } else {
      var rest, last := second[..|second| - 1], second[|second| - 1];
      AllPairsConcat(o, first, rest, cves);
      var all := first + second;
      assert all[..|all| - 1] == first + rest && all[|all| - 1] == last;
    }
  }

  lemma {:induction false} HitsConcat(o: Oracle, first: seq<Cve>, second: seq<Cve>, pkg: Package)
    ensures Hits(o, first + second, pkg) == Hits(o, first, pkg) + Hits(o, second, pkg)
  {
    if second == [] {
      assert first + second == first;
    } else {
      var rest, last := second[..|second| - 1], second[|second| - 1];
      HitsConcat(o, first, rest, pkg);
      assert first + second == first + rest + [last];
      HitsSnoc(o, first + rest, last, pkg);
    }
  }

  /** The matches of a package come between those of the packages before and after it, */
  lemma AllPairsAt(o: Oracle, packages: seq<Package>, cves: seq<Cve>, i: nat)
    requires i < |packages|
    ensures AllPairs(o, packages, cves)
         == AllPairs(o, packages[..i], cves) + PairsOf(Hits(o, cves, packages[i]), packages[i].id)
            + AllPairs(o, packages[i + 1..], cves)
  {
    assert packages == packages[..i + 1] + packages[i + 1..];
    AllPairsConcat(o, packages[..i + 1], packages[i + 1..], cves);
    assert packages[..i + 1][..i] == packages[..i];
    hide PairsOf, Hits;
  }

  /** and a CVE that affects it between those before and after. */
  lemma HitsAt(o: Oracle, cves: seq<Cve>, pkg: Package, j: nat)
    requires j < |cves| && Affects(o, cves[j].affected, pkg)
    ensures Hits(o, cves, pkg) == Hits(o, cves[..j], pkg) + [cves[j]] + Hits(o, cves[j + 1..], pkg)
  {
    assert cves == cves[..j + 1] + cves[j + 1..];
    HitsConcat(o, cves[..j + 1], cves[j + 1..], pkg);
    assert cves[..j + 1][..j] == cves[..j];
    hide Affects;
  }

  lemma KnownIff(rows: seq<Row>, q: Pair)
    ensures q.cveId in CveIdsOf(RowsOf(rows, q.packageId)) <==> HasPair(rows, q)
  {
    if HasPair(rows, q) {
      var i :| 0 <= i < |rows| && rows[i].pair == q;
      RowsOfIff(rows, q.packageId, rows[i]);
    }
    if q.cveId in CveIdsOf(RowsOf(rows, q.packageId)) {
      var r :| r in RowsOf(rows, q.packageId) && r.pair.cveId == q.cveId;
      RowsOfIff(rows, q.packageId, r);
      var i :| 0 <= i < |rows| && rows[i] == r;
    }
  }

  lemma UniqueRest(packages: seq<Package>)
    requires UniquePackages(packages) && packages != []
    ensures UniquePackages(packages[..|packages| - 1])
    ensures !Scanned(packages[..|packages| - 1], packages[|packages| - 1].id)
  {
  }

  /** The inserted pairs are exactly the accepted ones that are not stored. */
  lemma {:induction false} AllMissingIff(o: Oracle, packages: seq<Package>, cves: seq<Cve>, rows: seq<Row>, q: Pair)
    requires UniquePackages(packages)
    ensures q in AllMissing(o, packages, cves, rows) <==> Accepted(o, packages, cves, q) && !HasPair(rows, q)
  {
    if packages == [] {
    } else {
      var rest, last := packages[..|packages| - 1], packages[|packages| - 1];
      UniqueRest(packages);
      AllMissingIff(o, rest, cves, rows, q);
      AcceptedSplit(o, packages, cves, q);
      MissingIff(Hits(o, cves, last), last.id, CveIdsOf(RowsOf(rows, last.id)), q);
      KnownIff(rows, q);
    }
  }

  /** The deleted rows are exactly those of scanned packages that the all-pairs check rejects. */
  lemma {:induction false} AllStaleIff(o: Oracle, packages: seq<Package>, cves: seq<Cve>, rows: seq<Row>, id: nat)
    requires UniquePackages(packages)
    ensures id in AllStale(o, packages, cves, rows)
            <==> exists r :: r in rows && r.id == id && !Right(o, packages, cves, r.pair)
  {
    if packages == [] {
    } else {
      var rest, last := packages[..|packages| - 1], packages[|packages| - 1];
      UniqueRest(packages);
      AllStaleIff(o, rest, cves, rows, id);
      StaleIff(RowsOf(rows, last.id), IdsOf(Hits(o, cves, last)), id);
      forall r | r in rows
        ensures !Right(o, packages, cves, r.pair)
                <==> !Right(o, rest, cves, r.pair)
                     || (r in RowsOf(rows, last.id) && r.pair.cveId !in IdsOf(Hits(o, cves, last)))
      {
        RightSplit(o, packages, cves, r.pair);
        RowsOfIff(rows, last.id, r);
      }
      forall r ensures r in RowsOf(rows, last.id) ==> r in rows {
        RowsOfIff(rows, last.id, r);
      }
    }
  }

  lemma RightSplit(o: Oracle, packages: seq<Package>, cves: seq<Cve>, q: Pair)
    requires UniquePackages(packages) && packages != []
    ensures var rest, last := packages[..|packages| - 1], packages[|packages| - 1];
            Right(o, packages, cves, q)
            <==> Right(o, rest, cves, q) && (q.packageId == last.id ==> q.cveId in IdsOf(Hits(o, cves, last)))
  {
    var rest, last := packages[..|packages| - 1], packages[|packages| - 1];
    UniqueRest(packages);
    AcceptedSplit(o, packages, cves, q);
    assert Scanned(packages, q.packageId) <==> Scanned(rest, q.packageId) || q.packageId == last.id;
    if Accepted(o, rest, cves, q) {
      AcceptedIsScanned(o, rest, cves, q);
    }
  }

  lemma {:induction false} HitsUnique(o: Oracle, cves: seq<Cve>, pkg: Package)
    requires UniqueIds(cves)
    ensures UniqueIds(Hits(o, cves, pkg))
  {
    if cves == [] {
    } else {
      var rest, last := cves[..|cves| - 1], cves[|cves| - 1];
      HitsUnique(o, rest, pkg);
      forall c | c in Hits(o, rest, pkg) ensures c.id != last.id {
        HitIff(o, rest, pkg, c);
      }
    }
  }

  lemma {:induction false} MentionedUnique(o: Oracle, cves: seq<Cve>, name: string)
    requires UniqueIds(cves)
    ensures UniqueIds(MentionedBy(o, cves, name))
    ensures forall c :: c in MentionedBy(o, cves, name) ==> c in cves
  {
    if cves == [] {
    } else {
      var rest, last := cves[..|cves| - 1], cves[|cves| - 1];
      MentionedUnique(o, rest, name);
      forall c | c in MentionedBy(o, rest, name) ensures c.id != last.id {
        var k :| 0 <= k < |rest| && rest[k] == c;
        assert cves[k] == c;
      }
    }
  }

  lemma {:induction false} MissingNoDup(hits: seq<Cve>, pid: string, known: set<string>)
    requires UniqueIds(hits)
    ensures NoDup(Missing(hits, pid, known))
  {
    if hits == [] {
    } else {
      var rest, last := hits[..|hits| - 1], hits[|hits| - 1];
      MissingNoDup(rest, pid, known);
      MissingIff(rest, pid, known, Pair(last.id, pid));
    }
  }

  /** No pair is inserted twice, so the unique constraint of the table holds. */
  lemma {:induction false} AllMissingNoDup(o: Oracle, packages: seq<Package>, cves: seq<Cve>, rows: seq<Row>)
    requires UniquePackages(packages) && UniqueIds(cves)
    ensures NoDup(AllMissing(o, packages, cves, rows))
  {
    if packages == [] {
    } else {
      var rest, last := packages[..|packages| - 1], packages[|packages| - 1];
      UniqueRest(packages);
      AllMissingNoDup(o, rest, cves, rows);
      HitsUnique(o, cves, last);
      var before := AllMissing(o, rest, cves, rows);
      var added := Missing(Hits(o, cves, last), last.id, CveIdsOf(RowsOf(rows, last.id)));
      MissingNoDup(Hits(o, cves, last), last.id, CveIdsOf(RowsOf(rows, last.id)));
      forall i, j | 0 <= i < |before| && 0 <= j < |added| ensures before[i] != added[j] {
        AllMissingIff(o, rest, cves, rows, before[i]);
        AcceptedIsScanned(o, rest, cves, before[i]);
        MissingIff(Hits(o, cves, last), last.id, CveIdsOf(RowsOf(rows, last.id)), added[j]);
      }
    }
  }

  // --- the table after the writes ---

  lemma {:induction false} WithoutIsKept(o: Oracle, packages: seq<Package>, cves: seq<Cve>, rows: seq<Row>, ids: set<nat>)
    requires forall i :: 0 <= i < |rows| ==> (rows[i].id in ids <==> !Right(o, packages, cves, rows[i].pair))
    ensures Without(rows, ids) == Kept(o, packages, cves, rows)
  {
    if rows == [] {
    } else {
      WithoutIsKept(o, packages, cves, rows[..|rows| - 1], ids);
    }
  }

  lemma {:induction false} WithoutConcat(a: seq<Row>, b: seq<Row>, ids: set<nat>)
    requires forall i :: 0 <= i < |b| ==> b[i].id !in ids
    ensures Without(a + b, ids) == Without(a, ids) + b
  {
    if b == [] {
      assert a + b == a;
    } else {
      var rest, last := b[..|b| - 1], b[|b| - 1];
      WithoutConcat(a, rest, ids);
      assert a + b == (a + rest) + [last];
      WithoutSnoc(a + rest, last, ids);
    }
  }

  /** What both writes leave behind. */
  function Written(o: Oracle, packages: seq<Package>, cves: seq<Cve>, before: seq<Row>, next: nat): seq<Row> {
    Without(before + NewRows(AllMissing(o, packages, cves, before), next), IdSet(AllStale(o, packages, cves, before)))
  }

  lemma WrittenIs(o: Oracle, packages: seq<Package>, cves: seq<Cve>, before: seq<Row>, next: nat)
    requires UniquePackages(packages) && UniqueRows(before)
    requires forall i :: 0 <= i < |before| ==> before[i].id < next
    ensures Written(o, packages, cves, before, next)
         == Kept(o, packages, cves, before) + NewRows(AllMissing(o, packages, cves, before), next)
  {
    hide Right, AllStale, AllMissing;
    var added, stale := NewRows(AllMissing(o, packages, cves, before), next), IdSet(AllStale(o, packages, cves, before));
    forall i | 0 <= i < |before| ensures before[i].id in stale <==> !Right(o, packages, cves, before[i].pair) {
      AllStaleIff(o, packages, cves, before, before[i].id);
    }
    forall i | 0 <= i < |added| ensures added[i].id !in stale {
      AllStaleIff(o, packages, cves, before, added[i].id);
    }
    WithoutIsKept(o, packages, cves, before, stale);
    WithoutConcat(before, added, stale);
  }

  /** Inserting what is missing and then deleting what is stale leaves a reconciled table. */
  lemma WritesReconcile(o: Oracle, packages: seq<Package>, cves: seq<Cve>, before: seq<Row>, next: nat, removed: nat)
    requires UniquePackages(packages) && UniqueRows(before)
    requires forall i :: 0 <= i < |before| ==> before[i].id < next
    requires UniqueRows(Written(o, packages, cves, before, next))
    requires |Written(o, packages, cves, before, next)|
          == |before| + |AllMissing(o, packages, cves, before)| - removed
    ensures Reconciled(o, packages, cves, before, Written(o, packages, cves, before, next),
                       |AllMissing(o, packages, cves, before)|, removed)
  {
    hide Right, AllStale, AllMissing, Accepted, Kept, Written, HasPair;
    var missing, kept := AllMissing(o, packages, cves, before), Kept(o, packages, cves, before);
    WrittenIs(o, packages, cves, before, next);
    var after := kept + NewRows(missing, next);
    forall i | |kept| <= i < |after|
      ensures Accepted(o, packages, cves, after[i].pair) && !HasPair(before, after[i].pair)
    {
      AllMissingIff(o, packages, cves, before, missing[i - |kept|]);
    }
    forall q | Accepted(o, packages, cves, q) ensures HasPair(after, q) {
      StoredOrAdded(o, packages, cves, before, missing, next, q);
    }
  }

  lemma StoredOrAdded(o: Oracle, packages: seq<Package>, cves: seq<Cve>, before: seq<Row>, missing: seq<Pair>, next: nat, q: Pair)
    requires UniquePackages(packages) && Accepted(o, packages, cves, q) && missing == AllMissing(o, packages, cves, before)
    ensures HasPair(Kept(o, packages, cves, before) + NewRows(missing, next), q)
  {
    hide AllMissing, Accepted, Kept;
    var kept := Kept(o, packages, cves, before);
    if HasPair(before, q) {
      var i :| 0 <= i < |before| && before[i].pair == q;
      KeptIff(o, packages, cves, before, before[i]);
      var j :| 0 <= j < |kept| && kept[j] == before[i];
      InEither(kept, missing, next, q, j);
    } else {
      AllMissingIff(o, packages, cves, before, q);
      var j :| 0 <= j < |missing| && missing[j] == q;
      InEither(kept, missing, next, q, |kept| + j);
    }
  }

  lemma InEither(kept: seq<Row>, missing: seq<Pair>, next: nat, q: Pair, k: nat)
    requires k < |kept| + |missing|
    requires q == if k < |kept| then kept[k].pair else missing[k - |kept|]
    ensures HasPair(kept + NewRows(missing, next), q)
  {
    var after := kept + NewRows(missing, next);
    assert after[k].pair == q;
  }

  // --- collecting the inputs ---

  function Listed<T>(groups: map<string, seq<T>>, key: string): seq<T> {
    if key in groups then groups[key] else []
  }

  method GroupByPackage(existing: seq<Row>) returns (groups: map<string, seq<Row>>)
    ensures forall pid :: Listed(groups, pid) == RowsOf(existing, pid)
  {
    groups := map[];
    for i := 0 to |existing|
      invariant forall pid :: Listed(groups, pid) == RowsOf(existing[..i], pid)
    {
      var pid := existing[i].pair.packageId;
      assert existing[..i + 1] == existing[..i] + [existing[i]];
      forall p ensures RowsOf(existing[..i + 1], p) == RowsOf(existing[..i], p) + if p == pid then [existing[i]] else [] {
        RowsOfSnoc(existing[..i], existing[i], p);
      }
      groups := groups[pid := Listed(groups, pid) + [existing[i]]];
    }
    assert existing[..|existing|] == existing;
  }

  /** The lower-case names of the packages, each once, in order. */
  function NamesOf(o: Oracle, packages: seq<Package>): seq<string> {
    if packages == [] then []
    else
      var rest, name := NamesOf(o, packages[..|packages| - 1]), o.lower(packages[|packages| - 1].name);
      if name in rest then rest else rest + [name]
  }

  lemma {:induction false} NamesOfIs(o: Oracle, packages: seq<Package>)
    ensures NoDup(NamesOf(o, packages))
    ensures forall name :: name in NamesOf(o, packages) <==> exists p :: p in packages && name == o.lower(p.name)
  {
    if packages == [] {
      assert NamesOf(o, packages) == [];
    } else {
      NamesOfIs(o, packages[..|packages| - 1]);
      assert packages == packages[..|packages| - 1] + [packages[|packages| - 1]];
    }
  }

  method PackageNamesAndIds(o: Oracle, packages: seq<Package>) returns (names: seq<string>, ids: seq<string>)
    requires UniquePackages(packages)
    ensures names == NamesOf(o, packages)
    ensures NoDup(ids) && forall pid :: pid in ids <==> Scanned(packages, pid)
  {
    names, ids := [], [];
    for i := 0 to |packages|
      invariant names == NamesOf(o, packages[..i])
      invariant |ids| == i && forall k :: 0 <= k < i ==> ids[k] == packages[k].id
    {
      assert packages[..i + 1][..i] == packages[..i];
      if o.lower(packages[i].name) !in names {
        names := names + [o.lower(packages[i].name)];
      }
      ids := ids + [packages[i].id];
    }
    assert packages[..|packages|] == packages;
  }

  /** The CVEs of all answers, the first of each id. */
  function FirstById(fetched: seq<Cve>): seq<Cve> {
    if fetched == [] then []
    else
      var rest, last := fetched[..|fetched| - 1], fetched[|fetched| - 1];
      FirstById(rest) + if last.id in IdsOf(rest) then [] else [last]
  }

  /** The first of its id. */
  predicate IsFirst(fetched: seq<Cve>, c: Cve) {
    exists i :: 0 <= i < |fetched| && fetched[i] == c && forall k :: 0 <= k < i ==> fetched[k].id != c.id
  }

  lemma StaysFirst(fetched: seq<Cve>, c: Cve, later: seq<Cve>)
    requires IsFirst(fetched, c)
    ensures IsFirst(fetched + later, c)
  {
    var i :| 0 <= i < |fetched| && fetched[i] == c && forall k :: 0 <= k < i ==> fetched[k].id != c.id;
    assert (fetched + later)[i] == c && forall k :: 0 <= k < i ==> (fetched + later)[k] == fetched[k];
  }

  /** No fetched CVE is lost, and none appears twice. */
  lemma {:induction false} FirstByIdIs(fetched: seq<Cve>)
    ensures UniqueIds(FirstById(fetched)) && IdsOf(FirstById(fetched)) == IdsOf(fetched)
    ensures forall c :: c in FirstById(fetched) ==> c in fetched
  {
    if fetched == [] {
    } else {
      var rest, last := fetched[..|fetched| - 1], fetched[|fetched| - 1];
      FirstByIdIs(rest);
      assert fetched == rest + [last];
      assert IdsOf(fetched) == IdsOf(rest) + {last.id};
      forall c | c in FirstById(rest) ensures c.id in IdsOf(FirstById(rest)) {
      }
    }
  }

  /** Of each id the first is kept. */
  lemma {:induction false} FirstIsKept(fetched: seq<Cve>)
    ensures forall c :: c in FirstById(fetched) ==> IsFirst(fetched, c)
  {
    if fetched == [] {
    } else {
      var rest, last := fetched[..|fetched| - 1], fetched[|fetched| - 1];
      FirstIsKept(rest);
      assert fetched == rest + [last];
      if last.id !in IdsOf(rest) {
        NewIsFirst(rest, last);
      }
      forall c | c in FirstById(rest) ensures IsFirst(fetched, c) {
        StaysFirst(rest, c, [last]);
      }
      hide IsFirst, IdsOf;
    }
  }

  lemma NewIsFirst(fetched: seq<Cve>, c: Cve)
    requires c.id !in IdsOf(fetched)
    ensures IsFirst(fetched + [c], c)
  {
    var all := fetched + [c];
    assert all[|fetched|] == c;
    forall k | 0 <= k < |fetched| ensures all[k].id != c.id {
      assert fetched[k] in fetched;
    }
  }

  /** Later answers only add CVEs at the end. */
  lemma {:induction false} FirstByIdGrows(fetched: seq<Cve>, later: seq<Cve>)
    ensures FirstById(fetched) <= FirstById(fetched + later)
  {
    if later == [] {
      assert fetched + later == fetched;
    } else {
      var rest, last := later[..|later| - 1], later[|later| - 1];
      FirstByIdGrows(fetched, rest);
      assert fetched + later == fetched + rest + [last];
      assert (fetched + rest + [last])[..|fetched + rest|] == fetched + rest;
    }
  }

  /** What the chunked queries answer, one after the other; no query is made for an empty chunk. */
  function Answers(fetch: seq<string> -> seq<Cve>, chunks: seq<seq<string>>): seq<Cve> {
    if chunks == [] then []
    else
      var rest, last := chunks[..|chunks| - 1], chunks[|chunks| - 1];
      Answers(fetch, rest) + if last == [] then [] else fetch(last)
  }

  /** The CVEs that a scan of these packages works with. */
  function CvesFor(o: Oracle, packages: seq<Package>, fetch: seq<string> -> seq<Cve>): seq<Cve> {
    if packages == [] then [] else FirstById(Answers(fetch, ShortPieces(NamesOf(o, packages), 200)))
  }

  lemma {:induction false} AnswersIff(fetch: seq<string> -> seq<Cve>, chunks: seq<seq<string>>, c: Cve)
    ensures c in Answers(fetch, chunks) <==> exists chunk :: chunk in chunks && chunk != [] && c in fetch(chunk)
  {
    if chunks == [] {
    } else {
      var rest, last := chunks[..|chunks| - 1], chunks[|chunks| - 1];
      AnswersIff(fetch, rest, c);
      assert chunks == rest + [last];
    }
  }

  /** The queries answer CVEs of the database only, and every one that mentions a name asked for. */
  ghost predicate Answering(o: Oracle, fetch: seq<string> -> seq<Cve>, all: seq<Cve>) {
    && (forall chunk, c :: c in fetch(chunk) ==> c in all)
    && (forall chunk, c, name :: c in all && name in chunk && Mentions(o, c.affected, name) ==> c in fetch(chunk))
  }

  lemma FetchedIsStored(o: Oracle, packages: seq<Package>, fetch: seq<string> -> seq<Cve>, all: seq<Cve>, c: Cve)
    requires Answering(o, fetch, all) && c in CvesFor(o, packages, fetch)
    ensures c in all
  {
    var chunks := ShortPieces(NamesOf(o, packages), 200);
    FirstByIdIs(Answers(fetch, chunks));
    assert c in Answers(fetch, chunks);
    AnswersIff(fetch, chunks, c);
  }

  lemma MentionedIsFetched(o: Oracle, packages: seq<Package>, fetch: seq<string> -> seq<Cve>, all: seq<Cve>, c: Cve, p: Package)
    requires Answering(o, fetch, all) && UniqueIds(all) && c in all && p in packages && Mentions(o, c.affected, o.lower(p.name))
    ensures c in CvesFor(o, packages, fetch)
  {
    var names := NamesOf(o, packages);
    var chunks := ShortPieces(names, 200);
    NamesOfIs(o, packages);
    ShortPiecesFlatten(names, 200);
    InFlatten(chunks, o.lower(p.name));
    var k :| 0 <= k < |chunks| && o.lower(p.name) in chunks[k];
    assert chunks[k] in chunks;
    AnswersIff(fetch, chunks, c);
    FirstByIdIs(Answers(fetch, chunks));
    assert c.id in IdsOf(FirstById(Answers(fetch, chunks)));
    var d :| d in FirstById(Answers(fetch, chunks)) && d.id == c.id;
    FetchedIsStored(o, packages, fetch, all, d);
  }

  /** Asking only for CVEs that mention a package's name, 200 names at a time, loses nothing: a scan accepts the
      same pairs as the check of every package against every CVE of the database. */
  lemma FetchMissesNothing(o: Oracle, packages: seq<Package>, fetch: seq<string> -> seq<Cve>, all: seq<Cve>, q: Pair)
    requires Answering(o, fetch, all) && UniqueIds(all)
    ensures Accepted(o, packages, CvesFor(o, packages, fetch), q) <==> Accepted(o, packages, all, q)
  {
    hide Affects, Answering, CvesFor;
    var cves := CvesFor(o, packages, fetch);
    if Accepted(o, packages, cves, q) {
      var i, j :| 0 <= i < |packages| && 0 <= j < |cves|
                  && q == Pair(cves[j].id, packages[i].id) && Affects(o, cves[j].affected, packages[i]);
      FetchedIsStored(o, packages, fetch, all, cves[j]);
      var k :| 0 <= k < |all| && all[k] == cves[j];
    }
    if Accepted(o, packages, all, q) {
      var i, j :| 0 <= i < |packages| && 0 <= j < |all|
                  && q == Pair(all[j].id, packages[i].id) && Affects(o, all[j].affected, packages[i]);
      AffectingMentions(o, all[j].affected, packages[i]);
      MentionedIsFetched(o, packages, fetch, all, all[j], packages[i]);
      var k :| 0 <= k < |cves| && cves[k] == all[j];
    }
  }

  method FetchCves(fetch: seq<string> -> seq<Cve>, names: seq<string>) returns (cves: seq<Cve>)
    ensures cves == FirstById(Answers(fetch, ShortPieces(names, 200))) && UniqueIds(cves)
  {
    cves := [];
    var chunks := ChunkShort(names, 200);
    for k := 0 to |chunks|
      invariant cves == FirstById(Answers(fetch, chunks[..k]))
    {
      var before := Answers(fetch, chunks[..k]);
      assert chunks[..k + 1][..k] == chunks[..k];
      if chunks[k] == [] {
        assert before + [] == before;
        continue;
      }
      cves := AddAnswer(before, cves, fetch(chunks[k]));
    }
    assert chunks[..|chunks|] == chunks;
    FirstByIdIs(Answers(fetch, chunks));
  }

  method AddAnswer(before: seq<Cve>, known: seq<Cve>, chunkCves: seq<Cve>) returns (cves: seq<Cve>)
    requires known == FirstById(before)
    ensures cves == FirstById(before + chunkCves)
  {
    cves := known;
    assert before + chunkCves[..0] == before;
    for i := 0 to |chunkCves|
      invariant cves == FirstById(before + chunkCves[..i])
    {
      var seen := before + chunkCves[..i];
      FirstByIdIs(seen);
      assert before + chunkCves[..i + 1] == seen + [chunkCves[i]];
      assert (seen + [chunkCves[i]])[..|seen|] == seen;
      if chunkCves[i].id !in IdsOf(cves) {
        cves := cves + [chunkCves[i]];
      }
    }
    assert chunkCves[..|chunkCves|] == chunkCves;
  }

  // --- reconciling ---

  function MatchKey(q: Pair): string { q.cveId + ":" + q.packageId }

  /** The key determines the pair, because package ids hold no colon. */
  lemma KeyDetermines(q: Pair, r: Pair)
    requires MatchKey(q) == MatchKey(r) && ':' !in q.packageId && ':' !in r.packageId
    ensures q == r
  {
    KeyColon(q, r);
    KeyColon(r, q);
    var n := |q.cveId|;
    assert q.cveId == MatchKey(q)[..n] && r.cveId == MatchKey(r)[..n];
    assert q.packageId == MatchKey(q)[n + 1..] && r.packageId == MatchKey(r)[n + 1..];
  }

  lemma KeyColon(q: Pair, r: Pair)
    requires MatchKey(q) == MatchKey(r) && ':' !in r.packageId
    ensures |q.cveId| <= |r.cveId|
  {
    var n := |q.cveId|;
    assert MatchKey(q)[n] == ':';
    if n > |r.cveId| {
      NoColonLater(r, n);
    }
  }

  lemma NoColonLater(r: Pair, n: nat)
    requires |r.cveId| < n < |MatchKey(r)| && ':' !in r.packageId
    ensures MatchKey(r)[n] != ':'
  {
    assert MatchKey(r)[n] == r.packageId[n - |r.cveId| - 1];
  }

  function KeySet(pairs: seq<Pair>): set<string> { set q | q in pairs :: MatchKey(q) }

  lemma KeySetSnoc(pairs: seq<Pair>, q: Pair)
    ensures KeySet(pairs + [q]) == KeySet(pairs) + {MatchKey(q)}
  {
  }

  lemma MissingSnoc(hits: seq<Cve>, c: Cve, pid: string, known: set<string>)
    ensures Missing(hits + [c], pid, known) == Missing(hits, pid, known) + if c.id in known then [] else [Pair(c.id, pid)]
    ensures PairsOf(hits + [c], pid) == PairsOf(hits, pid) + [Pair(c.id, pid)]
    ensures IdsOf(hits + [c]) == IdsOf(hits) + {c.id}
  {
    assert (hits + [c])[..|hits|] == hits;
  }

  lemma FreshKey(pairs: seq<Pair>, q: Pair)
    requires q !in pairs && ':' !in q.packageId && forall r :: r in pairs ==> ':' !in r.packageId
    ensures MatchKey(q) !in KeySet(pairs)
  {
    if MatchKey(q) in KeySet(pairs) {
      var r :| r in pairs && MatchKey(r) == MatchKey(q);
      KeyDetermines(q, r);
    }
  }

  /** The pairs collected so far for earlier packages. */
  ghost predicate Earlier(pairs: seq<Pair>, pid: string) {
    ':' !in pid && forall q :: q in pairs ==> q.packageId != pid && ':' !in q.packageId
  }

  lemma NewHitIsFresh(o: Oracle, relevant: seq<Cve>, i: nat, pkg: Package, earlier: seq<Pair>, known: set<string>)
    requires UniqueIds(relevant) && i < |relevant| && Earlier(earlier, pkg.id)
    ensures MatchKey(Pair(relevant[i].id, pkg.id)) !in KeySet(earlier + Missing(Hits(o, relevant[..i], pkg), pkg.id, known))
  {
    var hits, q := Hits(o, relevant[..i], pkg), Pair(relevant[i].id, pkg.id);
    var found := Missing(hits, pkg.id, known);
    forall r | r in found ensures r != q && ':' !in r.packageId {
      MissingIff(hits, pkg.id, known, r);
      var c :| c in hits && c.id == r.cveId;
      HitIff(o, relevant[..i], pkg, c);
    }
    FreshKey(earlier + found, q);
  }

  /** One package against the CVEs filed under its name. */
  method MatchPackage(o: Oracle, pkg: Package, relevantCves: seq<Cve>, affectedCache: map<string, seq<Entry>>,
                      existingSet: set<string>, newMatches: seq<Pair>, newKeys: set<string>)
    returns (matches: seq<Pair>, activeSet: set<string>, allMatches: seq<Pair>, allKeys: set<string>)
    requires Preorder(o.compare) && UniqueIds(relevantCves) && Earlier(newMatches, pkg.id) && newKeys == KeySet(newMatches)
    requires forall c :: c in relevantCves ==> c.id in affectedCache && affectedCache[c.id] == c.affected
    ensures matches == PairsOf(Hits(o, relevantCves, pkg), pkg.id)
    ensures activeSet == IdsOf(Hits(o, relevantCves, pkg))
    ensures allMatches == newMatches + Missing(Hits(o, relevantCves, pkg), pkg.id, existingSet)
    ensures allKeys == KeySet(allMatches)
  {
    hide Hits, Missing, MatchKey, KeySet, Affects;
    matches, activeSet, allMatches, allKeys := [], {}, newMatches, newKeys;
    NoHits(o, pkg, existingSet);
    assert relevantCves[..0] == [];
    for i := 0 to |relevantCves|
      invariant matches == PairsOf(Hits(o, relevantCves[..i], pkg), pkg.id)
      invariant activeSet == IdsOf(Hits(o, relevantCves[..i], pkg))
      invariant allMatches == newMatches + Missing(Hits(o, relevantCves[..i], pkg), pkg.id, existingSet)
      invariant allKeys == KeySet(allMatches)
    {
      var cve := relevantCves[i];
      var hits := Hits(o, relevantCves[..i], pkg);
      assert relevantCves[..i + 1] == relevantCves[..i] + [cve];
      HitsSnoc(o, relevantCves[..i], cve, pkg);
      var affected := IsPackageAffectedByEntries(o, affectedCache[cve.id], pkg);
      if !affected {
        assert Hits(o, relevantCves[..i + 1], pkg) == hits;
        continue;
      }
      MissingSnoc(hits, cve, pkg.id, existingSet);
      ghost var missing := Missing(hits, pkg.id, existingSet);
      assert newMatches + (missing + [Pair(cve.id, pkg.id)]) == (newMatches + missing) + [Pair(cve.id, pkg.id)];
      assert missing + [] == missing;
      activeSet := activeSet + {cve.id};
      if cve.id !in existingSet {
        NewHitIsFresh(o, relevantCves, i, pkg, newMatches, existingSet);
        var pair := Pair(cve.id, pkg.id);
        if MatchKey(pair) !in allKeys {
          KeySetSnoc(allMatches, pair);
          allMatches := allMatches + [pair];
          allKeys := allKeys + {MatchKey(pair)};
        }
      }
      matches := matches + [Pair(cve.id, pkg.id)];
    }
    assert relevantCves[..|relevantCves|] == relevantCves;
  }

  lemma NoHits(o: Oracle, pkg: Package, known: set<string>)
    ensures Hits(o, [], pkg) == [] && Missing([], pkg.id, known) == []
  {
  }

  method StaleRows(existing: seq<Row>, activeSet: set<string>) returns (staleIds: seq<nat>)
    ensures staleIds == Stale(existing, activeSet)
  {
    staleIds := [];
    for i := 0 to |existing|
      invariant staleIds == Stale(existing[..i], activeSet)
    {
      assert existing[..i + 1][..i] == existing[..i];
      if existing[i].pair.cveId !in activeSet {
        staleIds := staleIds + [existing[i].id];
      }
    }
    assert existing[..|existing|] == existing;
  }

  /** The main loop: which pairs are accepted, which of them are missing, and which rows are stale. */
  method Reconcile(o: Oracle, packages: seq<Package>, ghost cves: seq<Cve>, ghost rows: seq<Row>,
                   cvesByPackageName: map<string, seq<Cve>>, affectedCache: map<string, seq<Entry>>,
                   existingByPackage: map<string, seq<Row>>)
    returns (matches: seq<Pair>, newMatches: seq<Pair>, staleIds: seq<nat>)
    requires Preorder(o.compare) && UniqueIds(cves) && UniquePackages(packages) && PlainIds(packages)
    requires forall p :: p in packages ==> Listed(cvesByPackageName, o.lower(p.name)) == MentionedBy(o, cves, o.lower(p.name))
    requires forall c :: c in cves ==> c.id in affectedCache && affectedCache[c.id] == c.affected
    requires forall p :: p in packages ==> Listed(existingByPackage, p.id) == RowsOf(rows, p.id)
    ensures matches == AllPairs(o, packages, cves)
    ensures newMatches == AllMissing(o, packages, cves, rows)
    ensures staleIds == AllStale(o, packages, cves, rows)
  {
    hide Hits, Missing, MatchKey, KeySet, Affects, MentionedBy, RowsOf, Stale, IdsOf, CveIdsOf, Earlier, UniqueIds;
    matches, newMatches, staleIds := [], [], [];
    var newKeys: set<string> := {};
    NoKeys();
    for i := 0 to |packages|
      invariant matches == AllPairs(o, packages[..i], cves)
      invariant newMatches == AllMissing(o, packages[..i], cves, rows)
      invariant staleIds == AllStale(o, packages[..i], cves, rows)
      invariant newKeys == KeySet(newMatches)
    {
      var pkg := packages[i];
      assert pkg in packages;
      assert packages[..i + 1][..i] == packages[..i];
      var relevantCves := Listed(cvesByPackageName, o.lower(pkg.name));
      var existing := Listed(existingByPackage, pkg.id);
      MentionedUnique(o, cves, o.lower(pkg.name));
      IndexLosesNothing(o, cves, pkg);
      EarlierMatches(o, packages, i, cves, rows);
      var ms, activeSet, all, keys := MatchPackage(o, pkg, relevantCves, affectedCache, CveIdsOf(existing), newMatches, newKeys);
      var stale := StaleRows(existing, activeSet);
      matches, newMatches, newKeys, staleIds := matches + ms, all, keys, staleIds + stale;
    }
    assert packages[..|packages|] == packages;
  }

  lemma NoKeys()
    ensures KeySet([]) == {}
  {
  }

  lemma EarlierMatches(o: Oracle, packages: seq<Package>, i: nat, cves: seq<Cve>, rows: seq<Row>)
    requires UniquePackages(packages) && PlainIds(packages) && i < |packages|
    ensures Earlier(AllMissing(o, packages[..i], cves, rows), packages[i].id)
  {
    hide AllMissing, Accepted;
    assert packages[i] in packages;
    var earlier := packages[..i];
    assert UniquePackages(earlier);
    forall q | q in AllMissing(o, earlier, cves, rows) ensures q.packageId != packages[i].id && ':' !in q.packageId {
      AllMissingIff(o, earlier, cves, rows, q);
      AcceptedIsScanned(o, earlier, cves, q);
      var k :| 0 <= k < |earlier| && earlier[k].id == q.packageId;
      assert packages[k] in packages;
    }
  }

  /** The whole scan. `fetch` answers the text query for a chunk of names. */
  method ScanPackages(o: Oracle, packages: seq<Package>, fetch: seq<string> -> seq<Cve>, db: Database)
    returns (matches: seq<Pair>, created: nat, removed: nat)
    requires Preorder(o.compare) && UniquePackages(packages) && PlainIds(packages) && db.Valid()
    modifies db
    ensures db.Valid()
    ensures matches == AllPairs(o, packages, CvesFor(o, packages, fetch))
    ensures Reconciled(o, packages, CvesFor(o, packages, fetch), old(db.rows), db.rows, created, removed)
  {
    if packages == [] {
      matches, created, removed := [], 0, 0;
      AllKept(o, packages, [], db.rows);
      return;
    }
    hide Reconciled, Accepted, Kept, AllPairs, AllMissing, AllStale, UniqueRows, FirstById, Answers, MentionedBy;
    var packageNames, packageIds := PackageNamesAndIds(o, packages);
    var existingMatches := FindAll(db, packageIds);
    var existingByPackage := GroupByPackage(existingMatches);
    NamesOfIs(o, packages);
    var cves := FetchCves(fetch, packageNames);
    var cvesByPackageName, affectedCache := IndexByName(o, cves, packageNames);
    var newMatches, staleIds;
    matches, newMatches, staleIds :=
      Reconcile(o, packages, cves, db.rows, cvesByPackageName, affectedCache, existingByPackage);
    forall q | q in newMatches ensures !HasPair(db.rows, q) {
      AllMissingIff(o, packages, cves, db.rows, q);
    }
    AllMissingNoDup(o, packages, cves, db.rows);
    created := CreateAll(db, newMatches);
    removed := DeleteAll(db, staleIds);
    assert db.rows == Written(o, packages, cves, old(db.rows), old(db.next));
    WritesReconcile(o, packages, cves, old(db.rows), old(db.next), removed);
  }

  /** Two scans in a row: the second reports the same matches and changes nothing. */
  method ScanTwice(o: Oracle, packages: seq<Package>, fetch: seq<string> -> seq<Cve>, db: Database)
    returns (matches: seq<Pair>, again: seq<Pair>, created: nat, removed: nat)
    requires Preorder(o.compare) && UniquePackages(packages) && PlainIds(packages) && db.Valid()
    modifies db
    ensures db.Valid() && again == matches && created == 0 && removed == 0
    ensures exists n: nat, m: nat :: Reconciled(o, packages, CvesFor(o, packages, fetch), old(db.rows), db.rows, n, m)
  {
    hide Reconciled, AllPairs, CvesFor;
    var n, m;
    matches, n, m := ScanPackages(o, packages, fetch, db);
    ghost var rows := db.rows;
    again, created, removed := ScanPackages(o, packages, fetch, db);
    SecondScanIdle(o, packages, CvesFor(o, packages, fetch), old(db.rows), rows, db.rows, n, m, created, removed);
  }
}

/** Which packages a CVE affects, checked directly and through an index by lower-case name. Lower-casing, the
    manager table and the two version comparisons are unknown functions. */
module Matcher {

  import opened Wrappers
  import opened OsvRange

  datatype Range = Range(events: Option<seq<Event>>)

  datatype Entry = Entry(name: Option<string>, ecosystem: Option<string>,
                         versions: Option<seq<string>>, ranges: Option<seq<Range>>)

  datatype Package = Package(id: string, name: string, version: string, manager: Option<string>)

  /** A CVE with its parsed list of affected entries. */
  datatype Cve = Cve(id: string, affected: seq<Entry>)

  datatype Oracle = Oracle(
    lower: string -> string,
    ecosystemOf: Option<string> -> Option<string>,
    sameVersion: (string, string) -> bool,
    compare: Compare)

  // --- the direct check ---

  function EntryName(o: Oracle, e: Entry): Option<string> {
    if e.name.Some? && o.lower(e.name.value) != "" then Some(o.lower(e.name.value)) else None
  }

  predicate InRange(o: Oracle, version: string, r: Range) {
    r.events.Some? && Scan(o.compare, version, r.events.value, None)
  }

  predicate OtherEcosystem(o: Oracle, e: Entry, pkg: Package) {
    && Truthy(e.ecosystem)
    && Truthy(o.ecosystemOf(pkg.manager))
    && o.lower(e.ecosystem.value) != o.lower(o.ecosystemOf(pkg.manager).value)
  }

  predicate ListsVersion(o: Oracle, e: Entry, version: string) {
    e.versions.Some? && exists i :: 0 <= i < |e.versions.value| && o.sameVersion(e.versions.value[i], version)
  }

  predicate CoversVersion(o: Oracle, e: Entry, version: string) {
    e.ranges.Some? && exists i :: 0 <= i < |e.ranges.value| && InRange(o, version, e.ranges.value[i])
  }

  predicate NoVersionInfo(e: Entry) {
    (e.ranges.None? || e.ranges.value == []) && (e.versions.None? || e.versions.value == [])
  }

  predicate EntryAffects(o: Oracle, e: Entry, pkg: Package) {
    && EntryName(o, e) == Some(o.lower(pkg.name))
    && !OtherEcosystem(o, e, pkg)
    && (ListsVersion(o, e, pkg.version) || CoversVersion(o, e, pkg.version) || NoVersionInfo(e))
  }

  predicate Affects(o: Oracle, entries: seq<Entry>, pkg: Package) {
    exists i :: 0 <= i < |entries| && EntryAffects(o, entries[i], pkg)
  }

  /** An entry affects a package of its name, unless both name an ecosystem and these differ, if it lists the
      version, or one of its ranges holds it, or it says nothing of versions. */
  lemma EntryMeans(o: Oracle, e: Entry, pkg: Package)
    ensures EntryAffects(o, e, pkg) <==>
              var manager := o.ecosystemOf(pkg.manager);
              && e.name.Some? && o.lower(e.name.value) != "" && o.lower(e.name.value) == o.lower(pkg.name)
              && (e.ecosystem.Some? && e.ecosystem.value != "" && manager.Some? && manager.value != "" ==>
                    o.lower(e.ecosystem.value) == o.lower(manager.value))
              && (|| (e.versions.Some? && exists v :: v in e.versions.value && o.sameVersion(v, pkg.version))
                  || (e.ranges.Some? && exists g :: (g in e.ranges.value && g.events.Some?
                        && Scan(o.compare, pkg.version, g.events.value, None)))
                  || ((e.ranges.None? || e.ranges.value == []) && (e.versions.None? || e.versions.value == [])))
  {
    assert ListsVersion(o, e, pkg.version)
      <==> e.versions.Some? && exists v :: v in e.versions.value && o.sameVersion(v, pkg.version);
    assert CoversVersion(o, e, pkg.version)
      <==> e.ranges.Some? && exists r :: r in e.ranges.value && InRange(o, pkg.version, r);
    hide Scan;
  }

  lemma AffectsMeans(o: Oracle, entries: seq<Entry>, pkg: Package)
    ensures Affects(o, entries, pkg) <==>
              exists i ::
                0 <= i < |entries| &&
                var e, manager := entries[i], o.ecosystemOf(pkg.manager);
                && e.name.Some? && o.lower(e.name.value) != "" && o.lower(e.name.value) == o.lower(pkg.name)
                && (e.ecosystem.Some? && e.ecosystem.value != "" && manager.Some? && manager.value != "" ==>
                      o.lower(e.ecosystem.value) == o.lower(manager.value))
                && (|| (e.versions.Some? && exists v :: v in e.versions.value && o.sameVersion(v, pkg.version))
                    || (e.ranges.Some? && exists g :: (g in e.ranges.value && g.events.Some?
                          && Scan(o.compare, pkg.version, g.events.value, None)))
                    || ((e.ranges.None? || e.ranges.value == []) && (e.versions.None? || e.versions.value == [])))
  {
    forall i | 0 <= i < |entries| {
      EntryMeans(o, entries[i], pkg);
    }
    hide EntryAffects, Scan;
  }

  // --- ecosystems ---

  lemma AffectsAround(o: Oracle, before: seq<Entry>, e: Entry, after: seq<Entry>, pkg: Package)
    ensures Affects(o, before + [e] + after, pkg) <==> Affects(o, before + after, pkg) || EntryAffects(o, e, pkg)
  {
    hide EntryAffects;
    var all := before + [e] + after;
    if EntryAffects(o, e, pkg) {
      assert all[|before|] == e;
    }
    if Affects(o, before + after, pkg) {
      var i :| 0 <= i < |before + after| && EntryAffects(o, (before + after)[i], pkg);
      assert (before + after)[i] == if i < |before| then all[i] else all[i + 1];
    }
    if Affects(o, all, pkg) && !EntryAffects(o, e, pkg) {
      var i :| 0 <= i < |all| && EntryAffects(o, all[i], pkg);
      assert all[i] == if i < |before| then (before + after)[i] else (before + after)[i - 1];
    }
  }

  /** Where both ecosystems are given and differ, the entry might as well not be there. */
  lemma OtherEcosystemIgnored(o: Oracle, before: seq<Entry>, e: Entry, after: seq<Entry>, pkg: Package, manager: string)
    requires e.ecosystem.Some? && e.ecosystem.value != "" && o.ecosystemOf(pkg.manager) == Some(manager) && manager != ""
    requires o.lower(e.ecosystem.value) != o.lower(manager)
    ensures Affects(o, before + [e] + after, pkg) <==> Affects(o, before + after, pkg)
  {
    AffectsAround(o, before, e, after, pkg);
  }

  /** Where both are given and equal, an entry of the package's name that says nothing of versions affects every
      version. */
  lemma SameEcosystemAffects(o: Oracle, before: seq<Entry>, e: Entry, after: seq<Entry>, pkg: Package, manager: string)
    requires e.ecosystem.Some? && o.ecosystemOf(pkg.manager) == Some(manager)
    requires o.lower(e.ecosystem.value) == o.lower(manager)
    requires e.name.Some? && o.lower(e.name.value) == o.lower(pkg.name) != ""
    requires (e.ranges.None? || e.ranges.value == []) && (e.versions.None? || e.versions.value == [])
    ensures forall version :: Affects(o, before + [e] + after, pkg.(version := version))
  {
    forall version ensures Affects(o, before + [e] + after, pkg.(version := version)) {
      AffectsAround(o, before, e, after, pkg.(version := version));
    }
  }

  /** Where the package's manager has no ecosystem, the entry's does not matter. */
  lemma UnknownManagerMatchesAll(o: Oracle, before: seq<Entry>, e: Entry, after: seq<Entry>, pkg: Package,
                                 other: Option<string>)
    requires o.ecosystemOf(pkg.manager).None? || o.ecosystemOf(pkg.manager).value == ""
    ensures Affects(o, before + [e] + after, pkg) <==> Affects(o, before + [e.(ecosystem := other)] + after, pkg)
  {
    AffectsAround(o, before, e, after, pkg);
    AffectsAround(o, before, e.(ecosystem := other), after, pkg);
    SameBut(o, e, other, pkg);
  }

  lemma SameBut(o: Oracle, e: Entry, other: Option<string>, pkg: Package)
    requires o.ecosystemOf(pkg.manager).None? || o.ecosystemOf(pkg.manager).value == ""
    ensures EntryAffects(o, e, pkg) <==> EntryAffects(o, e.(ecosystem := other), pkg)
  {
    EntryMeans(o, e, pkg);
    EntryMeans(o, e.(ecosystem := other), pkg);
    hide EntryAffects, Scan;
  }

  /** Where no entry names an ecosystem, the package's manager does not matter. */
  lemma NoEcosystemMatchesAll(o: Oracle, entries: seq<Entry>, pkg: Package, manager: Option<string>)
    requires forall e :: e in entries ==> e.ecosystem.None? || e.ecosystem.value == ""
    ensures Affects(o, entries, pkg) <==> Affects(o, entries, pkg.(manager := manager))
  {
    forall i | 0 <= i < |entries|
      ensures EntryAffects(o, entries[i], pkg) <==> EntryAffects(o, entries[i], pkg.(manager := manager))
    {
      EntryMeans(o, entries[i], pkg);
      EntryMeans(o, entries[i], pkg.(manager := manager));
    }
    hide EntryAffects;
  }

  method SomeRange(o: Oracle, version: string, ranges: seq<Range>) returns (r: bool)
    requires Preorder(o.compare)
    ensures r <==> exists i :: 0 <= i < |ranges| && InRange(o, version, ranges[i])
  {
    for i := 0 to |ranges|
      invariant forall k :: 0 <= k < i ==> !InRange(o, version, ranges[k])
    {
      if ranges[i].events.Some? {
        var inRange := IsVersionInRange(o.compare, version, ranges[i].events.value);
        if inRange { return true; }
      }
    }
    return false;
  }

  method IsPackageAffectedByEntries(o: Oracle, affectedEntries: seq<Entry>, pkg: Package) returns (r: bool)
    requires Preorder(o.compare)
    ensures r <==> Affects(o, affectedEntries, pkg)
    ensures r <==>
              exists i ::
                0 <= i < |affectedEntries| &&
                var e, manager := affectedEntries[i], o.ecosystemOf(pkg.manager);
                && e.name.Some? && o.lower(e.name.value) != "" && o.lower(e.name.value) == o.lower(pkg.name)
                && (e.ecosystem.Some? && e.ecosystem.value != "" && manager.Some? && manager.value != "" ==>
                      o.lower(e.ecosystem.value) == o.lower(manager.value))
                && (|| (e.versions.Some? && exists v :: v in e.versions.value && o.sameVersion(v, pkg.version))
                    || (e.ranges.Some? && exists g :: (g in e.ranges.value && g.events.Some?
                          && Scan(o.compare, pkg.version, g.events.value, None)))
                    || ((e.ranges.None? || e.ranges.value == []) && (e.versions.None? || e.versions.value == [])))
  {
    AffectsMeans(o, affectedEntries, pkg);
    if affectedEntries == [] { return false; }
    var packageName := o.lower(pkg.name);
    for i := 0 to |affectedEntries|
      invariant forall k :: 0 <= k < i ==> !EntryAffects(o, affectedEntries[k], pkg)
    {
      var entry := affectedEntries[i];
      var entryName := EntryName(o, entry);
      if entryName != Some(packageName) { continue; }
      if OtherEcosystem(o, entry, pkg) { continue; }
      if ListsVersion(o, entry, pkg.version) { return true; }
      if entry.ranges.Some? {
        var covered := SomeRange(o, pkg.version, entry.ranges.value);
        if covered { return true; }
      }
      if NoVersionInfo(entry) { return true; }
    }
    return false;
  }

  // --- the index ---

  predicate Mentions(o: Oracle, entries: seq<Entry>, name: string) {
    exists i :: 0 <= i < |entries| && EntryName(o, entries[i]) == Some(name)
  }

  /** The CVEs with an entry of the given lower-case name, in order. */
  function MentionedBy(o: Oracle, cves: seq<Cve>, name: string): seq<Cve> {
    if cves == [] then []
    else
      var rest, last := cves[..|cves| - 1], cves[|cves| - 1];
      MentionedBy(o, rest, name) + if Mentions(o, last.affected, name) then [last] else []
  }

  /** The CVEs that affect the package, in order. */
  function Hits(o: Oracle, cves: seq<Cve>, pkg: Package): seq<Cve> {
    if cves == [] then []
    else
      var rest, last := cves[..|cves| - 1], cves[|cves| - 1];
      Hits(o, rest, pkg) + if Affects(o, last.affected, pkg) then [last] else []
  }

  lemma {:induction false} HitIff(o: Oracle, cves: seq<Cve>, pkg: Package, c: Cve)
    ensures c in Hits(o, cves, pkg) <==> c in cves && Affects(o, c.affected, pkg)
  {
    if cves == [] {
    } else {
      HitIff(o, cves[..|cves| - 1], pkg, c);
      assert cves == cves[..|cves| - 1] + [cves[|cves| - 1]];
    }
  }

  lemma HitsSnoc(o: Oracle, cves: seq<Cve>, c: Cve, pkg: Package)
    ensures Hits(o, cves + [c], pkg) == Hits(o, cves, pkg) + if Affects(o, c.affected, pkg) then [c] else []
  {
    assert (cves + [c])[..|cves|] == cves;
  }

  lemma MentionedSnoc(o: Oracle, cves: seq<Cve>, c: Cve, name: string)
    ensures MentionedBy(o, cves + [c], name) == MentionedBy(o, cves, name) + if Mentions(o, c.affected, name) then [c] else []
  {
    assert (cves + [c])[..|cves|] == cves;
  }

  lemma AffectingMentions(o: Oracle, entries: seq<Entry>, pkg: Package)
    requires Affects(o, entries, pkg)
    ensures Mentions(o, entries, o.lower(pkg.name))
  {
    var i :| 0 <= i < |entries| && EntryAffects(o, entries[i], pkg);
    assert EntryName(o, entries[i]) == Some(o.lower(pkg.name));
  }

  /** Looking only at the CVEs filed under a package's name misses none and keeps their order. */
  lemma {:induction false} IndexLosesNothing(o: Oracle, cves: seq<Cve>, pkg: Package)
    ensures Hits(o, MentionedBy(o, cves, o.lower(pkg.name)), pkg) == Hits(o, cves, pkg)
  {
    if cves == [] {
    } else {
      var rest, last := cves[..|cves| - 1], cves[|cves| - 1];
      IndexLosesNothing(o, rest, pkg);
      var filed := MentionedBy(o, rest, o.lower(pkg.name));
      if Mentions(o, last.affected, o.lower(pkg.name)) {
        HitsSnoc(o, filed, last, pkg);
      } else {
        assert MentionedBy(o, cves, o.lower(pkg.name)) == filed;
        if Affects(o, last.affected, pkg) {
          AffectingMentions(o, last.affected, pkg);
        }
      }
    }
  }

  predicate UniqueIds(cves: seq<Cve>) {
    forall i, j :: 0 <= i < j < |cves| ==> cves[i].id != cves[j].id
  }

  method IndexByName(o: Oracle, cves: seq<Cve>, names: seq<string>)
    returns (index: map<string, seq<Cve>>, affectedCache: map<string, seq<Entry>>)
    requires UniqueIds(cves)
    ensures forall name :: name in index <==> name in names
    ensures forall name :: name in names ==> index[name] == MentionedBy(o, cves, name)
    ensures forall c :: c in cves ==> c.id in affectedCache && affectedCache[c.id] == c.affected
  {
    index := map name | name in names :: [];
    affectedCache := map[];
    for i := 0 to |cves|
      invariant forall name :: name in index <==> name in names
      invariant forall name :: name in names ==> index[name] == MentionedBy(o, cves[..i], name)
      invariant forall k :: 0 <= k < i ==> cves[k].id in affectedCache && affectedCache[cves[k].id] == cves[k].affected
    {
      affectedCache := affectedCache[cves[i].id := cves[i].affected];
      assert cves[..i + 1] == cves[..i] + [cves[i]];
      index := FileCve(o, cves[..i], cves[i], names, index);
    }
    assert cves[..|cves|] == cves;
  }

  /** Files one CVE under every wanted name it mentions, once each. */
  method FileCve(o: Oracle, before: seq<Cve>, cve: Cve, names: seq<string>, index: map<string, seq<Cve>>)
    returns (filed: map<string, seq<Cve>>)
    requires forall name :: name in index <==> name in names
    requires forall name :: name in names ==> index[name] == MentionedBy(o, before, name)
    ensures forall name :: name in filed <==> name in names
    ensures forall name :: name in names ==> filed[name] == MentionedBy(o, before + [cve], name)
  {
    filed := index;
    var seenNames: set<string> := {};
    for j := 0 to |cve.affected|
      invariant forall name :: name in filed <==> name in names
      invariant forall name :: name in names ==> filed[name] == index[name] + if name in seenNames then [cve] else []
      invariant forall name :: name in names ==> (name in seenNames <==> Mentions(o, cve.affected[..j], name))
    {
      MentionsSnoc(o, cve.affected, j);
      var entryName := EntryName(o, cve.affected[j]);
      if entryName.None? || entryName.value !in filed || entryName.value in seenNames { continue; }
      filed := filed[entryName.value := filed[entryName.value] + [cve]];
      seenNames := seenNames + {entryName.value};
    }
    assert cve.affected[..|cve.affected|] == cve.affected;
    forall name | name in names ensures filed[name] == MentionedBy(o, before + [cve], name) {
      MentionedSnoc(o, before, cve, name);
    }
  }

  lemma MentionsSnoc(o: Oracle, entries: seq<Entry>, j: nat)
    requires j < |entries|
    ensures forall name :: Mentions(o, entries[..j + 1], name)
                           <==> Mentions(o, entries[..j], name) || EntryName(o, entries[j]) == Some(name)
  {
    forall name ensures Mentions(o, entries[..j + 1], name)
                        <==> Mentions(o, entries[..j], name) || EntryName(o, entries[j]) == Some(name) {
      if Mentions(o, entries[..j], name) {
        var i :| 0 <= i < j && EntryName(o, entries[..j][i]) == Some(name);
        assert entries[..j + 1][i] == entries[i];
      }
      assert entries[..j + 1][j] == entries[j];
      if Mentions(o, entries[..j + 1], name) && EntryName(o, entries[j]) != Some(name) {
        var i :| 0 <= i < j + 1 && EntryName(o, entries[..j + 1][i]) == Some(name);
        assert entries[..j][i] == entries[i];
      }
    }
  }
}

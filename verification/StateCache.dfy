/** The in-memory cache's summary of open security events: how many a machine has, and the highest severity.
    Everything else the cache holds about a machine is one value, `rest`. */
module StateCache {

  import opened Wrappers

  /** What `sevOrder[severity] ?? 0` yields. `sevOrder` is a plain object, so the name of a property that every
      object inherits finds that property: a function or an object, which compares as its text. */
  datatype Value = Number(n: nat) | Text(place: nat)

  /** The position of an inherited property's text among all of them, in the order of texts. */
  function InheritedPlace(name: string): Option<nat> {
    if name == "__proto__" then Some(0)
    else if name == "constructor" then Some(1)
    else if name == "__defineGetter__" then Some(2)
    else if name == "__defineSetter__" then Some(3)
    else if name == "__lookupGetter__" then Some(4)
    else if name == "__lookupSetter__" then Some(5)
    else if name == "hasOwnProperty" then Some(6)
    else if name == "isPrototypeOf" then Some(7)
    else if name == "propertyIsEnumerable" then Some(8)
    else if name == "toLocaleString" then Some(9)
    else if name == "toString" then Some(10)
    else if name == "valueOf" then Some(11)
    else None
  }

  function Lookup(severity: string): Value {
    if severity == "low" then Number(1)
    else if severity == "medium" then Number(2)
    else if severity == "high" then Number(3)
    else if severity == "critical" then Number(4)
    else
      match InheritedPlace(severity)
      case Some(place) => Text(place)
      case None => Number(0)
  }

  /** The operator `>`: numbers compare with numbers and texts with texts; a text is not a number. */
  predicate Exceeds(a: Value, b: Value) {
    match (a, b)
    case (Number(m), Number(n)) => m > n
    case (Text(p), Text(q)) => p > q
    case _ => false
  }

  predicate Inherited(severity: string) { Lookup(severity).Text? }

  /** The rank of a severity; unknown names, inherited ones included, have none above 0. */
  function Rank(severity: string): nat {
    match Lookup(severity)
    case Number(n) => n
    case Text(_) => 0
  }

  function RankOf(top: Option<string>): nat { if top.Some? then Rank(top.value) else 0 }

  datatype Event = Event(machineId: string, severity: string)

  datatype Stored = Stored(id: string, rest: nat)

  datatype CachedMachine = CachedMachine(rest: nat, openSecurityEvents: nat, highestSeverity: Option<string>)

  /** The severities of one machine's events, in order. */
  function SeveritiesOf(events: seq<Event>, id: string): seq<string> {
    if events == [] then []
    else
      var before, last := events[..|events| - 1], events[|events| - 1];
      SeveritiesOf(before, id) + if last.machineId == id then [last.severity] else []
  }

  lemma SeveritiesSnoc(events: seq<Event>, e: Event, id: string)
    ensures SeveritiesOf(events + [e], id) == SeveritiesOf(events, id) + if e.machineId == id then [e.severity] else []
  {
    assert (events + [e])[..|events|] == events;
  }

  // --- the highest severity ---

  /** The i-th severity is the first of the highest among those of its kind, numbers or texts. */
  predicate Topmost(sevs: seq<string>, i: nat)
    requires i < |sevs|
  {
    && (forall j :: 0 <= j < |sevs| ==> !Exceeds(Lookup(sevs[j]), Lookup(sevs[i])))
    && (forall j :: 0 <= j < i && Inherited(sevs[j]) == Inherited(sevs[i]) ==> Exceeds(Lookup(sevs[i]), Lookup(sevs[j])))
  }

  predicate FirstHighest(sevs: seq<string>, shown: string) {
    exists i: nat :: i < |sevs| && Topmost(sevs, i) && sevs[i] == shown
  }

  /** No severity is ranked above zero. */
  predicate AllUnranked(sevs: seq<string>) { forall j :: 0 <= j < |sevs| ==> Rank(sevs[j]) == 0 }

  /** The severity shown after one query for one machine: the first of the highest among those of the kind of
      the first one. */
  predicate RefreshShows(sevs: seq<string>, shown: Option<string>) {
    if sevs == [] then shown == None
    else shown.Some? && FirstHighest(sevs, shown.value) && Inherited(shown.value) == Inherited(sevs[0])
  }

  /** The severity shown after warming: the search starts from "info" instead of from the first event. */
  predicate WarmShows(sevs: seq<string>, shown: Option<string>) {
    if sevs == [] then shown == None
    else if AllUnranked(sevs) then shown == Some("info")
    else shown.Some? && FirstHighest(sevs, shown.value) && !Inherited(shown.value)
  }

  lemma OneHighest(sevs: seq<string>, a: string, b: string)
    requires FirstHighest(sevs, a) && FirstHighest(sevs, b) && Inherited(a) == Inherited(b)
    ensures a == b
  {
    var i: nat :| i < |sevs| && Topmost(sevs, i) && sevs[i] == a;
    var j: nat :| j < |sevs| && Topmost(sevs, j) && sevs[j] == b;
    assert i < j ==> !Exceeds(Lookup(sevs[j]), Lookup(sevs[i]));
  }

  /** One more severity replaces the one shown only if it exceeds it. */
  lemma HighestSnoc(sevs: seq<string>, shown: string, s: string)
    requires FirstHighest(sevs, shown)
    ensures FirstHighest(sevs + [s], if Exceeds(Lookup(s), Lookup(shown)) then s else shown)
  {
    var i: nat :| i < |sevs| && Topmost(sevs, i) && sevs[i] == shown;
    assert (sevs + [s])[..|sevs|] == sevs;
    if Exceeds(Lookup(s), Lookup(shown)) {
      assert Topmost(sevs + [s], |sevs|);
    } else {
      assert Topmost(sevs + [s], i);
    }
  }

  lemma HighestOfOne(s: string)
    ensures FirstHighest([s], s)
  {
    assert Topmost([s], 0);
  }

  lemma WarmSnoc(sevs: seq<string>, shown: string, s: string)
    requires if sevs == [] then shown == "info" else WarmShows(sevs, Some(shown))
    ensures WarmShows(sevs + [s], Some(if Exceeds(Lookup(s), Lookup(shown)) then s else shown))
  {
    var all := sevs + [s];
    if AllUnranked(sevs) {
      assert shown == "info";
      if Rank(s) > 0 {
        FirstRanked(sevs, s);
      } else {
        assert AllUnranked(all);
      }
    } else {
      var k :| 0 <= k < |sevs| && Rank(sevs[k]) != 0;
      assert all[k] == sevs[k];
      HighestSnoc(sevs, shown, s);
    }
  }

  lemma FirstRanked(sevs: seq<string>, s: string)
    requires AllUnranked(sevs) && Rank(s) > 0
    ensures FirstHighest(sevs + [s], s) && !AllUnranked(sevs + [s])
  {
    var all := sevs + [s];
    assert all[|sevs|] == s;
    assert forall j :: 0 <= j < |sevs| ==> all[j] == sevs[j];
    assert Topmost(all, |sevs|);
  }

  /** The rank shown is the highest of all, unless an inherited name is shown. */
  lemma RankShown(sevs: seq<string>, shown: string)
    requires FirstHighest(sevs, shown) && !Inherited(shown)
    ensures forall x :: x in sevs ==> Rank(x) <= Rank(shown)
    ensures shown in sevs
  {
    var i: nat :| i < |sevs| && Topmost(sevs, i) && sevs[i] == shown;
  }

  /** Both ways give the same rank, even when the database answers in another order, exactly if the first
      severity of the single query is no inherited name or no severity is ranked above zero. */
  lemma RanksAgreeExactly(warm: seq<string>, refresh: seq<string>, a: Option<string>, b: Option<string>)
    requires multiset(warm) == multiset(refresh) && WarmShows(warm, a) && RefreshShows(refresh, b)
    ensures a.None? <==> b.None?
    ensures RankOf(a) == RankOf(b) <==> refresh == [] || !Inherited(refresh[0]) || AllUnranked(refresh)
  {
    SameElements(warm, refresh);
    if warm != [] {
      SameUnranked(warm, refresh);
      if !AllUnranked(warm) {
        RankShown(warm, a.value);
      }
      if !Inherited(refresh[0]) {
        RankShown(refresh, b.value);
      }
    }
  }

  lemma SameUnranked(a: seq<string>, b: seq<string>)
    requires forall x :: x in a <==> x in b
    ensures AllUnranked(a) <==> AllUnranked(b)
    ensures !AllUnranked(a) ==> exists x :: x in a && Rank(x) > 0
  {
    if !AllUnranked(a) {
      var j :| 0 <= j < |a| && Rank(a[j]) != 0;
      assert a[j] in b;
    }
    if !AllUnranked(b) {
      var j :| 0 <= j < |b| && Rank(b[j]) != 0;
      assert b[j] in a;
    }
  }

  lemma SameElements(a: seq<string>, b: seq<string>)
    requires multiset(a) == multiset(b)
    ensures a == [] <==> b == []
    ensures forall x :: x in a <==> x in b
  {
    assert forall x :: x in a <==> x in multiset(a);
    assert forall x :: x in b <==> x in multiset(b);
    assert |a| == |multiset(a)| == |multiset(b)| == |b|;
  }

  /** The names themselves agree exactly when there is no event, or the first one is no inherited name and some
      severity has a rank above zero, or the first one is "info". */
  lemma NamesAgreeExactly(sevs: seq<string>, a: Option<string>, b: Option<string>)
    requires WarmShows(sevs, a) && RefreshShows(sevs, b)
    ensures a == b <==> sevs == [] || (!Inherited(sevs[0]) && !AllUnranked(sevs)) || sevs[0] == "info"
  {
    if sevs != [] && !Inherited(sevs[0]) {
      if AllUnranked(sevs) {
        FirstOfUnranked(sevs);
        OneHighest(sevs, b.value, sevs[0]);
      } else {
        OneHighest(sevs, a.value, b.value);
      }
    }
  }

  lemma FirstOfUnranked(sevs: seq<string>)
    requires sevs != [] && AllUnranked(sevs) && !Inherited(sevs[0])
    ensures FirstHighest(sevs, sevs[0])
  {
    forall j | 0 <= j < |sevs| ensures !Exceeds(Lookup(sevs[j]), Lookup(sevs[0])) {
      assert Rank(sevs[j]) == 0 && Rank(sevs[0]) == 0;
    }
    assert Topmost(sevs, 0);
  }

  /** An inherited name that comes first hides a ranked severity from the single query, but not from warming. */
  lemma InheritedHides(a: Option<string>, b: Option<string>)
    requires WarmShows(["constructor", "critical"], a) && RefreshShows(["constructor", "critical"], b)
    ensures a == Some("critical") && b == Some("constructor")
  {
    var sevs := ["constructor", "critical"];
    assert Rank(sevs[1]) == 4;
    assert Topmost(sevs, 1) && Topmost(sevs, 0);
    OneHighest(sevs, a.value, "critical");
    OneHighest(sevs, b.value, "constructor");
  }

  // --- the severities the agents report ---

  predicate Known(severity: string) { severity in ["info", "low", "medium", "high", "critical"] }

  function Worst(sevs: seq<string>): string {
    if "critical" in sevs then "critical"
    else if "high" in sevs then "high"
    else if "medium" in sevs then "medium"
    else if "low" in sevs then "low"
    else "info"
  }

  /** Critical is above high, high above medium, medium above low, and low above info and every name that is
      neither one of these nor inherited. */
  lemma SeverityOrder(other: string)
    ensures Exceeds(Lookup("critical"), Lookup("high"))
    ensures Exceeds(Lookup("high"), Lookup("medium"))
    ensures Exceeds(Lookup("medium"), Lookup("low"))
    ensures Exceeds(Lookup("low"), Lookup("info"))
    ensures !Inherited(other) && other !in ["low", "medium", "high", "critical"] ==>
              Exceeds(Lookup("low"), Lookup(other)) && !Exceeds(Lookup(other), Lookup("info"))
  {
    Apart("critical", "high");
    Apart("critical", "medium");
    Apart("critical", "low");
    Apart("high", "medium");
    Apart("high", "low");
    Apart("medium", "low");
    Apart("info", "low");
  }

  lemma Apart(a: string, b: string)
    requires |a| > 0 && |b| > 0 && a[0] != b[0]
    ensures a != b
  {
  }

  lemma KnownRanks(severity: string)
    requires Known(severity)
    ensures !Inherited(severity)
    ensures Rank(severity) == match severity
                              case "critical" => 4
                              case "high" => 3
                              case "medium" => 2
                              case "low" => 1
                              case _ => 0
  {
    KnownIsOwn(severity);
  }

  /** No known severity is the name of an inherited property. */
  lemma KnownIsOwn(severity: string)
    requires Known(severity)
    ensures InheritedPlace(severity).None?
  {
    assert severity[0] in ['i', 'l', 'm', 'h', 'c'];
    assert severity == "info" ==> severity[1] == 'n';
    assert severity == "critical" ==> severity[1] == 'r';
  }

  lemma WorstOf(sevs: seq<string>, shown: string)
    requires forall s :: s in sevs ==> Known(s) && Rank(s) <= Rank(shown)
    requires shown in sevs
    ensures shown == Worst(sevs)
  {
    KnownRanks(shown);
    KnownRanks("critical");
    KnownRanks("high");
    KnownRanks("medium");
    KnownRanks("low");
  }

  /** Of the severities that agents report, both ways show the worst one. */
  lemma WorstIsShown(sevs: seq<string>, a: Option<string>, b: Option<string>)
    requires sevs != [] && forall s :: s in sevs ==> Known(s)
    requires WarmShows(sevs, a) && RefreshShows(sevs, b)
    ensures a == Some(Worst(sevs)) && b == Some(Worst(sevs))
  {
    KnownRanks(sevs[0]);
    RankShown(sevs, b.value);
    hide Rank, Inherited, Worst, FirstHighest;
    WorstOf(sevs, b.value);
    if AllUnranked(sevs) {
      NoneRanked(sevs);
    } else {
      RankShown(sevs, a.value);
      WorstOf(sevs, a.value);
    }
  }

  lemma NoneRanked(sevs: seq<string>)
    requires AllUnranked(sevs)
    ensures Worst(sevs) == "info"
  {
    KnownRanks("critical");
    KnownRanks("high");
    KnownRanks("medium");
    KnownRanks("low");
    forall s | s in sevs ensures Rank(s) == 0 {
    }
  }

  // --- the cache ---

  class StateCache {
    var machines: map<string, CachedMachine>
    var ready: bool

    constructor ()
      ensures machines == map[] && !ready
    {
      machines, ready := map[], false;
    }

    /** Every cached machine's count is right, and the severity shown has the highest rank among its open events. */
    ghost predicate Accurate(events: seq<Event>)
      reads this
    {
      forall id :: id in machines ==> AccurateFor(SeveritiesOf(events, id), machines[id])
    }

    /** Replaces the whole cache by what one query for all machines and one for all open events returned. */
    method WarmCache(allMachines: seq<Stored>, openEvents: seq<Event>)
      requires forall i, j :: 0 <= i < j < |allMachines| ==> allMachines[i].id != allMachines[j].id
      modifies this
      ensures ready && machines.Keys == set m | m in allMachines :: m.id
      ensures forall m :: m in allMachines ==>
                var c := machines[m.id];
                && c.rest == m.rest
                && c.openSecurityEvents == |SeveritiesOf(openEvents, m.id)|
                && WarmShows(SeveritiesOf(openEvents, m.id), c.highestSeverity)
      ensures Accurate(openEvents)
    {
      var eventMap := GroupEvents(openEvents);
      machines := map[];
      for i := 0 to |allMachines|
        invariant machines.Keys == set k | 0 <= k < i :: allMachines[k].id
        invariant forall k :: 0 <= k < i ==> machines[allMachines[k].id] == Summary(allMachines[k], eventMap)
      {
        machines := machines[allMachines[i].id := Summary(allMachines[i], eventMap)];
      }
      ready := true;
      forall id | id in machines ensures AccurateFor(SeveritiesOf(openEvents, id), machines[id]) {
        WarmIsAccurate(SeveritiesOf(openEvents, id), machines[id]);
      }
    }

    /** The update of one machine's summary. */
    method RefreshSecurityEvents(machineId: string, openCount: nat, highest: Option<string>)
      modifies this`machines
      ensures machines == if machineId in old(machines)
                          then old(machines)[machineId := old(machines)[machineId].(openSecurityEvents := openCount, highestSeverity := highest)]
                          else old(machines)
    {
      if machineId in machines {
        machines := machines[machineId := machines[machineId].(openSecurityEvents := openCount, highestSeverity := highest)];
      }
    }

    /** Called with the severities of the machine's open events, when no other refresh of the machine is under way. */
    method RefreshSecurityCacheForMachine(machineId: string, sevs: seq<string>)
      modifies this`machines
      ensures machines.Keys == old(machines.Keys)
      ensures forall id :: id in machines && id != machineId ==> machines[id] == old(machines)[id]
      ensures machineId in machines ==>
                var c := machines[machineId];
                && c.rest == old(machines)[machineId].rest
                && c.openSecurityEvents == |sevs|
                && RefreshShows(sevs, c.highestSeverity)
    {
      var highest := HighestOf(sevs);
      RefreshSecurityEvents(machineId, |sevs|, highest);
    }

    /** A write that changes the events of one machine, followed by a refresh of that machine, keeps the cache
        accurate exactly if the machine is not cached, or the first severity is no inherited name. */
    method WriteThrough(ghost before: seq<Event>, ghost after: seq<Event>, machineId: string, sevs: seq<string>)
      requires Accurate(before) && multiset(sevs) == multiset(SeveritiesOf(after, machineId))
      requires forall id :: id != machineId ==> SeveritiesOf(after, id) == SeveritiesOf(before, id)
      modifies this`machines
      ensures machines.Keys == old(machines.Keys)
      ensures forall id :: id in machines ==> machines[id].openSecurityEvents == |SeveritiesOf(after, id)|
      ensures Accurate(after) <==> machineId !in machines || sevs == [] || !Inherited(sevs[0])
    {
      RefreshSecurityCacheForMachine(machineId, sevs);
      if machineId in machines {
        RefreshIsAccurate(SeveritiesOf(after, machineId), sevs, machines[machineId]);
      }
    }

    /** Registration keeps the summary of a known machine and starts a new one without events. */
    method UpsertMachine(machine: Stored, ghost events: seq<Event>)
      requires Accurate(events) && (machine.id !in machines ==> SeveritiesOf(events, machine.id) == [])
      modifies this`machines
      ensures machines.Keys == old(machines.Keys) + {machine.id} && machines[machine.id].rest == machine.rest
      ensures forall id :: id in old(machines) && id != machine.id ==> machines[id] == old(machines)[id]
      ensures Accurate(events)
    {
      var count, highest := 0, None;
      if machine.id in machines {
        count, highest := machines[machine.id].openSecurityEvents, machines[machine.id].highestSeverity;
      }
      machines := machines[machine.id := CachedMachine(machine.rest, count, highest)];
    }

    method DeleteMachine(machineId: string, ghost events: seq<Event>)
      requires Accurate(events)
      modifies this`machines
      ensures machines == old(machines) - {machineId} && Accurate(events)
    {
      machines := machines - {machineId};
    }
  }

  ghost predicate AccurateFor(sevs: seq<string>, c: CachedMachine) {
    && c.openSecurityEvents == |sevs|
    && (c.highestSeverity.None? <==> sevs == [])
    && (c.highestSeverity.Some? ==> !Inherited(c.highestSeverity.value))
    && (forall j :: 0 <= j < |sevs| ==> Rank(sevs[j]) <= RankOf(c.highestSeverity))
    && (sevs != [] ==> exists j :: 0 <= j < |sevs| && Rank(sevs[j]) == RankOf(c.highestSeverity))
  }

  lemma WarmIsAccurate(sevs: seq<string>, c: CachedMachine)
    requires c.openSecurityEvents == |sevs| && WarmShows(sevs, c.highestSeverity)
    ensures AccurateFor(sevs, c)
  {
    if sevs != [] {
      if AllUnranked(sevs) {
        assert Rank(sevs[0]) == 0;
      } else {
        RankShown(sevs, c.highestSeverity.value);
      }
    }
  }

  lemma RefreshIsAccurate(sevs: seq<string>, answer: seq<string>, c: CachedMachine)
    requires multiset(answer) == multiset(sevs) && c.openSecurityEvents == |answer| && RefreshShows(answer, c.highestSeverity)
    ensures c.openSecurityEvents == |sevs|
    ensures AccurateFor(sevs, c) <==> answer == [] || !Inherited(answer[0])
  {
    SameElements(answer, sevs);
    assert |answer| == |multiset(answer)| == |sevs|;
    if answer != [] && !Inherited(answer[0]) {
      RankShown(answer, c.highestSeverity.value);
      forall j | 0 <= j < |sevs| ensures Rank(sevs[j]) <= RankOf(c.highestSeverity) {
        assert sevs[j] in answer;
      }
      assert c.highestSeverity.value in sevs;
    }
  }

  /** The search through the answer of one query. */
  method HighestOf(sevs: seq<string>) returns (highest: Option<string>)
    ensures RefreshShows(sevs, highest)
  {
    highest := None;
    for i := 0 to |sevs|
      invariant RefreshShows(sevs[..i], highest)
    {
      assert sevs[..i + 1] == sevs[..i] + [sevs[i]];
      if highest.None? {
        HighestOfOne(sevs[i]);
      } else {
        HighestSnoc(sevs[..i], highest.value, sevs[i]);
      }
      if highest.None? || Exceeds(Lookup(sevs[i]), Lookup(highest.value)) {
        highest := Some(sevs[i]);
      }
    }
    assert sevs[..|sevs|] == sevs;
  }

  datatype Group = Group(count: nat, highest: string)

  function Summary(m: Stored, eventMap: map<string, Group>): CachedMachine {
    if m.id in eventMap then CachedMachine(m.rest, eventMap[m.id].count, Some(eventMap[m.id].highest))
    else CachedMachine(m.rest, 0, None)
  }

  /** One pass over all open events, in any interleaving of machines. */
  method GroupEvents(openEvents: seq<Event>) returns (eventMap: map<string, Group>)
    ensures forall id :: Grouped(SeveritiesOf(openEvents, id), eventMap, id)
  {
    eventMap := map[];
    for i := 0 to |openEvents|
      invariant forall id :: Grouped(SeveritiesOf(openEvents[..i], id), eventMap, id)
    {
      var evt := openEvents[i];
      ghost var past, next, before := openEvents[..i], openEvents[..i + 1], eventMap;
      assert next == past + [evt];
      eventMap := eventMap[evt.machineId := WithEvent(CurrentGroup(eventMap, evt.machineId), evt.severity)];
      forall id ensures Grouped(SeveritiesOf(next, id), eventMap, id) {
        assert Grouped(SeveritiesOf(past, id), before, id);
        GroupStep(past, evt, before, id);
      }
    }
    assert openEvents[..|openEvents|] == openEvents;
  }

  function CurrentGroup(eventMap: map<string, Group>, id: string): Group {
    if id in eventMap then eventMap[id] else Group(0, "info")
  }

  function WithEvent(cur: Group, severity: string): Group {
    Group(cur.count + 1, if Exceeds(Lookup(severity), Lookup(cur.highest)) then severity else cur.highest)
  }

  lemma GroupStep(past: seq<Event>, evt: Event, before: map<string, Group>, id: string)
    requires Grouped(SeveritiesOf(past, id), before, id)
    ensures Grouped(SeveritiesOf(past + [evt], id),
                    before[evt.machineId := WithEvent(CurrentGroup(before, evt.machineId), evt.severity)], id)
  {
    SeveritiesSnoc(past, evt, id);
    if evt.machineId == id {
      WarmSnoc(SeveritiesOf(past, id), CurrentGroup(before, id).highest, evt.severity);
    } else {
      assert SeveritiesOf(past + [evt], id) == SeveritiesOf(past, id);
    }
  }

  ghost predicate Grouped(sevs: seq<string>, eventMap: map<string, Group>, id: string) {
    if id in eventMap then sevs != [] && eventMap[id].count == |sevs| && WarmShows(sevs, Some(eventMap[id].highest))
    else sevs == []
  }
}

/** The agent's suppression of security events it has already reported, and the daily cleanup of its memory.
    Times are whole units of the agent's monotonic clock. */
module Suppression {

  import opened Wrappers

  const HOUR: int := 3600000000000
  const DAY: int := 24 * HOUR

  datatype Event = Event(fingerprint: string, message: string)

  type Memory = map<string, int>

  predicate Due(reported: Memory, fp: string, now: int) { fp !in reported || now - reported[fp] > HOUR }

  /** The events to report, in order, and the memory after reporting them. */
  function Filter(reported: Memory, events: seq<Event>, now: int): (seq<Event>, Memory)
    decreases |events|
  {
    if events == [] then ([], reported)
    else if Due(reported, events[0].fingerprint, now) then
      var (rest, after) := Filter(reported[events[0].fingerprint := now], events[1..], now);
      ([events[0]] + rest, after)
    else
      Filter(reported, events[1..], now)
  }

  function Pruned(reported: Memory, now: int): Memory {
    map fp | fp in reported && now - reported[fp] <= DAY :: reported[fp]
  }

  class Agent {
    var reportedEvents: Memory

    constructor ()
      ensures reportedEvents == map[]
    {
      reportedEvents := map[];
    }

    method CheckAndReportSecurityEvents(events: seq<Event>, now: int) returns (newEvents: seq<Event>)
      modifies this
      ensures newEvents == Filter(old(reportedEvents), events, now).0
      ensures reportedEvents == if events == [] then old(reportedEvents)
                                else Pruned(Filter(old(reportedEvents), events, now).1, now)
    {
      if events == [] { return []; }
      newEvents := FilterEvents(events, now);
      Cleanup(now);
    }

    method FilterEvents(events: seq<Event>, now: int) returns (newEvents: seq<Event>)
      modifies this
      ensures newEvents == Filter(old(reportedEvents), events, now).0
      ensures reportedEvents == Filter(old(reportedEvents), events, now).1
    {
      newEvents := [];
      for i := 0 to |events|
        invariant Filter(old(reportedEvents), events, now).0 == newEvents + Filter(reportedEvents, events[i..], now).0
        invariant Filter(old(reportedEvents), events, now).1 == Filter(reportedEvents, events[i..], now).1
      {
        var evt := events[i];
        assert events[i..][0] == evt && events[i..][1..] == events[i + 1..];
        if evt.fingerprint !in reportedEvents || now - reportedEvents[evt.fingerprint] > HOUR {
          newEvents := newEvents + [evt];
          reportedEvents := reportedEvents[evt.fingerprint := now];
        }
      }
    }

    /** Visits the entries in any order. */
    method Cleanup(now: int)
      modifies this
      ensures reportedEvents == Pruned(old(reportedEvents), now)
    {
      var todo := reportedEvents.Keys;
      while todo != {}
        invariant todo <= reportedEvents.Keys <= old(reportedEvents).Keys
        invariant forall fp :: fp in reportedEvents ==> reportedEvents[fp] == old(reportedEvents)[fp]
        invariant forall fp :: fp in old(reportedEvents) && fp !in todo ==>
                    (fp in reportedEvents <==> now - old(reportedEvents)[fp] <= DAY)
      {
        var fp :| fp in todo;
        todo := todo - {fp};
        if now - reportedEvents[fp] > DAY {
          reportedEvents := reportedEvents - {fp};
        }
      }
    }
  }

  // --- one poll ---

  predicate Mentions(events: seq<Event>, fp: string) { exists k :: 0 <= k < |events| && events[k].fingerprint == fp }

  lemma MentionsHead(events: seq<Event>, fp: string)
    requires events != []
    ensures Mentions(events, fp) <==> events[0].fingerprint == fp || Mentions(events[1..], fp)
  {
    if Mentions(events[1..], fp) {
      var k :| 0 <= k < |events[1..]| && events[1..][k].fingerprint == fp;
      assert events[k + 1].fingerprint == fp;
    }
    if Mentions(events, fp) && events[0].fingerprint != fp {
      var k :| 0 <= k < |events| && events[k].fingerprint == fp;
      assert events[1..][k - 1].fingerprint == fp;
    }
  }

  function Times(events: seq<Event>, fp: string): nat {
    if events == [] then 0 else Times(events[1..], fp) + if events[0].fingerprint == fp then 1 else 0
  }

  lemma {:induction false} TimesIff(events: seq<Event>, fp: string)
    ensures Times(events, fp) > 0 <==> Mentions(events, fp)
  {
    if events == [] {
    } else {
      MentionsHead(events, fp);
      TimesIff(events[1..], fp);
    }
  }

  /** A poll reports a fingerprint once if it occurs and is due, and not at all otherwise; only then is it remembered. */
  lemma {:induction false} OnePoll(reported: Memory, events: seq<Event>, now: int, fp: string)
    ensures var (out, after) := Filter(reported, events, now);
            && Times(out, fp) == (if Mentions(events, fp) && Due(reported, fp, now) then 1 else 0)
            && (fp in after <==> fp in reported || Mentions(out, fp))
            && (fp in after ==> after[fp] == if Mentions(out, fp) then now else reported[fp])
    decreases |events|
  {
    if events == [] {
    } else {
      var e := events[0];
      MentionsHead(events, fp);
      if Due(reported, e.fingerprint, now) {
        var rest := Filter(reported[e.fingerprint := now], events[1..], now).0;
        OnePoll(reported[e.fingerprint := now], events[1..], now, fp);
        TimesIff(rest, fp);
        MentionsHead([e] + rest, fp);
      } else {
        OnePoll(reported, events[1..], now, fp);
      }
    }
  }

  predicate FirstOf(events: seq<Event>, e: Event) { forall k :: 0 <= k < |events| ==> events[k].fingerprint != e.fingerprint }

  /** What a poll reports are its own events, messages included and in their order: each whose fingerprint has not
      occurred before in the poll and was not reported within the last hour. */
  lemma {:induction false} FilterSnoc(reported: Memory, events: seq<Event>, e: Event, now: int)
    ensures Filter(reported, events + [e], now).0
         == Filter(reported, events, now).0
            + if FirstOf(events, e) && (e.fingerprint !in reported || now - reported[e.fingerprint] > 3600000000000)
              then [e] else []
    ensures Filter(reported, [], now).0 == []
    decreases |events|
  {
    if events == [] {
      assert events + [e] == [e] && [e][1..] == [];
    } else {
      var h, rest := events[0], events[1..];
      assert (events + [e])[0] == h && (events + [e])[1..] == rest + [e];
      FirstOfHead(events, e);
      FilterSnoc(reported, rest, e, now);
      FilterSnoc(reported[h.fingerprint := now], rest, e, now);
    }
  }

  lemma FirstOfHead(events: seq<Event>, e: Event)
    requires events != []
    ensures FirstOf(events, e) <==> events[0].fingerprint != e.fingerprint && FirstOf(events[1..], e)
  {
    if events[0].fingerprint != e.fingerprint && FirstOf(events[1..], e) {
      forall k | 0 <= k < |events| ensures events[k].fingerprint != e.fingerprint {
        assert k > 0 ==> events[k] == events[1..][k - 1];
      }
    }
    if FirstOf(events, e) {
      forall k | 0 <= k < |events[1..]| ensures events[1..][k].fingerprint != e.fingerprint {
        assert events[1..][k] == events[k + 1];
      }
    }
  }

  /** The cleanup keeps exactly the entries of the last 24 hours, as they are. */
  lemma PrunedMeans(reported: Memory, now: int, fp: string)
    ensures fp in Pruned(reported, now) <==> fp in reported && now - reported[fp] <= 86400000000000
    ensures fp in Pruned(reported, now) ==> Pruned(reported, now)[fp] == reported[fp]
  {
  }

  // --- runs ---

  datatype Poll = Poll(events: seq<Event>, now: int)

  predicate Chronological(polls: seq<Poll>) {
    forall i, j :: 0 <= i <= j < |polls| ==> polls[i].now <= polls[j].now
  }

  /** The memory after the first `n` polls, with or without the cleanup. */
  function After(polls: seq<Poll>, n: nat, cleanup: bool): Memory
    requires n <= |polls|
  {
    if n == 0 then map[]
    else
      var before, p := After(polls, n - 1, cleanup), polls[n - 1];
      if p.events == [] then before
      else if cleanup then Pruned(Filter(before, p.events, p.now).1, p.now)
      else Filter(before, p.events, p.now).1
  }

  function Reports(polls: seq<Poll>, i: nat, cleanup: bool): seq<Event>
    requires i < |polls|
  {
    Filter(After(polls, i, cleanup), polls[i].events, polls[i].now).0
  }

  /** The two memories differ only in entries so old that no later poll can tell. */
  ghost predicate Alike(small: Memory, full: Memory, now: int) {
    && small.Keys <= full.Keys
    && (forall fp :: fp in small ==> small[fp] == full[fp])
    && (forall fp :: fp in full && fp !in small ==> now - full[fp] > DAY)
  }

  lemma {:induction false} AlikeFilter(small: Memory, full: Memory, events: seq<Event>, now: int)
    requires Alike(small, full, now)
    ensures Filter(small, events, now).0 == Filter(full, events, now).0
    ensures Alike(Filter(small, events, now).1, Filter(full, events, now).1, now)
    decreases |events|
  {
    if events == [] {
    } else {
      var fp := events[0].fingerprint;
      if Due(small, fp, now) {
        AlikeFilter(small[fp := now], full[fp := now], events[1..], now);
      } else {
        AlikeFilter(small, full, events[1..], now);
      }
    }
  }

  lemma {:induction false} MemoriesAlike(polls: seq<Poll>, n: nat, now: int)
    requires n <= |polls| && Chronological(polls) && (n > 0 ==> polls[n - 1].now <= now)
    ensures Alike(After(polls, n, true), After(polls, n, false), now)
  {
    if n == 0 {
    } else {
      var p := polls[n - 1];
      MemoriesAlike(polls, n - 1, p.now);
      AlikeFilter(After(polls, n - 1, true), After(polls, n - 1, false), p.events, p.now);
    }
  }

  /** Over any run of polls the cleanup never changes what is reported. */
  lemma CleanupUnobservable(polls: seq<Poll>, i: nat)
    requires i < |polls| && Chronological(polls)
    ensures Reports(polls, i, true) == Reports(polls, i, false)
  {
    MemoriesAlike(polls, i, polls[i].now);
    AlikeFilter(After(polls, i, true), After(polls, i, false), polls[i].events, polls[i].now);
  }

  predicate ReportedAt(polls: seq<Poll>, i: nat, fp: string)
    requires i < |polls|
  {
    Mentions(Reports(polls, i, false), fp)
  }

  /** When the first `n` polls last reported a fingerprint. */
  function LastReport(polls: seq<Poll>, n: nat, fp: string): Option<int>
    requires n <= |polls|
  {
    if n == 0 then None
    else if ReportedAt(polls, n - 1, fp) then Some(polls[n - 1].now)
    else LastReport(polls, n - 1, fp)
  }

  /** A poll remembers its own time for what it reports, and otherwise what was remembered before. */
  lemma OnePollLater(polls: seq<Poll>, n: nat, fp: string)
    requires n < |polls|
    ensures var before, after := After(polls, n, false), After(polls, n + 1, false);
            && (fp in after <==> fp in before || ReportedAt(polls, n, fp))
            && (fp in after ==> after[fp] == if ReportedAt(polls, n, fp) then polls[n].now else before[fp])
  {
    OnePoll(After(polls, n, false), polls[n].events, polls[n].now, fp);
  }

  /** The uncleaned memory holds, for each fingerprint ever reported, the time of its last report. */
  lemma {:induction false} MemoryIsLastReport(polls: seq<Poll>, n: nat, fp: string)
    requires n <= |polls|
    ensures LastReport(polls, n, fp) == if fp in After(polls, n, false) then Some(After(polls, n, false)[fp]) else None
  {
    if n > 0 {
      hide After, ReportedAt;
      MemoryIsLastReport(polls, n - 1, fp);
      OnePollLater(polls, n - 1, fp);
    } else {
      assert fp !in After(polls, 0, false);
    }
  }

  lemma {:induction false} NotAfterLast(polls: seq<Poll>, n: nat, fp: string, i: nat)
    requires i < n <= |polls| && Chronological(polls) && ReportedAt(polls, i, fp)
    ensures LastReport(polls, n, fp).Some? && polls[i].now <= LastReport(polls, n, fp).value
  {
    hide ReportedAt;
    if i < n - 1 {
      NotAfterLast(polls, n - 1, fp, i);
    }
  }

  lemma {:induction false} LastIsReport(polls: seq<Poll>, n: nat, fp: string) returns (i: nat)
    requires n <= |polls| && LastReport(polls, n, fp).Some?
    ensures i < n && ReportedAt(polls, i, fp) && polls[i].now == LastReport(polls, n, fp).value
  {
    hide ReportedAt;
    if ReportedAt(polls, n - 1, fp) {
      i := n - 1;
    } else {
      i := LastIsReport(polls, n - 1, fp);
    }
  }

  /** A fingerprint is due exactly when no poll of the past hour reported it. */
  lemma DueExactly(polls: seq<Poll>, j: nat, fp: string)
    requires j < |polls| && Chronological(polls)
    ensures Due(After(polls, j, false), fp, polls[j].now)
            <==> forall i :: 0 <= i < j && ReportedAt(polls, i, fp) ==> polls[j].now - polls[i].now > HOUR
  {
    hide After, ReportedAt;
    MemoryIsLastReport(polls, j, fp);
    if LastReport(polls, j, fp).Some? {
      var last := LastIsReport(polls, j, fp);
    }
    forall i | 0 <= i < j && ReportedAt(polls, i, fp)
      ensures LastReport(polls, j, fp).Some? && polls[i].now <= LastReport(polls, j, fp).value
    {
      NotAfterLast(polls, j, fp, i);
    }
  }

  /** Exactly when a fingerprint is reported: it occurs in the poll, and no poll of the past hour reported it.
      Then it is reported once. */
  lemma ReportedExactly(polls: seq<Poll>, j: nat, fp: string)
    requires j < |polls| && Chronological(polls)
    ensures Times(Reports(polls, j, true), fp) <= 1
    ensures Mentions(Reports(polls, j, true), fp)
            <==> Mentions(polls[j].events, fp)
                 && forall i :: 0 <= i < j && Mentions(Reports(polls, i, true), fp) ==> polls[j].now - polls[i].now > HOUR
  {
    hide After, Reports, Mentions;
    forall i | 0 <= i <= j ensures Mentions(Reports(polls, i, true), fp) <==> ReportedAt(polls, i, fp) {
      CleanupUnobservable(polls, i);
    }
    CleanupUnobservable(polls, j);
    DueExactly(polls, j, fp);
    ReportedOnce(polls, j, fp);
  }

  lemma ReportedOnce(polls: seq<Poll>, j: nat, fp: string)
    requires j < |polls|
    ensures Times(Reports(polls, j, false), fp) <= 1
    ensures ReportedAt(polls, j, fp) <==> Mentions(polls[j].events, fp) && Due(After(polls, j, false), fp, polls[j].now)
  {
    OnePoll(After(polls, j, false), polls[j].events, polls[j].now, fp);
    TimesIff(Reports(polls, j, false), fp);
  }

  /** Two reports of one fingerprint are more than an hour apart. */
  lemma HourApart(polls: seq<Poll>, i: nat, j: nat, fp: string)
    requires i < j < |polls| && Chronological(polls)
    requires Mentions(Reports(polls, i, true), fp) && Mentions(Reports(polls, j, true), fp)
    ensures polls[j].now - polls[i].now > 3600000000000
  {
    ReportedExactly(polls, j, fp);
  }
}

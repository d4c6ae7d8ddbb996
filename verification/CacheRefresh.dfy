/** Refreshes of one machine that overlap: between a refresh's query and its update of the cache other writes and
    refreshes may go on. */
module CacheRefresh {

  import opened Wrappers
  import opened StateCache

  /** What a refresh has found and not stored yet. */
  datatype Answer = Answer(count: nat, highest: Option<string>)

  /** The severities of the machine's open events, the answers on their way to the cache in the order of their
      queries, and the cached summary. */
  datatype State = State(events: seq<string>, answers: seq<Answer>, cached: Answer)

  datatype Step =
    | Write(sevs: seq<string>)
    | Ask(order: seq<string>, highest: Option<string>)
    | Store(k: nat)

  /** A query answers with the current events in some order. */
  predicate Enabled(s: State, step: Step) {
    match step
    case Write(_) => true
    case Ask(order, highest) => multiset(order) == multiset(s.events) && RefreshShows(order, highest)
    case Store(k) => k < |s.answers|
  }

  function Next(s: State, step: Step): State
    requires Enabled(s, step)
  {
    match step
    case Write(sevs) => s.(events := sevs)
    case Ask(order, highest) => s.(answers := s.answers + [Answer(|order|, highest)])
    case Store(k) => s.(answers := s.answers[..k] + s.answers[k + 1..], cached := s.answers[k])
  }

  ghost predicate Accurate(sevs: seq<string>, a: Answer) { AccurateFor(sevs, CachedMachine(0, a.count, a.highest)) }

  /** An answer is accurate for the events it was asked of, exactly if no inherited name comes first in it. */
  lemma FreshAnswer(s: State, order: seq<string>, highest: Option<string>)
    requires Enabled(s, Ask(order, highest))
    ensures Accurate(s.events, Answer(|order|, highest)) <==> order == [] || !Inherited(order[0])
  {
    RefreshIsAccurate(s.events, order, CachedMachine(0, |order|, highest));
  }

  // --- storing the answers that are on their way ---

  predicate CanStore(s: State, order: seq<nat>)
    decreases |order|
  {
    order != [] ==> Enabled(s, Store(order[0])) && CanStore(Next(s, Store(order[0])), order[1..])
  }

  function Stored(s: State, order: seq<nat>): State
    requires CanStore(s, order)
    decreases |order|
  {
    if order == [] then s else Stored(Next(s, Store(order[0])), order[1..])
  }

  lemma NothingToStore(s: State, order: seq<nat>)
    requires CanStore(s, order) && s.answers == []
    ensures order == []
  {
  }

  /** One of the answers is stored last. */
  lemma {:induction false} LastStored(s: State, order: seq<nat>)
    requires CanStore(s, order) && s.answers != [] && Stored(s, order).answers == []
    ensures Stored(s, order).events == s.events && Stored(s, order).cached in s.answers
    decreases |order|
  {
    var next := Next(s, Store(order[0]));
    if next.answers == [] {
      NothingToStore(next, order[1..]);
    } else {
      LastStored(next, order[1..]);
      assert forall a :: a in next.answers ==> a in s.answers;
    }
  }

  /** Any of the answers may be the last one. */
  lemma {:induction false} AnyLast(s: State, k: nat) returns (order: seq<nat>)
    requires k < |s.answers|
    ensures CanStore(s, order) && Stored(s, order).answers == []
    ensures Stored(s, order).events == s.events && Stored(s, order).cached == s.answers[k]
    decreases |s.answers|
  {
    if |s.answers| == 1 {
      order := [0];
      assert order[1..] == [];
      assert s.answers[..0] + s.answers[1..] == [];
    } else {
      var first := if k == 0 then 1 else 0;
      var next := Next(s, Store(first));
      var k' := if k == 0 then 0 else k - 1;
      assert next.answers[k'] == s.answers[k];
      var rest := AnyLast(next, k');
      order := [first] + rest;
      assert order[1..] == rest;
    }
  }

  ghost predicate EndsAccurate(s: State, order: seq<nat>)
    requires CanStore(s, order)
  {
    Accurate(Stored(s, order).events, Stored(s, order).cached)
  }

  /** The cache ends up accurate in whatever order the answers on their way are stored, exactly if each of them is
      accurate for the events as they are now. */
  lemma AnyOrderExactly(s: State)
    requires s.answers != []
    ensures (forall order :: CanStore(s, order) && Stored(s, order).answers == [] ==> EndsAccurate(s, order))
            <==> forall k :: 0 <= k < |s.answers| ==> Accurate(s.events, s.answers[k])
  {
    hide Accurate;
    if forall k :: 0 <= k < |s.answers| ==> Accurate(s.events, s.answers[k]) {
      forall order | CanStore(s, order) && Stored(s, order).answers == [] ensures EndsAccurate(s, order) {
        LastStored(s, order);
      }
    } else {
      var k :| 0 <= k < |s.answers| && !Accurate(s.events, s.answers[k]);
      var order := AnyLast(s, k);
      assert !EndsAccurate(s, order);
    }
  }

  // --- in the order of the queries ---

  predicate InOrder(order: seq<nat>) { forall i :: 0 <= i < |order| ==> order[i] == 0 }

  lemma {:induction false} NewestStored(s: State, order: seq<nat>)
    requires CanStore(s, order) && InOrder(order) && s.answers != [] && Stored(s, order).answers == []
    ensures Stored(s, order).events == s.events && Stored(s, order).cached == s.answers[|s.answers| - 1]
    decreases |order|
  {
    var next := Next(s, Store(order[0]));
    assert next.answers == s.answers[1..];
    if next.answers == [] {
      NothingToStore(next, order[1..]);
    } else {
      NewestStored(next, order[1..]);
    }
  }

  /** Stored in the order of their queries, with the last query after the last write, the answers leave the cache
      accurate exactly if no inherited name comes first in the last one. */
  lemma InOrderExactly(s: State, asked: seq<string>, highest: Option<string>, order: seq<nat>)
    requires Enabled(s, Ask(asked, highest))
    requires CanStore(Next(s, Ask(asked, highest)), order) && InOrder(order)
    requires Stored(Next(s, Ask(asked, highest)), order).answers == []
    ensures EndsAccurate(Next(s, Ask(asked, highest)), order) <==> asked == [] || !Inherited(asked[0])
  {
    NewestStored(Next(s, Ask(asked, highest)), order);
    FreshAnswer(s, asked, highest);
  }

  /** A query made before a write and stored after that write's own refresh leaves the cache as if the write had
      not happened. */
  lemma OvertakenRefresh(sevs: seq<string>, more: seq<string>, a: Option<string>, b: Option<string>, cached: Answer)
    requires RefreshShows(sevs, a) && RefreshShows(more, b) && |sevs| != |more|
    ensures var s := State(more, [Answer(|sevs|, a), Answer(|more|, b)], cached);
            CanStore(s, [1, 0]) && Stored(s, [1, 0]).cached == Answer(|sevs|, a) && !EndsAccurate(s, [1, 0])
  {
    var s := State(more, [Answer(|sevs|, a), Answer(|more|, b)], cached);
    var s1 := Next(s, Store(1));
    assert [1, 0][1..] == [0] && [0][1..] == [];
    assert s1.answers == [Answer(|sevs|, a)];
    assert Stored(s, [1, 0]) == Stored(s1, [0]) == Next(s1, Store(0));
  }
}

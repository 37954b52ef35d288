/** An event handler that keeps, per event type, a list of filters in
    installation order and offers each event to the filters of its type,
    newest first, until one of them consumes it.

    Filters are compared by value (standing in for pointer identity). What a
    filter does with an event is abstract: a function telling whether it
    consumes it. */
module FilteringEventHandler {

  /** `PlatformEvent::Type`; the concrete enumerators are opaque. */
  type EventType = int

  /** A filter and the event types it subscribes to (possibly repeated). */
  datatype Filter = Filter(id: nat, eventTypes: seq<EventType>)

  /** An event: its type, and the rest of its fields as one opaque value. */
  datatype PlatformEvent = PlatformEvent(eventType: EventType, fields: int)

  /** The handler's state: the filter lists and the `_insideEvent` flag. */
  datatype Handler = Handler(filters: map<EventType, seq<Filter>>, insideEvent: bool)

  /** One call of a filter during dispatch, with the value `_insideEvent`
      had while the filter ran. */
  datatype FilterCall = FilterCall(filter: Filter, insideEvent: bool)

  /** The list for `t`; a type nobody subscribed to has an empty list. */
  function Filters(h: Handler, t: EventType): seq<Filter> {
    Lookup(h.filters, t)
  }

  function Lookup(m: map<EventType, seq<Filter>>, t: EventType): seq<Filter> {
    if t in m then m[t] else []
  }

  /** `n` copies of `f`. */
  function Repeat(f: Filter, n: nat): (r: seq<Filter>)
    ensures |r| == n
    ensures forall i :: 0 <= i < n ==> r[i] == f
  {
    if n == 0 then [] else Repeat(f, n - 1) + [f]
  }

  /** Number of occurrences of `t` in `ts`. */
  function Count(ts: seq<EventType>, t: EventType): nat {
    multiset(ts)[t]
  }

  /** The list read back to front. */
  function Reversed(s: seq<Filter>): (r: seq<Filter>)
    ensures |r| == |s|
    ensures forall i :: 0 <= i < |s| ==> r[i] == s[|s| - 1 - i]
  {
    if s == [] then [] else [s[|s| - 1]] + Reversed(s[..|s| - 1])
  }

  // ---------------------------------------------------------------------
  // Erasing every occurrence of a filter (`std::erase`)

  function Erase(s: seq<Filter>, f: Filter): (r: seq<Filter>)
    ensures f !in r
    ensures forall x :: x in r <==> x in s && x != f
    ensures forall x :: x != f ==> multiset(r)[x] == multiset(s)[x]
    ensures |r| <= |s|
  {
    if s == [] then []
    else
      assert s == [s[0]] + s[1..];
      (if s[0] == f then [] else [s[0]]) + Erase(s[1..], f)
  }

  /** Erasing keeps the survivors in order: it distributes over `+`. */
  lemma {:induction false} EraseAppend(a: seq<Filter>, b: seq<Filter>, f: Filter)
    ensures Erase(a + b, f) == Erase(a, f) + Erase(b, f)
    decreases |a|
  {
    if a == [] {
      assert a + b == b;
    } else {
      assert (a + b)[0] == a[0];
      assert (a + b)[1..] == a[1..] + b;
      EraseAppend(a[1..], b, f);
    }
  }

  /** Erasing a filter that is not in the list changes nothing. */
  lemma {:induction false} EraseAbsent(s: seq<Filter>, f: Filter)
    requires f !in s
    ensures Erase(s, f) == s
    decreases |s|
  {
    if s != [] {
      assert s == [s[0]] + s[1..];
      EraseAbsent(s[1..], f);
    }
  }

  lemma {:induction false} EraseRepeat(f: Filter, n: nat)
    ensures Erase(Repeat(f, n), f) == []
    decreases n
  {
    if n > 0 {
      EraseAppend(Repeat(f, n - 1), [f], f);
      EraseRepeat(f, n - 1);
    }
  }

  // ---------------------------------------------------------------------
  // Install and remove

  /** Pushes `f` onto the list of each type in `types`, in order. */
  function AppendToLists(m: map<EventType, seq<Filter>>, f: Filter, types: seq<EventType>)
    : (r: map<EventType, seq<Filter>>)
    ensures forall t :: Lookup(r, t) == Lookup(m, t) + Repeat(f, Count(types, t))
    decreases |types|
  {
    if types == [] then m
    else
      var t0 := types[0];
      var m' := m[t0 := Lookup(m, t0) + [f]];
      var r := AppendToLists(m', f, types[1..]);
      AppendStep(m, m', r, f, types);
      r
  }

  /** One push followed by the remaining pushes adds one copy per occurrence. */
  lemma AppendStep(m: map<EventType, seq<Filter>>, m': map<EventType, seq<Filter>>,
                   r: map<EventType, seq<Filter>>, f: Filter, types: seq<EventType>)
    requires types != []
    requires m' == m[types[0] := Lookup(m, types[0]) + [f]]
    requires forall t :: Lookup(r, t) == Lookup(m', t) + Repeat(f, Count(types[1..], t))
    ensures forall t :: Lookup(r, t) == Lookup(m, t) + Repeat(f, Count(types, t))
  {
    forall t ensures Lookup(r, t) == Lookup(m, t) + Repeat(f, Count(types, t)) {
      AppendStepAt(m, m', f, types, t);
    }
  }

  /** The per-type case of `AppendStep`. */
  lemma AppendStepAt(m: map<EventType, seq<Filter>>, m': map<EventType, seq<Filter>>,
                     f: Filter, types: seq<EventType>, t: EventType)
    requires types != []
    requires m' == m[types[0] := Lookup(m, types[0]) + [f]]
    ensures Lookup(m', t) + Repeat(f, Count(types[1..], t)) == Lookup(m, t) + Repeat(f, Count(types, t))
  {
    var c := Count(types[1..], t);
    CountCons(types, t);
    if t == types[0] {
      RepeatCons(f, c);
      assert Lookup(m', t) == Lookup(m, t) + [f];
    } else {
      assert Lookup(m', t) == Lookup(m, t);
    }
  }

  lemma CountCons(types: seq<EventType>, t: EventType)
    requires types != []
    ensures Count(types, t) == Count(types[1..], t) + (if t == types[0] then 1 else 0)
  {
    assert types == [types[0]] + types[1..];
  }

  lemma RepeatCons(f: Filter, n: nat)
    ensures [f] + Repeat(f, n) == Repeat(f, n + 1)
  {
  }

  /** Erases `f` from the list of each type in `types`. */
  function EraseFromLists(m: map<EventType, seq<Filter>>, f: Filter, types: seq<EventType>)
    : (r: map<EventType, seq<Filter>>)
    ensures forall t :: t in types ==> Lookup(r, t) == Erase(Lookup(m, t), f)
    ensures forall t :: t !in types ==> Lookup(r, t) == Lookup(m, t)
    decreases |types|
  {
    if types == [] then m
    else
      var t0 := types[0];
      var m' := m[t0 := Erase(Lookup(m, t0), f)];
      var r := EraseFromLists(m', f, types[1..]);
      assert types == [t0] + types[1..];
      EraseTwice(Lookup(m, t0), f);
      r
  }

  lemma {:induction false} EraseTwice(s: seq<Filter>, f: Filter)
    ensures Erase(Erase(s, f), f) == Erase(s, f)
  {
    EraseAbsent(Erase(s, f), f);
  }

  /** `installEventFilter`: appends `f` to the list of each of its event
      types; other lists are untouched. */
  function InstallEventFilter(h: Handler, f: Filter): (r: Handler)
    requires !h.insideEvent
    ensures !r.insideEvent
    ensures forall t :: t in f.eventTypes ==> Filters(r, t) == Filters(h, t) + Repeat(f, Count(f.eventTypes, t))
    ensures forall t :: t !in f.eventTypes ==> Filters(r, t) == Filters(h, t)
  {
    var r := h.(filters := AppendToLists(h.filters, f, f.eventTypes));
    assert forall t :: t !in f.eventTypes ==> Count(f.eventTypes, t) == 0;
    r
  }

  /** `removeEventFilter`: erases every occurrence of `f` from the list of
      each of its event types; other lists are untouched. */
  function RemoveEventFilter(h: Handler, f: Filter): (r: Handler)
    requires !h.insideEvent
    ensures !r.insideEvent
    ensures forall t :: t in f.eventTypes ==> Filters(r, t) == Erase(Filters(h, t), f)
    ensures forall t :: t !in f.eventTypes ==> Filters(r, t) == Filters(h, t)
  {
    h.(filters := EraseFromLists(h.filters, f, f.eventTypes))
  }

  /** Installing a filter that none of its lists holds, then removing it,
      gives back every list. */
  lemma InstallThenRemove(h: Handler, f: Filter)
    requires !h.insideEvent
    requires forall t :: t in f.eventTypes ==> f !in Filters(h, t)
    ensures forall t :: Filters(RemoveEventFilter(InstallEventFilter(h, f), f), t) == Filters(h, t)
  {
    var h1 := InstallEventFilter(h, f);
    forall t | t in f.eventTypes
      ensures Filters(RemoveEventFilter(h1, f), t) == Filters(h, t)
    {
      var k := Count(f.eventTypes, t);
      EraseAppend(Filters(h, t), Repeat(f, k), f);
      EraseRepeat(f, k);
      EraseAbsent(Filters(h, t), f);
    }
  }

  /** Removing a filter leaves the other filters of each list in their
      relative order: erasing from a concatenation erases from each part. */
  lemma RemoveKeepsOrder(h: Handler, f: Filter, t: EventType, i: nat)
    requires !h.insideEvent
    requires t in f.eventTypes
    requires i <= |Filters(h, t)|
    ensures Filters(RemoveEventFilter(h, f), t)
         == Erase(Filters(h, t)[..i], f) + Erase(Filters(h, t)[i..], f)
  {
    assert Filters(h, t) == Filters(h, t)[..i] + Filters(h, t)[i..];
    EraseAppend(Filters(h, t)[..i], Filters(h, t)[i..], f);
  }

  // ---------------------------------------------------------------------
  // Dispatch

  /** Position, in newest-first order, of the first filter that consumes `ev`. */
  function FirstConsumer(order: seq<Filter>, ev: PlatformEvent, consumes: (Filter, PlatformEvent) -> bool)
    : (r: int)
    ensures -1 <= r < |order|
    ensures r >= 0 ==> consumes(order[r], ev)
    ensures forall j :: 0 <= j < |order| && (r < 0 || j < r) ==> !consumes(order[j], ev)
  {
    if order == [] then -1
    else if consumes(order[0], ev) then 0
    else
      var k := FirstConsumer(order[1..], ev, consumes);
      if k < 0 then -1 else k + 1
  }

  /** `Event`: raises `_insideEvent`, offers `ev` to the filters registered
      for its type from the newest to the oldest, stops at the first that
      consumes it, and lowers `_insideEvent` on the way out. Returns the new
      state, the calls made, and whether the event was consumed. */
  method Event(h: Handler, ev: PlatformEvent, consumes: (Filter, PlatformEvent) -> bool)
    returns (h': Handler, calls: seq<FilterCall>, consumed: bool)
    ensures h'.filters == h.filters
    ensures !h'.insideEvent
    ensures forall c :: c in calls ==> c.insideEvent
    ensures var order := Reversed(Filters(h, ev.eventType));
            && |calls| <= |order|
            && (forall j :: 0 <= j < |calls| ==> calls[j].filter == order[j])
            && (consumed <==> FirstConsumer(order, ev, consumes) >= 0)
            && (consumed ==> |calls| == FirstConsumer(order, ev, consumes) + 1)
            && (!consumed ==> |calls| == |order|)
  {
    var state := h.(insideEvent := true);
    var order := Reversed(Filters(h, ev.eventType));
    calls := [];
    consumed := false;
    var i := 0;
    while i < |order|
      invariant 0 <= i <= |order|
      invariant state == h.(insideEvent := true)
      invariant |calls| == i
      invariant forall j :: 0 <= j < i ==> calls[j] == FilterCall(order[j], true)
      invariant forall j :: 0 <= j < i ==> !consumes(order[j], ev)
    {
      calls := calls + [FilterCall(order[i], state.insideEvent)];
      if consumes(order[i], ev) {
        consumed := true;
        break;
      }
      i := i + 1;
    }
    h' := state.(insideEvent := false);
  }

  /** Dispatch never reaches filters of another event type, nor filters
      older than the one that consumed the event. */
  lemma DispatchStopsAtConsumer(h: Handler, ev: PlatformEvent, consumes: (Filter, PlatformEvent) -> bool, k: nat)
    requires k < |Filters(h, ev.eventType)|
    requires consumes(Filters(h, ev.eventType)[k], ev)
    ensures var order := Reversed(Filters(h, ev.eventType));
            var c := FirstConsumer(order, ev, consumes);
            0 <= c <= |order| - 1 - k
  {
    var order := Reversed(Filters(h, ev.eventType));
    assert order[|order| - 1 - k] == Filters(h, ev.eventType)[k];
  }
}

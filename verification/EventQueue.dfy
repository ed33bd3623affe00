/** The event queue: events are kept in a table under recycled ids and only the ids travel through the
    buffer.  Threads interleave between the program's critical sections. */
module EventQueue {
  import opened Basics

  datatype EventType = Unknown | System | Timer | Other(code: nat)

  datatype Event = Event(kind: EventType, target: nat, data: nat, immediate: bool)

  // ---------- Saved events ----------

  /** The table of saved events and the ids free for reuse. */
  datatype Table = Table(events: map<nat, Event>, oldIds: seq<nat>)
  {
    /** Ids in use and ids free for reuse are disjoint, and together they are 0, 1, ... without a gap. */
    ghost predicate Valid() {
      && (forall id: nat :: id < |events| + |oldIds| <==> id in events || id in oldIds)
      && (forall i :: 0 <= i < |oldIds| ==> oldIds[i] !in events)
      && (forall i, j :: 0 <= i < j < |oldIds| ==> oldIds[i] != oldIds[j])
    }

    /** The id `saveEvent` chooses. */
    function NextId(): nat {
      if oldIds != [] then oldIds[|oldIds| - 1] else |events|
    }

    function Saved(event: Event): Table {
      Table(events[NextId() := event], if oldIds != [] then oldIds[..|oldIds| - 1] else oldIds)
    }

    function Removed(id: nat): Table {
      if id in events then Table(events - {id}, oldIds + [id]) else this
    }

    /** Saving never overwrites a live event, and keeps the ids gapless. */
    lemma SaveKeepsValid(event: Event)
      requires Valid()
      ensures NextId() !in events
      ensures Saved(event).Valid()
      ensures |Saved(event).events| == |events| + 1
    {
      var t := Saved(event);
      if oldIds != [] {
        assert oldIds == t.oldIds + [NextId()];
        assert oldIds[|oldIds| - 1] !in events;
        forall id: nat
          ensures id < |t.events| + |t.oldIds| <==> id in t.events || id in t.oldIds
        {
          assert id in oldIds <==> id in t.oldIds || id == NextId();
        }
      }
    }

    lemma RemoveKeepsValid(id: nat)
      requires Valid() && id in events
      ensures Removed(id).Valid()
      ensures |Removed(id).events| == |events| - 1
    {
      var t := Removed(id);
      assert events == t.events[id := events[id]];
      forall i: nat
        ensures i < |t.events| + |t.oldIds| <==> i in t.events || i in t.oldIds
      {
        assert i in t.oldIds <==> i in oldIds || i == id;
      }
    }

    /** Removing what was just saved restores the events, and the id is the next one used. */
    lemma RemoveUndoesSave(event: Event)
      requires Valid()
      ensures var t := Saved(event).Removed(NextId());
              t.events == events && t.NextId() == NextId()
    {
      SaveKeepsValid(event);
      assert Saved(event).Removed(NextId()).events == events;
    }
  }

  // ---------- The queue between critical sections ----------

  /** `buffer` is the deque of ids, front first; ids enter at the front and leave at the back.
      `saving` is an id a producer has saved but not yet pushed: it holds the queue's mutex.
      `inFlight` is an id the consumer has popped but not yet looked up. */
  datatype Queue = Queue(table: Table, buffer: seq<nat>, saving: Option<nat>, inFlight: Option<nat>,
                         pending: seq<Event>, ready: bool, looping: bool)

  datatype Step =
    | Save(event: Event)        // addEventToBuffer: takes the mutex and saves
    | Push                      // addEventToBuffer: pushes the id and releases the mutex
    | Pop                       // processEvent: takes an id from the buffer
    | Remove                    // processEvent: under the mutex, looks the event up
    | Adopt                     // adoptBuffer
    | AddPending(event: Event)  // addEvent: pushes to the pending events, having seen the loop not ready
    | Start                     // loop: ready from now on
    | Drain                     // loop: saves the oldest pending event
    | Loop                      // loop: finds no pending event and goes on to process events for good

  /** When the program can take the step. */
  predicate Enabled(q: Queue, step: Step) {
    match step
    case Save(_) => q.ready && q.saving.None?
    case Push => q.saving.Some?
    case Pop => q.looping && q.buffer != [] && q.inFlight.None?
    case Remove => q.inFlight.Some? && q.saving.None?
    case Adopt => q.inFlight.None? && q.saving.None?
    case AddPending(_) => true
    case Start => !q.ready
    case Drain => q.ready && !q.looping && q.pending != [] && q.saving.None?
    case Loop => q.ready && !q.looping && q.pending == []
  }

  function Take(q: Queue, step: Step): Queue
    requires Enabled(q, step)
  {
    match step
    case Save(event) => q.(table := q.table.Saved(event), saving := Some(q.table.NextId()))
    case Push => q.(buffer := [q.saving.value] + q.buffer, saving := None)
    case Pop => q.(buffer := q.buffer[..|q.buffer| - 1], inFlight := Some(q.buffer[|q.buffer| - 1]))
    case Remove => q.(table := q.table.Removed(q.inFlight.value), inFlight := None)
    case Adopt => q.(table := Table(map[], []), buffer := [])
    case AddPending(event) => q.(pending := q.pending + [event])
    case Start => q.(ready := true)
    case Loop => q.(looping := true)
    case Drain =>
      q.(table := q.table.Saved(q.pending[0]), saving := Some(q.table.NextId()), pending := q.pending[1..])
  }

  const EMPTY := Queue(Table(map[], []), [], None, None, [], false, false)

  /** What became of an event. */
  datatype Fate = Delivered(event: Event) | Discarded(event: Event)

  /** A queue with its history: the events added so far and the fate of those that have left, in order. */
  datatype World = World(q: Queue, added: seq<Event>, gone: seq<Fate>)

  const INITIAL := World(EMPTY, [], [])

  function OptionSeq<T>(o: Option<T>): seq<T> {
    if o.Some? then [o.value] else []
  }

  function Reversed<T>(s: seq<T>): (r: seq<T>)
    ensures |r| == |s|
    ensures forall i :: 0 <= i < |s| ==> r[i] == s[|s| - 1 - i]
  {
    if s == [] then [] else Reversed(s[1..]) + [s[0]]
  }

  /** The ids in use, oldest first. */
  function Ids(q: Queue): seq<nat> {
    OptionSeq(q.inFlight) + Reversed(q.buffer) + OptionSeq(q.saving)
  }

  predicate Live(table: Table, ids: seq<nat>) {
    forall i :: 0 <= i < |ids| ==> ids[i] in table.events
  }

  function Lookup(table: Table, ids: seq<nat>): (es: seq<Event>)
    requires Live(table, ids)
    ensures |es| == |ids|
    ensures forall i :: 0 <= i < |ids| ==> es[i] == table.events[ids[i]]
  {
    if ids == [] then [] else [table.events[ids[0]]] + Lookup(table, ids[1..])
  }

  function Discards(es: seq<Event>): (fs: seq<Fate>)
    ensures |fs| == |es|
    ensures forall i :: 0 <= i < |es| ==> fs[i] == Discarded(es[i])
  {
    if es == [] then [] else [Discarded(es[0])] + Discards(es[1..])
  }

  function Events(fs: seq<Fate>): (es: seq<Event>)
    ensures |es| == |fs|
    ensures forall i :: 0 <= i < |fs| ==> es[i] == fs[i].event
  {
    if fs == [] then [] else [fs[0].event] + Events(fs[1..])
  }

  predicate Distinct(ids: seq<nat>) {
    forall i, j :: 0 <= i < j < |ids| ==> ids[i] != ids[j]
  }

  predicate Covers(ids: seq<nat>, table: Table) {
    forall id :: id in table.events ==> id in ids
  }

  /** `ids` lists the live ids of the table, each once. */
  ghost predicate Tracks(table: Table, ids: seq<nat>) {
    table.Valid() && Live(table, ids) && Distinct(ids) && Covers(ids, table)
  }

  /** The ids in flight, buffered or being saved are distinct, and they are exactly the live ones. */
  ghost predicate Consistent(q: Queue) {
    Tracks(q.table, Ids(q))
  }

  /** The events still in the queue, oldest first. */
  function Waiting(q: Queue): seq<Event>
    requires Live(q.table, Ids(q))
  {
    Lookup(q.table, Ids(q)) + q.pending
  }

  function Advance(w: World, step: Step): World
    requires Consistent(w.q) && Enabled(w.q, step)
  {
    var added := match step case Save(e) => w.added + [e] case AddPending(e) => w.added + [e] case _ => w.added;
    var gone := match step
      case Remove => w.gone + [Delivered(w.q.table.events[Ids(w.q)[0]])]
      case Adopt => w.gone + Discards(Lookup(w.q.table, Ids(w.q)))
      case _ => w.gone;
    World(Take(w.q, step), added, gone)
  }

  // ---------- One step ----------

  /** How a step changes the list of live ids. */
  lemma IdsAfter(q: Queue, step: Step)
    requires Enabled(q, step)
    ensures var ids, after := Ids(q), Ids(Take(q, step));
            match step
            case Save(_) => after == ids + [q.table.NextId()]
            case Drain => after == ids + [q.table.NextId()]
            case Remove => ids != [] && ids[0] == q.inFlight.value && after == ids[1..]
            case Adopt => after == []
            case _ => after == ids
  {
    hide Reversed;
    match step
    case Push => IdsPushed(OptionSeq(q.inFlight), q.saving.value, q.buffer);
    case Pop => ReversedPop(q.buffer);
    case _ =>
  }

  lemma IdsPushed(front: seq<nat>, id: nat, buffer: seq<nat>)
    ensures front + Reversed([id] + buffer) + [] == front + Reversed(buffer) + [id]
  {
    ReversedPush(id, buffer);
    hide Reversed;
    Associate(front, Reversed(buffer), [id]);
  }

  lemma ReversedPush(x: nat, s: seq<nat>)
    ensures Reversed([x] + s) == Reversed(s) + [x]
  {
    assert ([x] + s)[1..] == s;
  }

  lemma {:induction false} ReversedPop(s: seq<nat>)
    requires s != []
    ensures Reversed(s) == [s[|s| - 1]] + Reversed(s[..|s| - 1])
  {
    if |s| > 1 {
      var last, front := s[|s| - 1], s[..|s| - 1];
      ReversedPop(s[1..]);
      assert s[1..][..|s| - 2] == front[1..];
      Associate([last], Reversed(front[1..]), [s[0]]);
    }
  }

  lemma StepKeepsConsistent(q: Queue, step: Step)
    requires Consistent(q) && Enabled(q, step)
    ensures Consistent(Take(q, step))
  {
    hide Ids, Tracks;
    IdsAfter(q, step);
    match step
    case Save(event) => SaveTracks(q.table, Ids(q), event);
    case Drain => SaveTracks(q.table, Ids(q), q.pending[0]);
    case Remove => RemoveTracks(q.table, Ids(q));
    case Adopt => NothingTracks();
    case _ =>
  }

  lemma NothingTracks()
    ensures Tracks(Table(map[], []), [])
  {
  }

  lemma SaveTracks(table: Table, ids: seq<nat>, event: Event)
    requires Tracks(table, ids)
    ensures Tracks(table.Saved(event), ids + [table.NextId()])
  {
    table.SaveKeepsValid(event);
    var id, t := table.NextId(), table.Saved(event);
    assert t.Valid() && t.events == table.events[id := event] && id !in table.events;
    SaveCovers(table.events, ids, event, id);
  }

  lemma SaveCovers(events: map<nat, Event>, ids: seq<nat>, event: Event, id: nat)
    requires id !in events
    requires forall i :: 0 <= i < |ids| ==> ids[i] in events
    requires forall k :: k in events ==> k in ids
    requires forall i, j :: 0 <= i < j < |ids| ==> ids[i] != ids[j]
    ensures forall i :: 0 <= i < |ids| + 1 ==> (ids + [id])[i] in events[id := event]
    ensures forall k :: k in events[id := event] ==> k in ids + [id]
    ensures forall i, j :: 0 <= i < j < |ids| + 1 ==> (ids + [id])[i] != (ids + [id])[j]
  {
  }

  lemma RemoveTracks(table: Table, ids: seq<nat>)
    requires Tracks(table, ids) && ids != []
    ensures Tracks(table.Removed(ids[0]), ids[1..])
  {
    table.RemoveKeepsValid(ids[0]);
    var t := table.Removed(ids[0]);
    forall id | id in t.events
      ensures id in ids[1..]
    {
      var i :| 0 <= i < |ids| && ids[i] == id;
      assert ids[1..][i - 1] == id;
    }
  }

  /** Whatever has been added has either left the queue or is still waiting, all in the order added. */
  ghost predicate InOrder(w: World)
    requires Consistent(w.q)
  {
    Line(w) == w.added
  }

  /** The events that have left and those that wait, in this order. */
  function Line(w: World): seq<Event>
    requires Consistent(w.q)
  {
    Events(w.gone) + Waiting(w.q)
  }

  /** No producer adds directly while older events are still pending. */
  predicate Quiet(q: Queue, step: Step) {
    step.Save? ==> q.pending == []
  }

  lemma StepKeepsOrder(w: World, step: Step)
    requires Consistent(w.q) && Enabled(w.q, step) && InOrder(w) && Quiet(w.q, step)
    ensures Consistent(Take(w.q, step)) && InOrder(Advance(w, step))
  {
    hide Consistent, InOrder, Enabled, Take;
    StepOrderExactly(w, step);
  }

  /** A step that saves no new event leaves the line as it is, but for an event that is added at its end. */
  lemma LineAfter(w: World, step: Step)
    requires Consistent(w.q) && Enabled(w.q, step) && !step.Save?
    ensures Consistent(Take(w.q, step)) && Advance(w, step).q == Take(w.q, step)
    ensures var r, new' := Advance(w, step), if step.AddPending? then [step.event] else [];
            Line(r) == Line(w) + new' && r.added == w.added + new'
  {
    hide Consistent, Enabled, Take, Advance, Line;
    StepKeepsConsistent(w.q, step);
    AdvanceTakes(w, step);
    match step
    case Remove => RemoveLine(w);
    case Adopt => AdoptLine(w);
    case AddPending(event) => PendingLine(w, event);
    case _ => SameLine(w, step);
  }

  lemma AdvanceTakes(w: World, step: Step)
    requires Consistent(w.q) && Enabled(w.q, step)
    ensures var r := Advance(w, step);
            && r.q == Take(w.q, step)
            && r.added == w.added + (if step.Save? || step.AddPending? then [step.event] else [])
            && (!step.Remove? && !step.Adopt? ==> r.gone == w.gone)
  {
  }

  lemma SameLine(w: World, step: Step)
    requires Consistent(w.q) && Enabled(w.q, step) && Consistent(Take(w.q, step))
    requires step.Push? || step.Pop? || step.Start? || step.Loop? || step.Drain?
    ensures Line(Advance(w, step)) == Line(w) + [] && Advance(w, step).added == w.added + []
  {
    hide Consistent, Ids, Lookup, Live, Waiting, Events, Advance, Take, Enabled;
    if step.Drain? {
      DrainWaiting(w.q);
    } else {
      SameWaiting(w.q, step);
    }
    AdvanceTakes(w, step);
  }

  lemma PendingLine(w: World, event: Event)
    requires Consistent(w.q) && Enabled(w.q, AddPending(event)) && Consistent(Take(w.q, AddPending(event)))
    ensures var r := Advance(w, AddPending(event)); Line(r) == Line(w) + [event] && r.added == w.added + [event]
  {
    hide Consistent, Tracks, Ids, Lookup, Live, Waiting, Events, Advance, Take, Enabled;
    PendingWaiting(w.q, event);
    AdvanceTakes(w, AddPending(event));
    Associate(Events(w.gone), Waiting(w.q), [event]);
  }

  lemma RemoveLine(w: World)
    requires Consistent(w.q) && Enabled(w.q, Remove) && Consistent(Take(w.q, Remove))
    ensures Line(Advance(w, Remove)) == Line(w) + [] && Advance(w, Remove).added == w.added + []
  {
    RemoveWaiting(w.q);
    hide Tracks, Ids, Lookup, Live, Waiting, Events;
    var head, after := w.q.table.events[Ids(w.q)[0]], Waiting(Take(w.q, Remove));
    EventsConcat(w.gone, [Delivered(head)]);
    Associate(Events(w.gone), [head], after);
  }

  lemma AdoptLine(w: World)
    requires Consistent(w.q) && Enabled(w.q, Adopt) && Consistent(Take(w.q, Adopt))
    ensures Line(Advance(w, Adopt)) == Line(w) + [] && Advance(w, Adopt).added == w.added + []
  {
    hide Consistent, Tracks, Ids, Lookup, Live, Events, Discards, Waiting, Advance, Take, Enabled;
    AdoptWaiting(w.q);
    var lost := Lookup(w.q.table, Ids(w.q));
    AdoptGone(w, lost);
    Associate(Events(w.gone), lost, w.q.pending);
  }

  /** An event that is saved goes in front of the pending ones. */
  lemma SaveLine(w: World, event: Event) returns (front: seq<Event>)
    requires Consistent(w.q) && Enabled(w.q, Save(event))
    ensures Consistent(Take(w.q, Save(event))) && Advance(w, Save(event)).q == Take(w.q, Save(event))
    ensures var r := Advance(w, Save(event));
            Line(w) == front + w.q.pending && Line(r) == front + ([event] + w.q.pending) && r.added == w.added + [event]
  {
    StepKeepsConsistent(w.q, Save(event));
    SaveWaiting(w.q, event);
    var live := Lookup(w.q.table, Ids(w.q));
    hide Tracks, Ids, Lookup, Live, Events;
    front := Events(w.gone) + live;
    Associate(Events(w.gone), live, w.q.pending);
    Associate(live, [event], w.q.pending);
    Associate(Events(w.gone), live, [event] + w.q.pending);
  }

  lemma BehindPending<T>(front: seq<T>, pending: seq<T>, added: seq<T>, x: T)
    requires x !in pending
    ensures front + ([x] + pending) == added + [x] <==> front + pending == added && pending == []
  {
    var a, b := front + ([x] + pending), added + [x];
    assert b[|b| - 1] == x;
    if pending == [] {
      assert a == front + [x] && front + [] == front;
      BehindBoth(front, added, [x]);
    } else {
      assert a[|a| - 1] == pending[|pending| - 1] && pending[|pending| - 1] in pending;
    }
  }

  lemma BehindBoth<T>(a: seq<T>, b: seq<T>, c: seq<T>)
    ensures a + c == b + c <==> a == b
  {
    if a + c == b + c {
      assert |a| == |b|;
      assert a == (a + c)[..|a|] && b == (b + c)[..|b|];
    }
  }

  /** Every step: what was in order stays in order exactly if no event overtakes a pending one; and what was
      out of order stays so. An event that equals a pending one could not be told from it. */
  lemma StepOrderExactly(w: World, step: Step)
    requires Consistent(w.q) && Enabled(w.q, step) && (step.Save? ==> step.event !in w.q.pending || w.q.pending == [])
    ensures Consistent(Take(w.q, step))
    ensures InOrder(Advance(w, step)) <==> InOrder(w) && Quiet(w.q, step)
  {
    hide Consistent, Enabled, Take, Advance, Line;
    AdvanceTakes(w, step);
    if step.Save? {
      var front := SaveLine(w, step.event);
      BehindPending(front, w.q.pending, w.added, step.event);
    } else {
      LineAfter(w, step);
      BehindBoth(Line(w), w.added, if step.AddPending? then [step.event] else []);
    }
  }

  lemma HeadAndTail<T>(s: seq<T>)
    requires s != []
    ensures s == [s[0]] + s[1..]
  {
  }

  lemma SaveWaiting(q: Queue, event: Event)
    requires Consistent(q) && Enabled(q, Save(event)) && Consistent(Take(q, Save(event)))
    ensures Waiting(Take(q, Save(event))) == Lookup(q.table, Ids(q)) + [event] + q.pending
  {
    IdsAfter(q, Save(event));
    LookupSaved(q.table, Ids(q), event);
  }

  lemma SameWaiting(q: Queue, step: Step)
    requires Consistent(q) && Enabled(q, step) && Consistent(Take(q, step))
    requires step.Push? || step.Pop? || step.Start? || step.Loop?
    ensures Waiting(Take(q, step)) == Waiting(q)
  {
    IdsAfter(q, step);
    hide Tracks, Ids, Lookup, Live;
  }

  lemma DrainWaiting(q: Queue)
    requires Consistent(q) && Enabled(q, Drain) && Consistent(Take(q, Drain))
    ensures Waiting(Take(q, Drain)) == Waiting(q)
  {
    IdsAfter(q, Drain);
    LookupSaved(q.table, Ids(q), q.pending[0]);
    hide Tracks, Ids, Lookup, Live;
    HeadAndTail(q.pending);
    Associate(Lookup(q.table, Ids(q)), [q.pending[0]], q.pending[1..]);
  }

  lemma PendingWaiting(q: Queue, event: Event)
    requires Consistent(q) && Enabled(q, AddPending(event)) && Consistent(Take(q, AddPending(event)))
    ensures Live(q.table, Ids(q)) && Waiting(Take(q, AddPending(event))) == Waiting(q) + [event]
  {
    IdsAfter(q, AddPending(event));
    hide Tracks, Ids, Lookup, Live;
    Associate(Lookup(q.table, Ids(q)), q.pending, [event]);
  }

  lemma RemoveWaiting(q: Queue)
    requires Consistent(q) && Enabled(q, Remove) && Consistent(Take(q, Remove))
    ensures Ids(q) != [] && Waiting(q) == [q.table.events[Ids(q)[0]]] + Waiting(Take(q, Remove))
  {
    IdsAfter(q, Remove);
    var ids := Ids(q);
    LookupRemoved(q.table, ids);
    hide Tracks, Ids, Lookup, Live;
    var head, rest := [q.table.events[ids[0]]], Lookup(q.table.Removed(ids[0]), ids[1..]);
    Associate(head, rest, q.pending);
  }

  lemma AdoptWaiting(q: Queue)
    requires Consistent(q) && Enabled(q, Adopt) && Consistent(Take(q, Adopt))
    ensures Waiting(Take(q, Adopt)) == q.pending
    ensures Live(q.table, Ids(q)) && Waiting(q) == Lookup(q.table, Ids(q)) + q.pending
  {
    IdsAfter(q, Adopt);
    LookupNone(Take(q, Adopt).table);
    hide Ids, Lookup;
    assert [] + q.pending == q.pending;
  }

  lemma LookupNone(table: Table)
    ensures Lookup(table, []) == []
  {
  }

  lemma LookupRemoved(table: Table, ids: seq<nat>)
    requires ids != [] && Live(table, ids) && forall i :: 0 < i < |ids| ==> ids[i] != ids[0]
    ensures Live(table.Removed(ids[0]), ids[1..])
    ensures Lookup(table, ids) == [table.events[ids[0]]] + Lookup(table.Removed(ids[0]), ids[1..])
  {
  }

  lemma LookupSaved(table: Table, ids: seq<nat>, event: Event)
    requires table.Valid() && Live(table, ids)
    ensures Live(table.Saved(event), ids + [table.NextId()])
    ensures Lookup(table.Saved(event), ids + [table.NextId()]) == Lookup(table, ids) + [event]
  {
    table.SaveKeepsValid(event);
  }

  lemma EventsConcat(a: seq<Fate>, b: seq<Fate>)
    ensures Events(a + b) == Events(a) + Events(b)
    ensures |b| == 1 ==> Events(b) == [b[0].event]
  {
    hide Events;
    var both := Events(a) + Events(b);
    forall i | 0 <= i < |both| ensures Events(a + b)[i] == both[i] {
    }
  }

  lemma DiscardsEvents(es: seq<Event>)
    ensures Events(Discards(es)) == es
  {
  }

  // ---------- Runs ----------

  /** The steps can be taken one after the other; `quiet` also asks that each is quiet. */
  predicate Runs(w: World, steps: seq<Step>, quiet: bool)
    requires Consistent(w.q)
    decreases |steps|
  {
    steps == []
    || (&& Enabled(w.q, steps[0])
        && (quiet ==> Quiet(w.q, steps[0]))
        && (StepKeepsConsistent(w.q, steps[0]); Runs(Advance(w, steps[0]), steps[1..], quiet)))
  }

  function Outcome(w: World, steps: seq<Step>): (r: World)
    requires Consistent(w.q) && Runs(w, steps, false)
    ensures Consistent(r.q)
    decreases |steps|
  {
    if steps == [] then w
    else StepKeepsConsistent(w.q, steps[0]); Outcome(Advance(w, steps[0]), steps[1..])
  }

  lemma InitialConsistent()
    ensures Consistent(EMPTY) && InOrder(INITIAL) && Conserved(INITIAL)
  {
  }

  lemma {:induction false} QuietRunInOrder(w: World, steps: seq<Step>)
    requires Consistent(w.q) && InOrder(w) && Runs(w, steps, true)
    ensures Runs(w, steps, false) && InOrder(Outcome(w, steps))
    decreases |steps|
  {
    hide Consistent, InOrder, Enabled, Take;
    if steps != [] {
      StepKeepsOrder(w, steps[0]);
      QuietRunInOrder(Advance(w, steps[0]), steps[1..]);
    }
  }

  predicate AllDelivered(gone: seq<Fate>) {
    forall i :: 0 <= i < |gone| ==> gone[i].Delivered?
  }

  lemma {:induction false} OnlyAdoptDiscards(w: World, steps: seq<Step>)
    requires Consistent(w.q) && Runs(w, steps, false) && AllDelivered(w.gone) && Adopt !in steps
    ensures AllDelivered(Outcome(w, steps).gone)
    decreases |steps|
  {
    hide Consistent, Enabled, Take;
    if steps != [] {
      assert steps[0] in steps;
      StepKeepsConsistent(w.q, steps[0]);
      OnlyAdoptDiscards(Advance(w, steps[0]), steps[1..]);
    }
  }

  /** The queue is a first-in first-out queue: in every quiet run, the events that have left are, in
      order, the first ones added, and the rest are waiting in order.  None is lost unless a new buffer
      is adopted. */
  lemma FirstInFirstOut(steps: seq<Step>)
    requires Consistent(EMPTY) && Runs(INITIAL, steps, true)
    ensures Runs(INITIAL, steps, false)
    ensures var w := Outcome(INITIAL, steps);
            && Events(w.gone) <= w.added
            && Waiting(w.q) == w.added[|w.gone|..]
            && (Adopt !in steps ==> AllDelivered(w.gone))
  {
    InitialConsistent();
    QuietRunInOrder(INITIAL, steps);
    var w := Outcome(INITIAL, steps);
    assert w.added[|w.gone|..] == Waiting(w.q) by {
      hide Events, Waiting, Consistent, Outcome, Runs;
      Dropped(Events(w.gone), Waiting(w.q));
    }
    if Adopt !in steps {
      OnlyAdoptDiscards(INITIAL, steps);
    }
  }

  lemma Dropped<T>(a: seq<T>, b: seq<T>)
    ensures (a + b)[|a|..] == b && a <= a + b
  {
  }

  /** A producer that adds while older events are still pending overtakes them: order survives exactly
      when it could not be told apart. */
  lemma OvertakesPending(w: World, event: Event)
    requires Consistent(w.q) && InOrder(w) && Enabled(w.q, Save(event))
    ensures Consistent(Take(w.q, Save(event)))
    ensures InOrder(Advance(w, Save(event))) <==> forall i :: 0 <= i < |w.q.pending| ==> w.q.pending[i] == event
  {
    StepKeepsConsistent(w.q, Save(event));
    SaveWaiting(w.q, event);
    hide Tracks, Ids, Lookup, Live, Events, Enabled, Take;
    var live := Events(w.gone) + Lookup(w.q.table, Ids(w.q));
    Rotated(Events(w.gone), Lookup(w.q.table, Ids(w.q)), [event], w.q.pending);
    SameAhead(live, [event], w.q.pending);
    RotationEqual(event, w.q.pending);
  }

  lemma RunsFirst(w: World, step: Step, rest: seq<Step>, quiet: bool)
    requires Consistent(w.q) && Enabled(w.q, step)
    ensures Consistent(Advance(w, step).q)
    ensures Runs(w, [step] + rest, quiet) <==> (quiet ==> Quiet(w.q, step)) && Runs(Advance(w, step), rest, quiet)
    ensures Runs(Advance(w, step), rest, false) ==>
              Runs(w, [step] + rest, false) && Outcome(w, [step] + rest) == Outcome(Advance(w, step), rest)
  {
    hide Consistent, Enabled, Take;
    StepKeepsConsistent(w.q, step);
    var steps := [step] + rest;
    assert steps[1..] == rest;
  }

  lemma NoStep(w: World, quiet: bool)
    requires Consistent(w.q)
    ensures Runs(w, [], quiet) && Outcome(w, []) == w
  {
  }

  lemma TwoSteps(older: Event)
    ensures Consistent(EMPTY) && Enabled(EMPTY, AddPending(older))
    ensures var a := Advance(INITIAL, AddPending(older));
            && Consistent(a.q) && Enabled(a.q, Start)
            && var b := Advance(a, Start);
            b == World(EMPTY.(pending := [older], ready := true), [older], []) && Consistent(b.q) && InOrder(b)
  {
    InitialConsistent();
    hide Consistent, InOrder;
    StepKeepsOrder(INITIAL, AddPending(older));
    StepKeepsOrder(Advance(INITIAL, AddPending(older)), Start);
  }

  /** This happens: added before the loop is ready, an event waits behind one that was added later. */
  lemma OvertakingHappens(older: Event, newer: Event)
    requires older != newer
    ensures Consistent(EMPTY)
    ensures var steps := [AddPending(older)] + ([Start] + [Save(newer)]);
            && Runs(INITIAL, steps, false) && !Runs(INITIAL, steps, true)
            && !InOrder(Outcome(INITIAL, steps))
  {
    TwoSteps(older);
    hide Consistent, InOrder, Runs, Outcome;
    var a := Advance(INITIAL, AddPending(older));
    var b := Advance(a, Start);
    SaveLast(b, newer);
    RunsFirst(a, Start, [Save(newer)], false);
    RunsFirst(a, Start, [Save(newer)], true);
    RunsFirst(INITIAL, AddPending(older), [Start] + [Save(newer)], false);
    RunsFirst(INITIAL, AddPending(older), [Start] + [Save(newer)], true);
    OvertakesPending(b, newer);
    assert b.q.pending[0] != newer;
  }

  lemma SaveLast(b: World, newer: Event)
    requires Consistent(b.q) && Enabled(b.q, Save(newer)) && b.q.pending != []
    ensures Runs(b, [Save(newer)], false) && !Runs(b, [Save(newer)], true)
    ensures Consistent(Take(b.q, Save(newer))) && Outcome(b, [Save(newer)]) == Advance(b, Save(newer))
  {
    hide Consistent;
    RunsFirst(b, Save(newer), [], false);
    RunsFirst(b, Save(newer), [], true);
    NoStep(Advance(b, Save(newer)), false);
    assert [Save(newer)] + [] == [Save(newer)];
  }

  // ---------- Order over runs ----------

  predicate AllDifferent(es: seq<Event>) {
    forall i, j :: 0 <= i < j < |es| ==> es[i] != es[j]
  }

  ghost predicate Conserved(w: World)
    requires Consistent(w.q)
  {
    multiset(Events(w.gone)) + multiset(Waiting(w.q)) == multiset(w.added)
  }

  lemma PendingWasAdded(w: World, event: Event)
    requires Consistent(w.q) && Conserved(w)
    ensures event in w.q.pending ==> event in w.added
  {
    var live := Lookup(w.q.table, Ids(w.q));
    hide Tracks, Ids, Lookup, Live, Events;
    if event in w.q.pending {
      assert event in multiset(live + w.q.pending);
      assert event in multiset(w.added);
    }
  }

  /** What has been added stays added. */
  lemma {:induction false} AddedGrows(w: World, steps: seq<Step>)
    requires Consistent(w.q) && Runs(w, steps, false)
    ensures w.added <= Outcome(w, steps).added
    decreases |steps|
  {
    hide Consistent, Enabled, Take;
    if steps != [] {
      StepKeepsConsistent(w.q, steps[0]);
      AddedGrows(Advance(w, steps[0]), steps[1..]);
    }
  }

  lemma NewIsNotPending(w: World, event: Event, after: seq<Event>)
    requires Consistent(w.q) && Conserved(w) && AllDifferent(after) && w.added + [event] <= after
    ensures event !in w.q.pending
  {
    hide Consistent, Conserved;
    PendingWasAdded(w, event);
    assert (w.added + [event])[|w.added|] == event == after[|w.added|];
    forall i | 0 <= i < |w.added| ensures w.added[i] != event {
      assert (w.added + [event])[i] == w.added[i] == after[i];
    }
  }

  /** When all events differ, a run keeps the order exactly if it is quiet: no event is added directly while
      another one is pending. */
  lemma {:induction false} OrderExactly(w: World, steps: seq<Step>)
    requires Consistent(w.q) && Conserved(w) && Runs(w, steps, false) && AllDifferent(Outcome(w, steps).added)
    ensures InOrder(Outcome(w, steps)) <==> InOrder(w) && Runs(w, steps, true)
    decreases |steps|
  {
    hide Consistent, InOrder, Enabled, Take, AllDifferent, Conserved;
    if steps != [] {
      var step, rest := steps[0], steps[1..];
      ConservedStep(w, step);
      var r := Advance(w, step);
      if step.Save? {
        AddedGrows(r, rest);
        AdvanceTakes(w, step);
        NewIsNotPending(w, step.event, Outcome(w, steps).added);
      }
      StepOrderExactly(w, step);
      OrderExactly(r, rest);
    }
  }

  lemma ConservedStep(w: World, step: Step)
    requires Consistent(w.q) && Enabled(w.q, step) && Conserved(w)
    ensures Consistent(Take(w.q, step)) && Advance(w, step).q == Take(w.q, step) && Conserved(Advance(w, step))
  {
    hide Consistent, Enabled, Take, Waiting, Events;
    StepKeepsCount(w, step);
    AdvanceTakes(w, step);
  }

  /** From the start: with different events, first in is first out exactly in the quiet runs. */
  lemma InOrderExactlyIfQuiet(steps: seq<Step>)
    requires Consistent(EMPTY) && Runs(INITIAL, steps, false) && AllDifferent(Outcome(INITIAL, steps).added)
    ensures InOrder(Outcome(INITIAL, steps)) <==> Runs(INITIAL, steps, true)
  {
    InitialConsistent();
    hide Runs, Outcome, AllDifferent, InOrder;
    OrderExactly(INITIAL, steps);
  }

  // ---------- Stranded events ----------

  /** The events pushed to the pending ones. */
  function Pended(steps: seq<Step>): seq<Event>
    decreases |steps|
  {
    if steps == [] then []
    else (if steps[0].AddPending? then [steps[0].event] else []) + Pended(steps[1..])
  }

  /** Once the loop has found nothing pending it never looks again. */
  lemma {:induction false} NeverDrained(w: World, steps: seq<Step>)
    requires Consistent(w.q) && Runs(w, steps, false) && w.q.looping
    ensures Outcome(w, steps).q.looping && Outcome(w, steps).q.pending == w.q.pending + Pended(steps)
    decreases |steps|
  {
    hide Consistent;
    if steps != [] {
      var step, r := steps[0], Advance(w, steps[0]);
      StepKeepsConsistent(w.q, step);
      assert r.q.looping && r.q.pending == w.q.pending + if step.AddPending? then [step.event] else [];
      hide Enabled, Take, Advance;
      NeverDrained(r, steps[1..]);
      Associate(w.q.pending, if step.AddPending? then [step.event] else [], Pended(steps[1..]));
    }
  }

  lemma {:induction false} RunsConcat(w: World, a: seq<Step>, b: seq<Step>, quiet: bool)
    requires Consistent(w.q) && Runs(w, a, false)
    ensures Runs(w, a + b, quiet) <==> Runs(w, a, quiet) && Runs(Outcome(w, a), b, quiet)
    ensures Runs(w, a + b, false) ==> Runs(Outcome(w, a), b, false) && Outcome(w, a + b) == Outcome(Outcome(w, a), b)
    decreases |a|
  {
    hide Consistent, Enabled, Take, Quiet;
    if a == [] {
      assert a + b == b;
    } else {
      StepKeepsConsistent(w.q, a[0]);
      assert (a + b)[1..] == a[1..] + b && (a + b)[0] == a[0];
      RunsConcat(Advance(w, a[0]), a[1..], b, quiet);
      RunsConcat(Advance(w, a[0]), a[1..], b, false);
    }
  }

  /** In every run, the events that are left pending once the loop has drained are exactly those pushed
      after that moment, in order: they are never delivered, and no other event is stranded. */
  lemma StrandedExactly(before: seq<Step>, after: seq<Step>)
    requires Consistent(EMPTY) && Runs(INITIAL, before, false) && Runs(INITIAL, before + ([Loop] + after), false)
    ensures var w := Outcome(INITIAL, before + ([Loop] + after)).q;
            w.looping && w.pending == Pended(after)
  {
    hide Consistent, Runs, Outcome;
    RunsConcat(INITIAL, before, [Loop] + after, false);
    var w := Outcome(INITIAL, before);
    LoopFirst(w, after);
    NeverDrained(Advance(w, Loop), after);
    assert [] + Pended(after) == Pended(after);
  }

  lemma LoopFirst(w: World, after: seq<Step>)
    requires Consistent(w.q) && Runs(w, [Loop] + after, false)
    ensures Enabled(w.q, Loop) && Consistent(Advance(w, Loop).q) && Runs(Advance(w, Loop), after, false)
    ensures Outcome(w, [Loop] + after) == Outcome(Advance(w, Loop), after)
    ensures Advance(w, Loop).q.looping && Advance(w, Loop).q.pending == []
  {
    var steps := [Loop] + after;
    assert steps[0] == Loop && steps[1..] == after;
    assert Enabled(w.q, Loop);
    hide Consistent;
    RunsFirst(w, Loop, after, false);
  }

  /** This happens: a producer that has seen the loop not ready pushes after the loop has looked, and its
      event stays behind while one added later is delivered. */
  lemma StrandingHappens(older: Event, newer: Event)
    ensures Consistent(EMPTY)
    ensures var steps := [Start, Loop, AddPending(older), Save(newer), Push, Pop, Remove];
            && Runs(INITIAL, steps, false)
            && var w := Outcome(INITIAL, steps);
            w.added == [older, newer] && w.gone == [Delivered(newer)] && w.q.pending == [older] && w.q.looping
  {
    hide Consistent, Runs, Outcome;
    var first, last := [Start, Loop, AddPending(older), Save(newer)], [Push, Pop, Remove];
    var w := StrandFirst(older, newer);
    StrandLast(w, older, newer);
    RunsConcat(INITIAL, first, last, false);
    assert first + last == [Start, Loop, AddPending(older), Save(newer), Push, Pop, Remove];
  }

  lemma StrandStart() returns (w: World)
    ensures Consistent(EMPTY) && Runs(INITIAL, [Start, Loop], false) && w == Outcome(INITIAL, [Start, Loop])
    ensures w == World(EMPTY.(ready := true, looping := true), [], []) && Consistent(w.q)
  {
    InitialConsistent();
    hide Consistent, Runs, Outcome;
    var a := Advance(INITIAL, Start);
    StepKeepsConsistent(EMPTY, Start);
    w := Advance(a, Loop);
    StepKeepsConsistent(a.q, Loop);
    NoStep(w, false);
    RunsFirst(a, Loop, [], false);
    RunsFirst(INITIAL, Start, [Loop], false);
    assert [Loop] + [] == [Loop] && [Start] + [Loop] == [Start, Loop];
  }

  lemma StrandAdd(b: World, older: Event, newer: Event) returns (w: World)
    requires b == World(EMPTY.(ready := true, looping := true), [], []) && Consistent(b.q)
    ensures var steps := [AddPending(older), Save(newer)]; Runs(b, steps, false) && w == Outcome(b, steps)
    ensures w == World(Queue(Table(map[0 := newer], []), [], Some(0), None, [older], true, true), [older, newer], [])
    ensures Consistent(w.q)
  {
    hide Consistent, Runs, Outcome;
    var c := Advance(b, AddPending(older));
    StepKeepsConsistent(b.q, AddPending(older));
    w := Advance(c, Save(newer));
    StepKeepsConsistent(c.q, Save(newer));
    NoStep(w, false);
    RunsFirst(c, Save(newer), [], false);
    RunsFirst(b, AddPending(older), [Save(newer)], false);
    assert [Save(newer)] + [] == [Save(newer)];
    assert [AddPending(older)] + [Save(newer)] == [AddPending(older), Save(newer)];
  }

  lemma StrandFirst(older: Event, newer: Event) returns (w: World)
    ensures Consistent(EMPTY)
    ensures var steps := [Start, Loop, AddPending(older), Save(newer)];
            Runs(INITIAL, steps, false) && w == Outcome(INITIAL, steps)
    ensures w == World(Queue(Table(map[0 := newer], []), [], Some(0), None, [older], true, true), [older, newer], [])
  {
    hide Consistent, Runs, Outcome;
    var b := StrandStart();
    w := StrandAdd(b, older, newer);
    RunsConcat(INITIAL, [Start, Loop], [AddPending(older), Save(newer)], false);
    assert [Start, Loop] + [AddPending(older), Save(newer)] == [Start, Loop, AddPending(older), Save(newer)];
  }

  lemma StrandLast(w: World, older: Event, newer: Event)
    requires w == World(Queue(Table(map[0 := newer], []), [], Some(0), None, [older], true, true), [older, newer], [])
    requires Consistent(w.q)
    ensures Runs(w, [Push, Pop, Remove], false)
    ensures var r := Outcome(w, [Push, Pop, Remove]);
            r.added == [older, newer] && r.gone == [Delivered(newer)] && r.q.pending == [older] && r.q.looping
  {
    hide Consistent, Runs, Outcome;
    var a := Advance(w, Push);
    StepKeepsConsistent(w.q, Push);
    var b := Advance(a, Pop);
    StepKeepsConsistent(a.q, Pop);
    IdsAfter(b.q, Remove);
    var c := Advance(b, Remove);
    StepKeepsConsistent(b.q, Remove);
    assert c.gone == [Delivered(newer)];
    NoStep(c, false);
    RunsFirst(b, Remove, [], false);
    RunsFirst(a, Pop, [Remove], false);
    RunsFirst(w, Push, [Pop, Remove], false);
    assert [Remove] + [] == [Remove] && [Pop] + [Remove] == [Pop, Remove];
    assert [Push] + [Pop, Remove] == [Push, Pop, Remove];
  }

  /** Until then no pending event is stranded: the program can go on and save them all. */
  lemma {:induction false} NotYetStranded(w: World) returns (steps: seq<Step>)
    requires Consistent(w.q) && !w.q.looping
    ensures Runs(w, steps, false) && Outcome(w, steps).q.pending == [] && Pended(steps) == []
    decreases |w.q.pending|, if w.q.saving.Some? then 1 else 0, if w.q.ready then 0 else 1
  {
    hide Consistent;
    if w.q.saving.None? && w.q.ready && w.q.pending == [] {
      steps := [];
      NoStep(w, false);
    } else {
      var step := if w.q.saving.Some? then Push else if !w.q.ready then Start else Drain;
      RunsFirst(w, step, [], false);
      var rest := NotYetStranded(Advance(w, step));
      hide Runs, Outcome;
      RunsFirst(w, step, rest, false);
      steps := [step] + rest;
      assert steps[1..] == rest;
    }
  }

  lemma Rotated<T>(a: seq<T>, b: seq<T>, c: seq<T>, d: seq<T>)
    ensures a + (b + c + d) == (a + b) + (c + d)
    ensures (a + (b + d)) + c == (a + b) + (d + c)
  {
  }

  lemma SameAhead<T>(a: seq<T>, b: seq<T>, c: seq<T>)
    ensures a + (b + c) == a + (c + b) <==> b + c == c + b
  {
    if a + (b + c) == a + (c + b) {
      assert b + c == (a + (b + c))[|a|..];
      assert c + b == (a + (c + b))[|a|..];
    }
  }

  lemma {:induction false} RotationEqual<T>(x: T, s: seq<T>)
    ensures [x] + s == s + [x] <==> forall i :: 0 <= i < |s| ==> s[i] == x
  {
    if [x] + s == s + [x] {
      for k := 0 to |s|
        invariant forall i :: 0 <= i < k ==> s[i] == x
      {
        assert ([x] + s)[k] == (s + [x])[k];
      }
    }
  }

  /** Even without quiet, every event added is delivered or discarded once, or still waiting. */
  lemma {:induction false} ExactlyOnce(w: World, steps: seq<Step>)
    requires Consistent(w.q) && Runs(w, steps, false)
    requires multiset(Events(w.gone)) + multiset(Waiting(w.q)) == multiset(w.added)
    ensures var r := Outcome(w, steps);
            multiset(Events(r.gone)) + multiset(Waiting(r.q)) == multiset(r.added)
    decreases |steps|
  {
    hide Consistent, Enabled, Take, Waiting, Events;
    if steps != [] {
      StepKeepsCount(w, steps[0]);
      ExactlyOnce(Advance(w, steps[0]), steps[1..]);
    }
  }

  lemma StepKeepsCount(w: World, step: Step)
    requires Consistent(w.q) && Enabled(w.q, step)
    requires multiset(Events(w.gone)) + multiset(Waiting(w.q)) == multiset(w.added)
    ensures Consistent(Take(w.q, step))
    ensures var r := Advance(w, step);
            multiset(Events(r.gone)) + multiset(Waiting(r.q)) == multiset(r.added)
  {
    StepKeepsConsistent(w.q, step);
    match step
    case Save(event) => SaveKeepsCount(w, event);
    case Drain => DrainWaiting(w.q);
    case Remove => RemoveKeepsCount(w);
    case Adopt => AdoptKeepsCount(w);
    case AddPending(event) => PendingKeepsCount(w, event);
    case _ => SameWaiting(w.q, step);
  }

  lemma SaveKeepsCount(w: World, event: Event)
    requires Consistent(w.q) && Enabled(w.q, Save(event)) && Consistent(Take(w.q, Save(event)))
    requires multiset(Events(w.gone)) + multiset(Waiting(w.q)) == multiset(w.added)
    ensures var r := Advance(w, Save(event));
            multiset(Events(r.gone)) + multiset(Waiting(r.q)) == multiset(r.added)
  {
    SaveWaiting(w.q, event);
    hide Tracks, Ids, Lookup, Live, Events;
  }

  lemma PendingKeepsCount(w: World, event: Event)
    requires Consistent(w.q) && Enabled(w.q, AddPending(event)) && Consistent(Take(w.q, AddPending(event)))
    requires multiset(Events(w.gone)) + multiset(Waiting(w.q)) == multiset(w.added)
    ensures var r := Advance(w, AddPending(event));
            multiset(Events(r.gone)) + multiset(Waiting(r.q)) == multiset(r.added)
  {
    hide Consistent, Tracks, Ids, Lookup, Live, Waiting, Events, Advance, Take, Enabled;
    PendingWaiting(w.q, event);
    AdvanceTakes(w, AddPending(event));
    OneMore(Events(w.gone), Waiting(w.q), w.added, event);
  }

  lemma OneMore<T>(a: seq<T>, b: seq<T>, c: seq<T>, x: T)
    requires multiset(a) + multiset(b) == multiset(c)
    ensures multiset(a) + multiset(b + [x]) == multiset(c + [x])
  {
    Counts(b, [x]);
    Counts(c, [x]);
  }

  lemma RemoveKeepsCount(w: World)
    requires Consistent(w.q) && Enabled(w.q, Remove) && Consistent(Take(w.q, Remove))
    requires multiset(Events(w.gone)) + multiset(Waiting(w.q)) == multiset(w.added)
    ensures var r := Advance(w, Remove);
            multiset(Events(r.gone)) + multiset(Waiting(r.q)) == multiset(r.added)
  {
    RemoveWaiting(w.q);
    hide Tracks, Ids, Lookup, Live, Waiting, Events;
    EventsConcat(w.gone, [Delivered(w.q.table.events[Ids(w.q)[0]])]);
  }

  lemma AdoptKeepsCount(w: World)
    requires Consistent(w.q) && Enabled(w.q, Adopt) && Consistent(Take(w.q, Adopt))
    requires multiset(Events(w.gone)) + multiset(Waiting(w.q)) == multiset(w.added)
    ensures var r := Advance(w, Adopt);
            multiset(Events(r.gone)) + multiset(Waiting(r.q)) == multiset(r.added)
  {
    hide Consistent, Tracks, Waiting, Ids, Lookup, Live, Events, Discards, Advance, Take, Enabled;
    AdoptWaiting(w.q);
    var lost := Lookup(w.q.table, Ids(w.q));
    AdoptGone(w, lost);
    CountsMoved(Events(w.gone), lost, w.q.pending);
  }

  lemma AdoptGone(w: World, lost: seq<Event>)
    requires Consistent(w.q) && Enabled(w.q, Adopt) && lost == Lookup(w.q.table, Ids(w.q))
    ensures var r := Advance(w, Adopt);
            Events(r.gone) == Events(w.gone) + lost && r.added == w.added && r.q == Take(w.q, Adopt)
  {
    hide Tracks, Waiting, Ids, Lookup, Live, Events, Discards;
    EventsConcat(w.gone, Discards(lost));
    DiscardsEvents(lost);
  }

  lemma CountsMoved<T>(a: seq<T>, b: seq<T>, c: seq<T>)
    ensures multiset(a) + multiset(b + c) == multiset(a + b) + multiset(c)
  {
    Counts(a, b);
    Counts(b, c);
  }

  lemma Counts<T>(a: seq<T>, b: seq<T>)
    ensures multiset(a + b) == multiset(a) + multiset(b)
  {
  }

  /** Draining a pending event changes nothing about what waits. */
  lemma Drained(q: Queue)
    requires Consistent(q) && Enabled(q, Drain)
    ensures Enabled(Take(q, Drain), Push)
    ensures var r := Take(Take(q, Drain), Push);
            Consistent(r) && Consistent(q) && Waiting(r) == Waiting(q)
  {
    hide Tracks, Ids, Lookup;
    StepKeepsConsistent(q, Drain);
    DrainWaiting(q);
    StepKeepsConsistent(Take(q, Drain), Push);
    SameWaiting(Take(q, Drain), Push);
  }

  lemma DrainIsSave(q: Queue)
    requires q.ready && !q.looping && q.pending != [] && q.saving.None?
    ensures Enabled(q, Drain) && Enabled(q, Save(q.pending[0])) && Enabled(Take(q, Drain), Push)
    ensures Enabled(Take(q, Save(q.pending[0])), Push)
    ensures Take(Take(q, Save(q.pending[0])), Push).pending == q.pending
    ensures var r := Take(Take(q, Drain), Push);
            r == Take(Take(q, Save(q.pending[0])), Push).(pending := q.pending[1..]) && r.ready && !r.looping
                && r.pending == q.pending[1..]
  {
  }

  /** Popping the oldest id and removing its event takes away the first event that waits. */
  lemma Fetched(q: Queue)
    requires Consistent(q) && q.saving.None? && q.inFlight.None? && q.looping
    ensures Ids(q) == [] <==> q.buffer == []
    ensures q.buffer != [] ==>
              && Enabled(q, Pop) && Enabled(Take(q, Pop), Remove)
              && var id, r := q.buffer[|q.buffer| - 1], Take(Take(q, Pop), Remove);
              && r == q.(table := q.table.Removed(id), buffer := q.buffer[..|q.buffer| - 1])
              && id in q.table.events && Consistent(r) && Live(q.table, Ids(q)) && Live(r.table, Ids(r))
              && Waiting(q) == [q.table.events[id]] + Waiting(r)
  {
    hide Tracks, Lookup;
    if q.buffer != [] {
      var popped := Take(q, Pop);
      IdsAfter(q, Pop);
      StepKeepsConsistent(q, Pop);
      SameWaiting(q, Pop);
      StepKeepsConsistent(popped, Remove);
      IdsAfter(popped, Remove);
      RemoveWaiting(popped);
      AreLive(q);
      AreLive(Take(popped, Remove));
      hide Consistent, Waiting;
    }
  }

  lemma AreLive(q: Queue)
    requires Consistent(q)
    ensures Live(q.table, Ids(q)) && forall i :: 0 <= i < |Ids(q)| ==> Ids(q)[i] in q.table.events
  {
  }

  // ---------- The program's classes ----------

  /** SimpleEventQueueBuffer. */
  class Buffer {
    var queue: seq<nat>
    var queueReady: bool

    predicate Valid()
      reads this
    {
      queueReady <==> queue != []
    }

    constructor ()
      ensures Valid() && queue == []
    {
      queue, queueReady := [], false;
    }

    method AddEvent(dataId: nat) returns (ok: bool)
      requires Valid()
      modifies this
      ensures Valid() && ok && queue == [dataId] + old(queue)
    {
      queue := [dataId] + queue;
      if !queueReady {
        queueReady := true;
      }
      return true;
    }

    method GetEvent() returns (dataId: Option<nat>)
      requires Valid()
      modifies this
      ensures Valid()
      ensures old(queue) == [] ==> dataId.None? && queue == []
      ensures old(queue) != [] ==>
              dataId == Some(old(queue)[|old(queue)| - 1]) && queue == old(queue)[..|old(queue)| - 1]
    {
      if !queueReady {
        return None;
      }
      dataId := Some(queue[|queue| - 1]);
      queue := queue[..|queue| - 1];
      queueReady := queue != [];
    }

    method IsEmpty() returns (empty: bool)
      requires Valid()
      ensures empty <==> queue == []
    {
      return !queueReady;
    }
  }

  /** EventQueue: the methods that move events, each the composition of the steps it stands for. */
  class EventQueue {
    var buffer: Buffer
    var events: map<nat, Event>
    var oldEventIds: seq<nat>
    var pending: seq<Event>
    var ready: bool
    /** Whether `loop` has drained the pending events. */
    ghost var looping: bool

    ghost function State(): Queue
      reads this, buffer
    {
      Queue(Table(events, oldEventIds), buffer.queue, None, None, pending, ready, looping)
    }

    ghost predicate Valid()
      reads this, buffer
    {
      buffer.Valid() && Consistent(State())
    }

    constructor ()
      ensures Valid() && fresh(buffer) && State() == EMPTY
    {
      buffer := new Buffer();
      events, oldEventIds, pending, ready, looping := map[], [], [], false, false;
    }

    method SaveEvent(event: Event) returns (id: nat)
      modifies this
      ensures id == old(Table(events, oldEventIds)).NextId()
      ensures Table(events, oldEventIds) == old(Table(events, oldEventIds)).Saved(event)
      ensures unchanged(`buffer) && unchanged(`pending) && unchanged(`ready) && unchanged(`looping)
    {
      if oldEventIds != [] {
        id := oldEventIds[|oldEventIds| - 1];
        oldEventIds := oldEventIds[..|oldEventIds| - 1];
      } else {
        id := |events|;
      }
      events := events[id := event];
    }

    method RemoveEvent(eventId: nat) returns (event: Option<Event>)
      modifies this
      ensures Table(events, oldEventIds) == old(Table(events, oldEventIds)).Removed(eventId)
      ensures event == if eventId in old(events) then Some(old(events)[eventId]) else None
      ensures unchanged(`buffer) && unchanged(`pending) && unchanged(`ready) && unchanged(`looping)
    {
      if eventId !in events {
        return None;
      }
      event := Some(events[eventId]);
      events := events - {eventId};
      oldEventIds := oldEventIds + [eventId];
    }

    method AddEventToBuffer(event: Event)
      requires Valid() && ready
      modifies this, buffer
      ensures Valid() && unchanged(`buffer)
      ensures State() == Take(Take(old(State()), Save(event)), Push)
    {
      StepKeepsConsistent(State(), Save(event));
      StepKeepsConsistent(Take(State(), Save(event)), Push);
      var eventId := SaveEvent(event);
      // this buffer never refuses an id; `RemoveUndoesSave` is what the program relies on if one did
      var ok := buffer.AddEvent(eventId);
    }

    /** `dispatched` tells that the event was handled on the spot instead of being queued. */
    method AddEvent(event: Event) returns (dispatched: bool)
      requires Valid()
      modifies this, buffer
      ensures Valid() && unchanged(`buffer)
      ensures dispatched <==> event.kind.Other? && event.immediate
      ensures State() == if !event.kind.Other? || event.immediate then old(State())
                         else if !old(ready) then Take(old(State()), AddPending(event))
                         else Take(Take(old(State()), Save(event)), Push)
    {
      match event.kind
      case Unknown => return false;
      case System => return false;
      case Timer => return false;
      case Other(_) =>
        if event.immediate {
          return true;
        } else if !ready {
          StepKeepsConsistent(State(), AddPending(event));
          pending := pending + [event];
          return false;
        } else {
          AddEventToBuffer(event);
          return false;
        }
    }

    /** The start of `loop`: pending events are moved to the buffer, oldest first. */
    method StartLoop()
      requires Valid() && !looping
      modifies this, buffer
      ensures Valid() && unchanged(`buffer)
      ensures ready && looping && pending == [] && Waiting(State()) == old(Waiting(State()))
    {
      hide Ids, Live, Distinct, Covers, Lookup, Take;
      Begin();
      while pending != []
        invariant Valid() && unchanged(`buffer) && ready && !looping
        invariant Waiting(State()) == old(Waiting(State()))
        decreases |pending|
      {
        DrainOne();
      }
      EndDraining();
    }

    /** Nothing is pending at this moment, and from now on `loop` does not look. */
    ghost method EndDraining()
      requires Valid() && ready && !looping && pending == []
      modifies this`looping
      ensures Valid() && looping && State() == Take(old(State()), Loop) && Waiting(State()) == old(Waiting(State()))
    {
      StepKeepsConsistent(State(), Loop);
      SameWaiting(State(), Loop);
      looping := true;
      assert State() == Take(old(State()), Loop);
    }

    method Begin()
      requires Valid()
      modifies this
      ensures Valid() && unchanged(`buffer) && ready && looping == old(looping)
      ensures State() == if old(ready) then old(State()) else Take(old(State()), Start)
      ensures Waiting(State()) == old(Waiting(State()))
    {
      ghost var before := State();
      if !ready {
        StepKeepsConsistent(before, Start);
        SameWaiting(before, Start);
      }
      ready := true;
      assert State() == if old(ready) then before else Take(before, Start);
    }

    method DrainOne()
      requires Valid() && ready && !looping && pending != []
      modifies this, buffer
      ensures Valid() && unchanged(`buffer) && ready && !looping
      ensures State() == Take(Take(old(State()), Drain), Push) && pending == old(pending)[1..]
      ensures Waiting(State()) == old(Waiting(State()))
    {
      hide Consistent, Waiting, Take, Enabled;
      ghost var before := State();
      DrainIsSave(before);
      Drained(before);
      AddEventToBuffer(pending[0]);
      pending := pending[1..];
      assert State() == Take(Take(before, Save(before.pending[0])), Push).(pending := before.pending[1..]);
    }

    /** The part of `processEvent` that fetches a waiting event. */
    method FetchEvent() returns (event: Option<Event>)
      requires Valid() && looping
      modifies this, buffer
      ensures Valid() && unchanged(`buffer)
      ensures old(Ids(State())) == [] ==> event.None? && State() == old(State())
      ensures old(Ids(State())) != [] ==>
                event == Some(old(Waiting(State()))[0]) && Waiting(State()) == old(Waiting(State()))[1..]
    {
      hide Consistent, Waiting, Take, Enabled, Ids;
      ghost var before := State();
      Fetched(before);
      var dataId := buffer.GetEvent();
      if dataId.None? {
        return None;
      }
      event := RemoveEvent(dataId.value);
      assert State() == Take(Take(before, Pop), Remove);
    }

    method AdoptBuffer(newBuffer: Buffer)
      requires Valid() && newBuffer.Valid() && newBuffer.queue == []
      modifies this
      ensures Valid() && buffer == newBuffer
      ensures State() == Take(old(State()), Adopt)
    {
      hide Consistent;
      StepKeepsConsistent(State(), Adopt);
      events := map[];
      oldEventIds := [];
      buffer := newBuffer;
    }
  }
}

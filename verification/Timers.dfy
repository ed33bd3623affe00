/** The timers of the event queue: countdowns in a heap, brought up to date only when they are looked at,
    against a plain table of absolute deadlines.  Time is exact. */
module Timers {
  import opened Basics
  import opened PriorityQueue

  /** The program's stopwatch; `now` stands for the clock it reads. */
  class Stopwatch {
    var mark: real
    var triggered: bool
    var stopped: bool

    function Elapsed(now: real): real
      reads this
    {
      if stopped then mark else now - mark
    }

    /** A triggered stopwatch is stopped until it is first read. */
    predicate Valid()
      reads this
    {
      triggered ==> stopped
    }

    constructor (trigger: bool, now: real)
      ensures Valid() && triggered == stopped == trigger && Elapsed(now) == 0.0
    {
      triggered, stopped := trigger, trigger;
      mark := if trigger then 0.0 else now;
    }

    method Reset(now: real) returns (dt: real)
      modifies this
      ensures dt == old(Elapsed(now)) && Elapsed(now) == 0.0
      ensures triggered == old(triggered) && stopped == old(stopped) && (!stopped ==> mark == now)
    {
      if stopped {
        dt := mark;
        mark := 0.0;
      } else {
        dt := now - mark;
        mark := now;
      }
    }

    method Stop(now: real)
      modifies this
      ensures stopped && triggered == old(triggered) && Elapsed(now) == old(Elapsed(now))
    {
      if stopped {
        return;
      }
      mark := now - mark;
      stopped := true;
    }

    method Start(now: real)
      modifies this
      ensures !stopped && !triggered && Elapsed(now) == old(Elapsed(now))
    {
      triggered := false;
      if !stopped {
        return;
      }
      mark := now - mark;
      stopped := false;
    }

    method SetTrigger(now: real)
      modifies this
      ensures Valid() && stopped && triggered && Elapsed(now) == old(Elapsed(now))
    {
      Stop(now);
      triggered := true;
    }

    /** Reading a triggered stopwatch also starts it. */
    method GetTime(now: real) returns (t: real)
      requires Valid()
      modifies this
      ensures Valid() && t == old(Elapsed(now)) == Elapsed(now)
      ensures !triggered && stopped == (old(stopped) && !old(triggered))
      ensures !old(triggered) ==> mark == old(mark)
    {
      if triggered {
        t := mark;
        Start(now);
      } else if stopped {
        t := mark;
      } else {
        t := now - mark;
      }
    }
  }

  // ---------- The deadline table ----------

  /** A timer seen from outside: `firings` and `total` are how often it has fired and the sum of the counts
      it reported. */
  datatype Entry = Entry(period: real, target: nat, oneShot: bool, deadline: real, created: real, firings: nat,
                         total: int)

  type Model = map<nat, Entry>

  /** The count a timer reports when it fires at `now`. */
  function Count(e: Entry, now: real): int
    requires e.period > 0.0
  {
    ((e.period - (e.deadline - now)) / e.period).Floor
  }

  function Created(model: Model, id: nat, duration: real, target: nat, oneShot: bool, now: real): Model {
    model[id := Entry(duration, target, oneShot, now + duration, now, 0, 0)]
  }

  /** A one-shot timer is gone once it fires; another one is due again a full period from now. */
  function Fired(model: Model, id: nat, now: real): Model
    requires id in model && model[id].period > 0.0
  {
    var e := model[id];
    if e.oneShot then model - {id}
    else model[id := e.(deadline := now + e.period, firings := e.firings + 1, total := e.total + Count(e, now))]
  }

  /** No timer is due earlier than `id`. */
  ghost predicate Earliest(model: Model, id: nat) {
    id in model && forall k :: k in model ==> model[id].deadline <= model[k].deadline
  }

  // ---------- Conservation of counts ----------

  /** The counts reported so far fit the time from creation to the last firing. */
  ghost predicate Conserves(e: Entry) {
    var span := e.deadline - e.period - e.created;
    && e.period > 0.0
    && e.period * (e.total as real) <= span
    && (e.firings == 0 ==> e.total == 0 && span == 0.0)
    && (e.firings > 0 ==> span < e.period * ((e.total + e.firings) as real))
  }

  lemma Scaled(p: real, a: real, b: real)
    requires p > 0.0
    ensures a < b ==> p * a < p * b
    ensures a <= b ==> p * a <= p * b
  {
  }

  /** `n` whole periods fit into the time `x`, and no more. */
  predicate Periods(p: real, x: real, n: int) {
    p * (n as real) <= x < p * (n as real) + p
  }

  lemma Quotient(x: real, p: real) returns (q: real)
    requires p > 0.0
    ensures q == x / p && p * q == x
  {
    q := x / p;
  }

  /** Comparing a quotient is comparing multiples. */
  lemma Compare(p: real, a: real, b: real, pa: real, pb: real)
    requires p > 0.0 && pa == p * a && pb == p * b
    ensures a < b <==> pa < pb
  {
    Scaled(p, a, b);
    Scaled(p, b, a);
  }

  lemma Within(p: real, x: real, q: real, a: real, pa: real)
    requires p > 0.0 && x == p * q && pa == p * a
    ensures q < a <==> x < pa
    ensures q < a + 1.0 <==> x < pa + p
  {
    Compare(p, q, a, x, pa);
    Compare(p, q, a + 1.0, x, pa + p);
  }

  /** There is one such number, the floor of the quotient. */
  lemma PeriodsAreFloor(p: real, x: real, n: int)
    requires p > 0.0
    ensures Periods(p, x, n) <==> n == (x / p).Floor
  {
    var q := Quotient(x, p);
    PeriodsBy(p, x, q, n);
  }

  lemma PeriodsBy(p: real, x: real, q: real, n: int)
    requires p > 0.0 && p * q == x
    ensures Periods(p, x, n) <==> n == q.Floor
  {
    Within(p, x, q, n as real, p * (n as real));
    Floors(q, n);
  }

  lemma Floors(q: real, n: int)
    ensures n == q.Floor <==> n as real <= q < n as real + 1.0
  {
  }

  lemma FloorOfQuotient(x: real, p: real)
    requires p > 0.0
    ensures var n := (x / p).Floor;
            Periods(p, x, n) && (x >= p ==> n >= 1)
  {
    var q := Quotient(x, p);
    PeriodsBy(p, x, q, q.Floor);
    Within(p, x, q, 1.0, p);
  }

  /** At every firing: the count is at least one, and the sum of the counts, in periods, is at most the time
      since creation and short of it by less than one period per firing. */
  lemma FiringConserves(e: Entry, now: real)
    requires Conserves(e) && e.deadline <= now
    ensures var n := Count(e, now);
            && n >= 1
            && e.period * ((e.total + n) as real) <= now - e.created
            && now - e.created < e.period * ((e.total + n + e.firings + 1) as real)
    ensures Conserves(e.(deadline := now + e.period, firings := e.firings + 1, total := e.total + Count(e, now)))
  {
    var p, n, last := e.period, Count(e, now), e.deadline - e.period;
    FloorOfQuotient(e.period - (e.deadline - now), p);
    var t, k, m := e.total as real, e.firings as real, n as real;
    assert (e.total + n) as real == t + m && (e.total + e.firings) as real == t + k;
    assert p * (t + m) == p * t + p * m && p * (t + k) == p * t + p * k;
    assert (e.total + n + e.firings + 1) as real == t + m + k + 1.0;
    assert p * (t + m + k + 1.0) == p * t + p * m + p * k + p;
    if e.firings == 0 {
      assert p * t == 0.0 && p * k == 0.0;
    }
  }

  ghost predicate AllConserve(model: Model) {
    forall id :: id in model ==> Conserves(model[id])
  }

  // ---------- Runs ----------

  datatype Action = New(duration: real, target: nat, oneShot: bool) | Delete(id: nat) | Fire(id: nat)

  datatype Moment = Moment(now: real, action: Action)

  /** The table and the first id not used yet. */
  datatype Book = Book(model: Model, nextId: nat)

  ghost predicate Allowed(b: Book, m: Moment) {
    match m.action
    case New(duration, _, _) => duration > 0.0
    case Delete(id) => true
    case Fire(id) => Earliest(b.model, id) && b.model[id].deadline <= m.now
  }

  function Act(b: Book, m: Moment): Book {
    match m.action
    case New(duration, target, oneShot) =>
      Book(Created(b.model, b.nextId, duration, target, oneShot, m.now), b.nextId + 1)
    case Delete(id) => Book(b.model - {id}, b.nextId)
    case Fire(id) =>
      Book(if id in b.model && b.model[id].period > 0.0 then Fired(b.model, id, m.now) else b.model, b.nextId)
  }

  /** What is created is what was asked for, what is deleted is gone, and firing leaves all other timers, and
      what kind of timer it is, alone. */
  lemma BookForms(b: Book, m: Moment)
    ensures m.action.New? ==>
              var New(duration, target, oneShot) := m.action;
              && Act(b, m) == Book(b.model[b.nextId := Act(b, m).model[b.nextId]], b.nextId + 1)
              && Act(b, m).model[b.nextId] == Entry(duration, target, oneShot, m.now + duration, m.now, 0, 0)
    ensures m.action.Delete? ==> Act(b, m) == Book(b.model - {m.action.id}, b.nextId)
    ensures m.action.Fire? && m.action.id in b.model && b.model[m.action.id].period > 0.0 ==>
              var id, e := m.action.id, b.model[m.action.id];
              && Act(b, m).nextId == b.nextId && Act(b, m).model - {id} == b.model - {id}
              && (id in Act(b, m).model <==> !e.oneShot)
              && (!e.oneShot ==>
                    var e' := Act(b, m).model[id];
                    && e'.period == e.period && e'.target == e.target && !e'.oneShot && e'.created == e.created
                    && e'.deadline == m.now + e.period && e'.firings == e.firings + 1)
  {
  }

  ghost predicate WellKept(b: Book) {
    AllConserve(b.model) && forall id :: id in b.model ==> id < b.nextId
  }

  ghost predicate Run(b: Book, ms: seq<Moment>)
    decreases |ms|
  {
    ms == [] || (Allowed(b, ms[0]) && Run(Act(b, ms[0]), ms[1..]))
  }

  function After(b: Book, ms: seq<Moment>): Book
    decreases |ms|
  {
    if ms == [] then b else After(Act(b, ms[0]), ms[1..])
  }

  lemma ActKeeps(b: Book, m: Moment)
    requires WellKept(b) && Allowed(b, m)
    ensures WellKept(Act(b, m))
  {
    match m.action
    case New(duration, target, oneShot) =>
      assert Conserves(Act(b, m).model[b.nextId]);
    case Delete(id) =>
    case Fire(id) => FiringConserves(b.model[id], m.now);
  }

  /** Counts are conserved in every run. */
  lemma {:induction false} RunKeeps(b: Book, ms: seq<Moment>)
    requires WellKept(b) && Run(b, ms)
    ensures WellKept(After(b, ms))
    decreases |ms|
  {
    hide WellKept, Act;
    if ms != [] {
      ActKeeps(b, ms[0]);
      RunKeeps(Act(b, ms[0]), ms[1..]);
    }
  }

  /** A timer that is no longer in the table never fires again: ids are not reused. */
  lemma {:induction false} GoneForGood(b: Book, ms: seq<Moment>, id: nat, i: nat)
    requires Run(b, ms) && id !in b.model && id < b.nextId && i < |ms|
    ensures ms[i].action != Fire(id)
    decreases |ms|
  {
    if i > 0 {
      GoneForGood(Act(b, ms[0]), ms[1..], id, i - 1);
    }
  }

  /** In every run, a timer does not fire after it was deleted, and a one-shot timer fires at most once. */
  lemma {:induction false} NoFireAfterEnd(b: Book, ms: seq<Moment>, id: nat, i: nat, j: nat)
    requires WellKept(b) && Run(b, ms) && i < j < |ms| && id < After(b, ms[..i]).nextId
    requires ms[i].action == Delete(id) || (ms[i].action == Fire(id) && id in After(b, ms[..i]).model
                                            && After(b, ms[..i]).model[id].oneShot)
    ensures ms[j].action != Fire(id)
    decreases |ms|
  {
    if i == 0 {
      ActKeeps(b, ms[0]);
      GoneForGood(Act(b, ms[0]), ms[1..], id, j - 1);
    } else {
      ActKeeps(b, ms[0]);
      assert ms[..i][1..] == ms[1..][..i - 1];
      NoFireAfterEnd(Act(b, ms[0]), ms[1..], id, i - 1, j - 1);
    }
  }

  // ---------- The countdowns ----------

  /** The heap's element for a timer when the stopwatch was last reset at `mark`: the countdown, less what
      the stopwatch shows, is the deadline less the present time. */
  function TimerOf(id: nat, e: Entry, mark: real): Timer {
    Timer(id, e.period, e.target, e.oneShot, e.deadline - mark)
  }

  /** The heap holds each timer of the table exactly once, with the right countdown, and nothing else. */
  ghost predicate Represents(m: multiset<Timer>, mark: real, model: Model) {
    && (forall id :: id in model ==> m[TimerOf(id, model[id], mark)] == 1)
    && (forall t :: t in m ==> t.id in model && t == TimerOf(t.id, model[t.id], mark))
  }

  lemma RepresentsAdded(m: multiset<Timer>, mark: real, model: Model, id: nat, e: Entry)
    requires Represents(m, mark, model) && id !in model
    ensures Represents(m + multiset{TimerOf(id, e, mark)}, mark, model[id := e])
  {
    var m', model' := m + multiset{TimerOf(id, e, mark)}, model[id := e];
    forall k | k in model'
      ensures m'[TimerOf(k, model'[k], mark)] == 1
    {
      if k == id {
        assert TimerOf(id, e, mark) !in m;
      }
    }
  }

  lemma RepresentsRemoved(m: multiset<Timer>, mark: real, model: Model, id: nat)
    requires Represents(m, mark, model) && id in model
    ensures Represents(m - multiset{TimerOf(id, model[id], mark)}, mark, model - {id})
  {
  }

  function CountedDown(t: Timer, dt: real): Timer {
    t.(time := t.time - dt)
  }

  /** All countdowns reduced by the same amount. */
  function AllDown(c: seq<Timer>, dt: real): (r: seq<Timer>)
    ensures |r| == |c|
    ensures forall i :: 0 <= i < |c| ==> r[i] == CountedDown(c[i], dt)
  {
    if c == [] then [] else [CountedDown(c[0], dt)] + AllDown(c[1..], dt)
  }

  /** Uniform subtraction keeps the heap order. */
  lemma HeapDown(c: seq<Timer>, dt: real)
    requires Heap(c)
    ensures Heap(AllDown(c, dt))
  {
  }

  lemma {:induction false} MultisetDown(c: seq<Timer>, dt: real, t: Timer)
    ensures multiset(AllDown(c, dt))[CountedDown(t, dt)] == multiset(c)[t]
  {
    hide AllDown, CountedDown;
    if c == [] {
      FirstDown(c, dt);
    } else {
      MultisetDown(c[1..], dt, t);
      FirstOfMultiset(c);
      FirstDown(c, dt);
      FirstOfMultiset(AllDown(c, dt));
      DownInjective(t, c[0], dt);
    }
  }

  lemma FirstDown(c: seq<Timer>, dt: real)
    ensures c == [] ==> AllDown(c, dt) == []
    ensures c != [] ==> AllDown(c, dt)[0] == CountedDown(c[0], dt) && AllDown(c, dt)[1..] == AllDown(c[1..], dt)
  {
  }

  lemma DownInjective(a: Timer, b: Timer, dt: real)
    ensures a == b <==> CountedDown(a, dt) == CountedDown(b, dt)
  {
  }

  lemma FirstOfMultiset(c: seq<Timer>)
    requires c != []
    ensures multiset(c) == multiset{c[0]} + multiset(c[1..])
  {
    assert c == [c[0]] + c[1..];
  }

  /** Counting down by what the stopwatch shows and resetting it changes no deadline. */
  lemma RepresentsDown(c: seq<Timer>, mark: real, now: real, model: Model)
    requires Represents(multiset(c), mark, model)
    ensures Represents(multiset(AllDown(c, now - mark)), now, model)
  {
    DownHolds(c, mark, now, model);
    DownHoldsOnly(c, mark, now, model);
  }

  lemma DownHolds(c: seq<Timer>, mark: real, now: real, model: Model)
    requires Represents(multiset(c), mark, model)
    ensures forall id :: id in model ==> multiset(AllDown(c, now - mark))[TimerOf(id, model[id], now)] == 1
  {
    hide AllDown;
    forall id | id in model
      ensures multiset(AllDown(c, now - mark))[TimerOf(id, model[id], now)] == 1
    {
      MultisetDown(c, now - mark, TimerOf(id, model[id], mark));
    }
  }

  lemma DownHoldsOnly(c: seq<Timer>, mark: real, now: real, model: Model)
    requires Represents(multiset(c), mark, model)
    ensures forall t: Timer :: t in multiset(AllDown(c, now - mark)) ==>
              t.id in model && t == TimerOf(t.id, model[t.id], now)
  {
    hide AllDown;
    forall t: Timer | t in multiset(AllDown(c, now - mark))
      ensures t.id in model && t == TimerOf(t.id, model[t.id], now)
    {
      MultisetDown(c, now - mark, CountedDown(t, mark - now));
      assert CountedDown(t, mark - now) in multiset(c);
    }
  }

  // ---------- The event queue's timers ----------

  datatype Expired = Expired(id: nat, target: nat, count: int)

  /** The heap's elements stand for the timers of a well-kept book. */
  ghost predicate Tracks(m: multiset<Timer>, mark: real, b: Book) {
    WellKept(b) && Represents(m, mark, b.model)
  }

  lemma AddTracks(m: multiset<Timer>, mark: real, now: real, b: Book, action: Action)
    requires Tracks(m, mark, b) && action.New? && action.duration > 0.0
    ensures var New(duration, target, oneShot) := action;
            Tracks(m + multiset{Timer(b.nextId, duration, target, oneShot, duration + (now - mark))}, mark,
                   Act(b, Moment(now, action)))
            && Act(b, Moment(now, action)).nextId == b.nextId + 1
  {
    var New(duration, target, oneShot) := action;
    ActKeeps(b, Moment(now, action));
    RepresentsAdded(m, mark, b.model, b.nextId, Entry(duration, target, oneShot, now + duration, now, 0, 0));
  }

  lemma DeleteTracks(m: multiset<Timer>, mark: real, now: real, b: Book, t: Timer)
    requires Tracks(m, mark, b) && t in m
    ensures Tracks(m - multiset{t}, mark, Act(b, Moment(now, Delete(t.id))))
  {
    ActKeeps(b, Moment(now, Delete(t.id)));
    RepresentsRemoved(m, mark, b.model, t.id);
  }

  lemma DeleteNothing(c: seq<Timer>, mark: real, now: real, b: Book, id: nat)
    requires Tracks(multiset(c), mark, b)
    ensures Act(b, Moment(now, Delete(id))) == b || exists j :: 0 <= j < |c| && c[j].id == id
  {
    if id in b.model {
      assert TimerOf(id, b.model[id], mark) in multiset(c);
      var j :| 0 <= j < |c| && c[j] == TimerOf(id, b.model[id], mark);
    } else {
      assert b.model - {id} == b.model;
    }
  }

  lemma DownTracks(c: seq<Timer>, mark: real, now: real, b: Book)
    requires Tracks(multiset(c), mark, b)
    ensures Tracks(multiset(AllDown(c, now - mark)), now, b)
  {
    RepresentsDown(c, mark, now, b.model);
  }

  /** The event of the timer due next, with its target and its count. */
  ghost predicate Reports(b: Book, now: real, x: Expired) {
    && WellKept(b) && Allowed(b, Moment(now, Fire(x.id)))
    && x.target == b.model[x.id].target && x.count == Count(b.model[x.id], now) >= 1
  }

  /** The head of the heap is the timer with the earliest deadline. */
  lemma HeadIsEarliest(c: seq<Timer>, mark: real, b: Book)
    requires c != [] && Heap(c) && Tracks(multiset(c), mark, b)
    ensures Earliest(b.model, c[0].id) && c[0] == TimerOf(c[0].id, b.model[c[0].id], mark)
  {
    assert c[0] in multiset(c);
    forall k | k in b.model
      ensures b.model[c[0].id].deadline <= b.model[k].deadline
    {
      var t := TimerOf(k, b.model[k], mark);
      assert t in multiset(c);
      var i :| 0 <= i < |c| && c[i] == t;
      HeadIsLeast(c, i);
    }
  }

  lemma NoneDue(c: seq<Timer>, now: real, b: Book)
    requires Heap(c) && Tracks(multiset(c), now, b) && (c != [] ==> c[0].time > 0.0)
    ensures forall k :: k in b.model ==> b.model[k].deadline > now
  {
    if c != [] {
      HeadIsEarliest(c, now, b);
    }
    forall k | k in b.model
      ensures b.model[k].deadline > now
    {
      assert TimerOf(k, b.model[k], now) in multiset(c);
    }
  }

  /** Taking the head out, and putting it back with a full period unless it is one-shot, fires it. */
  lemma FireTracks(c: seq<Timer>, now: real, b: Book, count: int)
    requires c != [] && Heap(c) && Tracks(multiset(c), now, b) && c[0].time <= 0.0
    requires c[0].timeout > 0.0 ==> count == ((c[0].timeout - c[0].time) / c[0].timeout).Floor
    ensures var t := c[0];
            var rest := multiset(c) - multiset{t};
            && t.timeout > 0.0
            && Reports(b, now, Expired(t.id, t.target, count))
            && Tracks(if t.oneShot then rest else rest + multiset{t.(time := t.timeout)}, now,
                      Act(b, Moment(now, Fire(t.id))))
  {
    FireReports(c, now, b, count);
    hide Conserves, Count, Heap, Represents, WellKept, Act, TimerOf;
    var t := c[0];
    var fire := Moment(now, Fire(t.id));
    FiredModel(b, t.id, now);
    ActKeeps(b, fire);
    RepresentsRemoved(multiset(c), now, b.model, t.id);
    if !t.oneShot {
      RepresentsAdded(multiset(c) - multiset{t}, now, b.model - {t.id}, t.id, Act(b, fire).model[t.id]);
    }
  }

  lemma FiredModel(b: Book, id: nat, now: real)
    requires id in b.model && b.model[id].period > 0.0
    ensures var e, after := b.model[id], Act(b, Moment(now, Fire(id))).model;
            && TimerOf(id, e, now).oneShot == e.oneShot
            && (e.oneShot ==> after == b.model - {id})
            && (!e.oneShot ==>
                  && id in after && after == (b.model - {id})[id := after[id]]
                  && TimerOf(id, after[id], now) == TimerOf(id, e, now).(time := e.period)
                  && TimerOf(id, e, now).timeout == e.period)
  {
  }

  lemma FireReports(c: seq<Timer>, now: real, b: Book, count: int)
    requires c != [] && Heap(c) && Tracks(multiset(c), now, b) && c[0].time <= 0.0
    requires c[0].timeout > 0.0 ==> count == ((c[0].timeout - c[0].time) / c[0].timeout).Floor
    ensures c[0].timeout > 0.0 && Reports(b, now, Expired(c[0].id, c[0].target, count))
    ensures c[0].id in b.model && c[0] == TimerOf(c[0].id, b.model[c[0].id], now) && b.model[c[0].id].period > 0.0
  {
    HeadIsEarliest(c, now, b);
    hide Heap, Represents;
    FiringConserves(b.model[c[0].id], now);
  }

  class TimerQueue {
    const time: Stopwatch
    const timerQueue: PriorityQueue
    var nextId: nat
    ghost var book: Book

    ghost predicate Valid()
      reads this, time, timerQueue
    {
      && timerQueue.Valid() && !time.stopped && !time.triggered
      && book.nextId == nextId && Tracks(multiset(timerQueue.c), time.mark, book)
    }

    constructor (now: real)
      ensures Valid() && book == Book(map[], 0)
      ensures fresh(time) && fresh(timerQueue)
    {
      time := new Stopwatch(false, now);
      timerQueue := new PriorityQueue();
      nextId, book := 0, Book(map[], 0);
    }

    /** Both kinds of timer; the target defaults to the timer itself. */
    method NewTimer(duration: real, target: Option<nat>, oneShot: bool, now: real) returns (id: nat)
      requires Valid() && duration > 0.0
      modifies this, time, timerQueue
      ensures Valid() && id == old(nextId)
      ensures book == Act(old(book), Moment(now, New(duration, if target.Some? then target.value else id, oneShot)))
    {
      id := AddTimer(duration, if target.Some? then target.value else nextId, oneShot, now);
    }

    method AddTimer(duration: real, target: nat, oneShot: bool, now: real) returns (id: nat)
      requires Valid() && duration > 0.0
      modifies this, time, timerQueue
      ensures Valid() && id == old(nextId)
      ensures book == Act(old(book), Moment(now, New(duration, target, oneShot)))
    {
      hide Tracks, Heap, Act;
      id := nextId;
      ghost var action := New(duration, target, oneShot);
      AddTracks(multiset(timerQueue.c), time.mark, now, book, action);
      var elapsed := time.GetTime(now);
      timerQueue.Push(Timer(id, duration, target, oneShot, duration + elapsed));
      nextId := nextId + 1;
      book := Act(book, Moment(now, action));
    }

    method DeleteTimer(id: nat, ghost now: real)
      requires Valid()
      modifies this, timerQueue
      ensures Valid()
      ensures book == Act(old(book), Moment(now, Delete(id)))
    {
      hide Tracks, Heap;
      var i := 0;
      while i < |timerQueue.c| && timerQueue.c[i].id != id
        invariant 0 <= i <= |timerQueue.c|
        invariant forall j :: 0 <= j < i ==> timerQueue.c[j].id != id
      {
        i := i + 1;
      }
      if i < |timerQueue.c| {
        assert timerQueue.c[i] in multiset(timerQueue.c);
        DeleteTracks(multiset(timerQueue.c), time.mark, now, book, timerQueue.c[i]);
        timerQueue.Erase(i);
      } else {
        DeleteNothing(timerQueue.c, time.mark, now, book, id);
      }
      book := Act(book, Moment(now, Delete(id)));
    }

    /** Counts every timer down by what the stopwatch shows, which starts again from zero. */
    method CountDown(now: real)
      requires Valid()
      modifies time, timerQueue
      ensures Valid() && time.mark == now && timerQueue.c == AllDown(old(timerQueue.c), now - old(time.mark))
    {
      hide Tracks, Heap, AllDown;
      var elapsed := time.GetTime(now);
      var discarded := time.Reset(now);
      ghost var before := timerQueue.c;
      var i := 0;
      while i < |timerQueue.c|
        invariant 0 <= i <= |timerQueue.c| == |before|
        invariant time.mark == now && !time.stopped && !time.triggered
        invariant forall j :: 0 <= j < i ==> timerQueue.c[j] == CountedDown(before[j], elapsed)
        invariant forall j :: i <= j < |before| ==> timerQueue.c[j] == before[j]
      {
        timerQueue.c := timerQueue.c[i := timerQueue.c[i].(time := timerQueue.c[i].time - elapsed)];
        i := i + 1;
      }
      assert timerQueue.c == AllDown(before, elapsed);
      HeapDown(before, elapsed);
      DownTracks(before, old(time.mark), now, book);
    }

    /** Fires the timer with the earliest deadline if that deadline has passed; reading and resetting the
        stopwatch happen at one instant. */
    method HasTimerExpired(now: real) returns (expired: Option<Expired>)
      requires Valid()
      modifies this, time, timerQueue
      ensures Valid()
      ensures expired.None? ==> book == old(book) && forall k :: k in book.model ==> book.model[k].deadline > now
      ensures expired.Some? ==>
                && Reports(old(book), now, expired.value)
                && book == Act(old(book), Moment(now, Fire(expired.value.id)))
    {
      hide Tracks, Heap, Reports, Act;
      if timerQueue.c == [] {
        DownTracks([], time.mark, now, book);
        NoneDue([], now, book);
        return None;
      }
      CountDown(now);
      if timerQueue.Top().time > 0.0 {
        NoneDue(timerQueue.c, now, book);
        return None;
      }
      expired := FireHead(now);
    }

    method FireHead(now: real) returns (expired: Option<Expired>)
      requires Valid() && time.mark == now && timerQueue.c != [] && timerQueue.c[0].time <= 0.0
      modifies this, timerQueue
      ensures Valid()
      ensures expired.Some? && Reports(old(book), now, expired.value)
      ensures book == Act(old(book), Moment(now, Fire(expired.value.id)))
    {
      hide Tracks, Heap, Reports, Act;
      var timer := timerQueue.Top();
      ghost var fire := Moment(now, Fire(timer.id));
      TimeoutPositive(timerQueue.c, now, book);
      var count := FillEvent(timer);
      PeriodsAreFloor(timer.timeout, timer.timeout - timer.time, count);
      FireTracks(timerQueue.c, now, book, count);
      timerQueue.Pop();
      expired := Some(Expired(timer.id, timer.target, count));
      timer := timer.(time := timer.timeout);
      if !timer.oneShot {
        timerQueue.Push(timer);
      }
      book := Act(book, fire);
      ActKeepsIds(old(book), fire);
    }

    /** How many periods have passed since the timer was last set; at least one if it is due. */
    static method FillEvent(timer: Timer) returns (count: int)
      requires timer.timeout > 0.0
      ensures timer.time > 0.0 ==> count == 0
      ensures timer.time <= 0.0 ==> count >= 1 && Periods(timer.timeout, timer.timeout - timer.time, count)
    {
      count := 0;
      if timer.time <= 0.0 {
        count := ((timer.timeout - timer.time) / timer.timeout).Floor;
        FloorOfQuotient(timer.timeout - timer.time, timer.timeout);
      }
    }

    /** How long to wait, from the last reset of the stopwatch, for the earliest deadline. */
    method GetNextTimerTimeout() returns (timeout: real)
      requires Valid()
      ensures book.model == map[] ==> timeout == -1.0
      ensures book.model != map[] ==>
                exists k :: (&& Earliest(book.model, k)
                             && timeout == if book.model[k].deadline <= time.mark then 0.0
                                           else book.model[k].deadline - time.mark)
    {
      if timerQueue.c == [] {
        NobodyWaiting(multiset(timerQueue.c), time.mark, book);
        return -1.0;
      }
      HeadIsEarliest(timerQueue.c, time.mark, book);
      hide Tracks, Heap, Earliest;
      if timerQueue.Top().time <= 0.0 {
        return 0.0;
      }
      return timerQueue.Top().time;
    }
  }

  lemma NobodyWaiting(m: multiset<Timer>, mark: real, b: Book)
    requires Tracks(m, mark, b)
    ensures b.model != map[] ==> m != multiset{}
  {
    if b.model != map[] {
      var id :| id in b.model;
      assert TimerOf(id, b.model[id], mark) in m;
    }
  }

  lemma TimeoutPositive(c: seq<Timer>, now: real, b: Book)
    requires c != [] && Tracks(multiset(c), now, b)
    ensures c[0].timeout > 0.0
  {
    assert c[0] in multiset(c);
    assert Conserves(b.model[c[0].id]);
  }

  lemma ActKeepsIds(b: Book, m: Moment)
    requires !m.action.New?
    ensures Act(b, m).nextId == b.nextId
  {
  }
}

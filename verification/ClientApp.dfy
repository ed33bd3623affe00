/** Which server and which of its addresses the client tries next, and how long it waits. */
module ClientApp {
  import opened Basics

  const WIDTH: nat := 0x1_0000_0000

  /** Server and address to try, failed rounds so far (32 bits), and how many addresses the last name that
      could be resolved had. */
  datatype Position = Position(server: nat, address: nat, retries: nat, resolved: nat)

  /** For each server, how many addresses its name resolves to; `None` if it cannot be resolved. */
  type Counts = c: seq<Option<nat>> | c != [] && forall i :: 0 <= i < |c| ==> c[i] != Some(0)
    witness [None]

  /** Resolving a name that cannot be resolved leaves the count of an earlier attempt in place. */
  function Resolved(count: Option<nat>, before: nat): nat {
    if count.Some? then count.value else before
  }

  function NextServer(server: nat, servers: nat): nat
    requires servers > 0
  {
    if servers > 1 then (server + 1) % servers else server
  }

  /** After a failed attempt: the next address; else the next server; a full round counts as a refusal. */
  function AfterFailure(s: Position, servers: nat): Position
    requires servers > 0
  {
    if s.address + 1 < s.resolved then s.(address := s.address + 1)
    else
      var next := NextServer(s.server, servers);
      s.(address := 0, server := next, retries := if next == 0 then (s.retries + 1) % WIDTH else s.retries)
  }

  /** From this many failed rounds on, wait this many seconds. */
  datatype Since = Since(retries: nat, seconds: nat)

  const STEPS := [Since(0, 1), Since(300, 5), Since(360, 10), Since(390, 30), Since(410, 60), Since(420, 120),
                  Since(430, 300)]

  /** The last of the first `k + 1` steps that has been reached. */
  function Reached(retries: nat, k: nat): (r: nat)
    requires k < |STEPS|
    ensures r <= k && STEPS[r].retries <= retries
    ensures forall i :: r < i <= k ==> retries < STEPS[i].retries
  {
    if k == 0 || STEPS[k].retries <= retries then k else Reached(retries, k - 1)
  }

  /** Seconds until the next attempt; `dynamic` is the setting that lets the delay grow. */
  function Delay(retries: nat, dynamic: bool): nat {
    if dynamic then STEPS[Reached(retries, |STEPS| - 1)].seconds else 1
  }

  lemma StepsRise()
    ensures |STEPS| > 0
    ensures forall i, j :: 0 <= i < j < |STEPS| ==> STEPS[i].retries < STEPS[j].retries
    ensures forall i, j :: 0 <= i <= j < |STEPS| ==> 1 <= STEPS[i].seconds <= STEPS[j].seconds <= 300
  {
  }

  lemma DelayAt(retries: nat, k: nat)
    requires k < |STEPS| && STEPS[k].retries <= retries && (k + 1 < |STEPS| ==> retries < STEPS[k + 1].retries)
    ensures Delay(retries, true) == STEPS[k].seconds
  {
    StepsRise();
    hide STEPS;
    assert Reached(retries, |STEPS| - 1) == k;
  }

  /** The delay in seconds, by failed rounds. */
  lemma DelayForms(retries: nat)
    ensures Delay(retries, false) == 1
    ensures retries < 300 ==> Delay(retries, true) == 1
    ensures 300 <= retries < 360 ==> Delay(retries, true) == 5
    ensures 360 <= retries < 390 ==> Delay(retries, true) == 10
    ensures 390 <= retries < 410 ==> Delay(retries, true) == 30
    ensures 410 <= retries < 420 ==> Delay(retries, true) == 60
    ensures 420 <= retries < 430 ==> Delay(retries, true) == 120
    ensures 430 <= retries ==> Delay(retries, true) == 300
  {
    var k := if retries < 300 then 0 else if retries < 360 then 1 else if retries < 390 then 2
             else if retries < 410 then 3 else if retries < 420 then 4 else if retries < 430 then 5 else 6;
    DelayAt(retries, k);
  }

  /** The more rounds have failed, the longer is the delay. */
  lemma DelayMonotone(a: nat, b: nat, dynamic: bool)
    requires a <= b
    ensures 1 <= Delay(a, dynamic) <= Delay(b, dynamic) <= 300
  {
    if dynamic {
      StepsRise();
      hide STEPS;
      assert Reached(a, |STEPS| - 1) <= Reached(b, |STEPS| - 1);
    }
  }

  class ClientApp {
    const servers: nat
    const dynamic: bool
    var currentServerIndex: nat
    var lastServerAddressIndex: nat
    var retryCount: nat
    var suspended: bool
    /** How many addresses the client says its last resolved name had. */
    var resolvedAddresses: nat
    var attempts: seq<(nat, nat)>
    /** The delays of the restarts scheduled so far. */
    var delays: seq<nat>
    var quit: bool

    ghost function State(): Position
      reads this
    {
      Position(currentServerIndex, lastServerAddressIndex, retryCount, resolvedAddresses)
    }

    ghost predicate Valid()
      reads this
    {
      currentServerIndex < servers
    }

    constructor (servers: nat, dynamic: bool)
      requires servers > 0
      ensures Valid() && this.servers == servers && this.dynamic == dynamic
      ensures State() == Position(0, 0, 0, 0) && !suspended && attempts == [] && delays == [] && !quit
    {
      this.servers, this.dynamic := servers, dynamic;
      currentServerIndex, lastServerAddressIndex, retryCount, resolvedAddresses := 0, 0, 0, 0;
      suspended, attempts, delays, quit := false, [], [], false;
    }

    /** One of seven steps: between a second and five minutes, and never shorter than after fewer rounds. */
    method RetryTime() returns (seconds: nat)
      ensures seconds == Delay(retryCount, dynamic) && 1 <= seconds <= 300
      ensures forall fewer: nat | fewer <= retryCount :: Delay(fewer, dynamic) <= seconds
    {
      hide Delay;
      forall fewer: nat | fewer <= retryCount ensures 1 <= Delay(fewer, dynamic) <= Delay(retryCount, dynamic) <= 300 {
        DelayMonotone(fewer, retryCount, dynamic);
      }
      DelayWraps(dynamic, retryCount);
      if !dynamic {
        return 1;
      }
      if retryCount < 300 {
        DelayAt(retryCount, 0);
        return 1;
      }
      if retryCount < 360 {
        DelayAt(retryCount, 1);
        return 5;
      }
      if retryCount < 390 {
        DelayAt(retryCount, 2);
        return 10;
      }
      if retryCount < 410 {
        DelayAt(retryCount, 3);
        return 30;
      }
      if retryCount < 420 {
        DelayAt(retryCount, 4);
        return 60;
      }
      if retryCount < 430 {
        DelayAt(retryCount, 5);
        return 120;
      }
      DelayAt(retryCount, 6);
      return 300;
    }

    method ScheduleClientRestart()
      modifies this`delays
      ensures delays == old(delays) + [Delay(retryCount, dynamic)]
    {
      var seconds := RetryTime();
      delays := delays + [seconds];
    }

    method StartClient(count: Option<nat>)
      requires Valid()
      modifies this`attempts, this`resolvedAddresses
      ensures attempts == old(attempts) + [(currentServerIndex, lastServerAddressIndex)]
      ensures State() == old(State()).(resolved := Resolved(count, old(resolvedAddresses)))
    {
      attempts := attempts + [(currentServerIndex, lastServerAddressIndex)];
      if count.Some? {
        resolvedAddresses := count.value;
      }
    }

    method TryNextServer()
      requires Valid()
      modifies this`currentServerIndex
      ensures Valid() && currentServerIndex == NextServer(old(currentServerIndex), servers)
    {
      if servers > 1 {
        currentServerIndex := (currentServerIndex + 1) % servers;
      }
    }

    method HandleClientRefused(retry: bool)
      requires Valid()
      modifies this`delays, this`retryCount, this`quit
      ensures Valid()
      ensures quit == (old(quit) || !retry)
      ensures delays == old(delays) + (if retry && !suspended then [Delay(old(retryCount), dynamic)] else [])
      ensures retryCount == if retry && !suspended then (old(retryCount) + 1) % WIDTH else old(retryCount)
    {
      if !retry {
        quit := true;
      } else if !suspended {
        ScheduleClientRestart();
        retryCount := (retryCount + 1) % WIDTH;
      }
    }

    /** A failed attempt that may be repeated, as all failures the client reports are. */
    method HandleClientFailed()
      requires Valid() && !suspended
      modifies this`currentServerIndex, this`lastServerAddressIndex, this`delays, this`retryCount, this`quit
      ensures Valid() && quit == old(quit)
      ensures State() == AfterFailure(old(State()), servers)
      ensures delays == old(delays) + [Delay(old(retryCount), dynamic)]
    {
      lastServerAddressIndex := lastServerAddressIndex + 1;
      if lastServerAddressIndex < resolvedAddresses {
        ScheduleClientRestart();
      } else {
        lastServerAddressIndex := 0;
        TryNextServer();
        if currentServerIndex == 0 {
          HandleClientRefused(true);
        } else {
          ScheduleClientRestart();
        }
      }
    }

    method HandleClientConnected()
      requires Valid()
      modifies this`currentServerIndex, this`lastServerAddressIndex
      ensures Valid() && State() == old(State()).(server := 0, address := 0)
    {
      currentServerIndex := 0;
      lastServerAddressIndex := 0;
    }

    method HandleClientDisconnected()
      requires Valid()
      modifies this`retryCount, this`delays
      ensures Valid() && State() == old(State()).(retries := 0)
      ensures delays == old(delays) + (if suspended then [] else [1])
    {
      retryCount := 0;
      if !suspended {
        ScheduleClientRestart();
      }
    }

    /** The restarts of the event loop, when all of the next `n` attempts fail. */
    method FailAlong(counts: Counts, n: nat)
      requires Valid() && !suspended && |counts| == servers
      modifies this
      ensures Valid() && !suspended
      ensures State() == Run(old(State()), counts, n)
      ensures attempts == old(attempts) + Tried(old(State()), counts, n)
    {
      ghost var start := State();
      var i := 0;
      while i < n
        invariant 0 <= i <= n && Valid() && !suspended
        invariant Run(State(), counts, n - i) == Run(start, counts, n)
        invariant attempts + Tried(State(), counts, n - i) == old(attempts) + Tried(start, counts, n)
        modifies this
      {
        ghost var s := State();
        Associate(attempts, [(s.server, s.address)], Tried(Step(s, counts), counts, n - i - 1));
        StartClient(counts[currentServerIndex]);
        HandleClientFailed();
        i := i + 1;
      }
    }
  }

  // ---------- Runs of failures ----------

  /** One attempt, which fails. */
  function Step(s: Position, counts: Counts): (s': Position)
    requires s.server < |counts|
    ensures s'.server < |counts|
  {
    AfterFailure(s.(resolved := Resolved(counts[s.server], s.resolved)), |counts|)
  }

  function Run(s: Position, counts: Counts, n: nat): (s': Position)
    requires s.server < |counts|
    ensures s'.server < |counts|
    decreases n
  {
    if n == 0 then s else Run(Step(s, counts), counts, n - 1)
  }

  /** The servers and addresses that are tried. */
  function Tried(s: Position, counts: Counts, n: nat): (r: seq<(nat, nat)>)
    requires s.server < |counts|
    ensures |r| == n
    decreases n
  {
    if n == 0 then [] else [(s.server, s.address)] + Tried(Step(s, counts), counts, n - 1)
  }

  lemma {:induction false} RunOn(s: Position, counts: Counts, a: nat, b: nat)
    requires s.server < |counts|
    ensures Run(s, counts, a + b) == Run(Run(s, counts, a), counts, b)
    ensures Tried(s, counts, a + b) == Tried(s, counts, a) + Tried(Run(s, counts, a), counts, b)
    decreases a
  {
    hide Step;
    if a > 0 {
      RunOn(Step(s, counts), counts, a - 1, b);
      assert a + b - 1 == a - 1 + b;
      Associate([(s.server, s.address)], Tried(Step(s, counts), counts, a - 1), Tried(Run(s, counts, a), counts, b));
    }
  }

  // ---------- The order of a round ----------

  /** How often a server is tried: once for each address, but at least once. */
  function Tries(resolved: nat): (n: nat)
    ensures n > 0
  {
    if resolved == 0 then 1 else resolved
  }

  function Row(server: nat, from: nat, to: nat): (r: seq<(nat, nat)>)
    requires from <= to
    ensures |r| == to - from && forall k :: 0 <= k < |r| ==> r[k] == (server, from + k)
  {
    seq(to - from, k => (server, from + k))
  }

  /** The rest of a round from a server on. */
  function Round(counts: Counts, server: nat, resolved: nat): seq<(nat, nat)>
    requires server <= |counts|
    decreases |counts| - server
  {
    if server == |counts| then []
    else
      var now := Resolved(counts[server], resolved);
      Row(server, 0, Tries(now)) + Round(counts, server + 1, now)
  }

  /** The state at the start of a server's row; after the last server comes the first, one round later. */
  function At(counts: Counts, server: nat, retries: nat, resolved: nat): Position {
    if server == |counts| then Position(0, 0, (retries + 1) % WIDTH, resolved)
    else Position(server, 0, retries, resolved)
  }

  lemma {:induction false} RowIsTried(s: Position, counts: Counts)
    requires s.server < |counts| && s.address < Tries(Resolved(counts[s.server], s.resolved))
    ensures var now := Resolved(counts[s.server], s.resolved);
            var n := Tries(now) - s.address;
            && Tried(s, counts, n) == Row(s.server, s.address, Tries(now))
            && Run(s, counts, n) == At(counts, s.server + 1, s.retries, now)
    decreases Tries(Resolved(counts[s.server], s.resolved)) - s.address
  {
    var now := Resolved(counts[s.server], s.resolved);
    var n := Tries(now) - s.address;
    if n == 1 {
      RowEnds(s, counts);
    } else {
      var s' := Step(s, counts);
      assert s' == s.(address := s.address + 1, resolved := now);
      RowIsTried(s', counts);
      hide Step;
      assert Row(s.server, s.address, Tries(now)) == [(s.server, s.address)] + Row(s.server, s.address + 1, Tries(now));
    }
  }

  lemma RowEnds(s: Position, counts: Counts)
    requires s.server < |counts| && s.address + 1 == Tries(Resolved(counts[s.server], s.resolved))
    ensures var now := Resolved(counts[s.server], s.resolved);
            && Tried(s, counts, 1) == Row(s.server, s.address, Tries(now))
            && Run(s, counts, 1) == At(counts, s.server + 1, s.retries, now)
  {
    var now := Resolved(counts[s.server], s.resolved);
    assert Tried(s, counts, 1) == [(s.server, s.address)];
    NextInOrder(s.server, |counts|);
    assert Run(s, counts, 1) == Step(s, counts);
  }

  lemma NextInOrder(server: nat, servers: nat)
    requires server < servers
    ensures NextServer(server, servers) == if server + 1 == servers then 0 else server + 1
  {
    if server + 1 < servers {
      assert (server + 1) % servers == server + 1;
    }
  }

  lemma {:induction false} RoundIsTried(counts: Counts, server: nat, retries: nat, resolved: nat)
    requires server < |counts|
    ensures var n := |Round(counts, server, resolved)|;
            var s := Position(server, 0, retries, resolved);
            && Tried(s, counts, n) == Round(counts, server, resolved)
            && Run(s, counts, n) == Position(0, 0, (retries + 1) % WIDTH, After(counts, server, resolved, |counts|))
    decreases |counts| - server
  {
    var s := Position(server, 0, retries, resolved);
    var now := Resolved(counts[server], resolved);
    RowIsTried(s, counts);
    if server + 1 < |counts| {
      RoundIsTried(counts, server + 1, retries, now);
      RunOn(s, counts, Tries(now), |Round(counts, server + 1, now)|);
    } else {
      assert Round(counts, server + 1, now) == [];
      assert Row(server, 0, Tries(now)) + [] == Row(server, 0, Tries(now));
    }
    hide Run, Tried, Step;
  }

  /** The count that is left after the servers from one up to another. */
  function After(counts: Counts, from: nat, resolved: nat, end: nat): nat
    requires from <= end && end <= |counts|
    decreases end - from
  {
    if from == end then resolved else After(counts, from + 1, Resolved(counts[from], resolved), end)
  }

  /** In a round every server has its turn, and of each just the addresses that count for it. */
  lemma {:induction false} RoundHas(counts: Counts, from: nat, resolved: nat, i: nat, k: nat)
    requires from <= |counts|
    ensures (i, k) in Round(counts, from, resolved)
       <==> from <= i < |counts| && k < Tries(After(counts, from, resolved, i + 1))
    decreases |counts| - from
  {
    hide Tries;
    if from < |counts| {
      var now := Resolved(counts[from], resolved);
      RoundHas(counts, from + 1, now, i, k);
      var row := Row(from, 0, Tries(now));
      assert i == from && k < Tries(now) ==> row[k] == (i, k);
      if i == from {
        assert After(counts, from, resolved, i + 1) == now;
      }
    }
  }

  predicate Before(a: (nat, nat), b: (nat, nat)) {
    a.0 < b.0 || (a.0 == b.0 && a.1 < b.1)
  }

  /** A round goes through servers and addresses in order, without trying one twice. */
  lemma {:induction false} RoundInOrder(counts: Counts, from: nat, resolved: nat, x: nat, y: nat)
    requires from <= |counts| && x < y < |Round(counts, from, resolved)|
    ensures Before(Round(counts, from, resolved)[x], Round(counts, from, resolved)[y])
    decreases |counts| - from
  {
    hide Tries;
    var now := Resolved(counts[from], resolved);
    var row, rest := Row(from, 0, Tries(now)), Round(counts, from + 1, now);
    assert Round(counts, from, resolved) == row + rest;
    if x >= |row| {
      RoundInOrder(counts, from + 1, now, x - |row|, y - |row|);
    } else if y >= |row| {
      var (i, k) := rest[y - |row|];
      RoundHas(counts, from + 1, now, i, k);
      hide Round;
    }
  }

  function Rounds(counts: Counts, resolved: nat, m: nat): seq<(nat, nat)>
    decreases m
  {
    if m == 0 then [] else Round(counts, 0, resolved) + Rounds(counts, After(counts, 0, resolved, |counts|), m - 1)
  }

  /** As long as everything fails, round follows round, and the retry counter rises by one for each, in its
      32 bits. */
  lemma {:induction false} RoundsAreTried(counts: Counts, retries: nat, resolved: nat, m: nat)
    requires retries < WIDTH
    ensures var n := |Rounds(counts, resolved, m)|;
            var s := Position(0, 0, retries, resolved);
            && Tried(s, counts, n) == Rounds(counts, resolved, m)
            && Run(s, counts, n).(resolved := 0) == Position(0, 0, (retries + m) % WIDTH, 0)
    decreases m
  {
    hide Step, Round, After;
    if m > 0 {
      var s, r := Position(0, 0, retries, resolved), After(counts, 0, resolved, |counts|);
      RoundIsTried(counts, 0, retries, resolved);
      RoundsAreTried(counts, (retries + 1) % WIDTH, r, m - 1);
      CountOn(retries, m);
      RunOn(s, counts, |Round(counts, 0, resolved)|, |Rounds(counts, r, m - 1)|);
      hide Run, Tried;
    }
  }

  lemma CountOn(retries: nat, m: nat)
    requires m > 0
    ensures ((retries + 1) % WIDTH + (m - 1)) % WIDTH == (retries + m) % WIDTH
  {
  }

  lemma {:induction false} AfterTwice(counts: Counts, from: nat, r: nat, r': nat)
    requires from < |counts| && r' == After(counts, from, r, |counts|)
    ensures r' == r || After(counts, from, r', |counts|) == r'
    decreases |counts| - from
  {
    var now := Resolved(counts[from], r);
    if from + 1 < |counts| && now == r {
      AfterTwice(counts, from + 1, r, r');
    } else if counts[from].Some? {
      assert Resolved(counts[from], r') == now;
    }
  }

  /** From the second round on all rounds are the same, and the first one too if every name can be resolved. */
  lemma RoundsRepeat(counts: Counts, resolved: nat, other: nat)
    ensures var r := After(counts, 0, resolved, |counts|);
            Round(counts, 0, After(counts, 0, r, |counts|)) == Round(counts, 0, r)
    ensures (forall i :: 0 <= i < |counts| ==> counts[i].Some?) ==>
              Round(counts, 0, resolved) == Round(counts, 0, other)
  {
    AfterTwice(counts, 0, resolved, After(counts, 0, resolved, |counts|));
  }

  /** Within a round the retry counter stands still. */
  lemma {:induction false} RetriesStand(s: Position, counts: Counts, n: nat)
    requires s.server < |counts| && s.address < Tries(Resolved(counts[s.server], s.resolved))
    requires s.address + n < |Round(counts, s.server, s.resolved)|
    ensures Run(s, counts, n).retries == s.retries
    decreases n
  {
    var now := Resolved(counts[s.server], s.resolved);
    if n > 0 {
      NextInOrder(s.server, |counts|);
      var s' := Step(s, counts);
      if s.address + 1 < Tries(now) {
        assert s' == s.(address := s.address + 1, resolved := now);
        assert Round(counts, s.server, now) == Round(counts, s.server, s.resolved);
      } else {
        assert s.server + 1 < |counts|;
        assert s' == Position(s.server + 1, 0, s.retries, now);
      }
      RetriesStand(s', counts, n - 1);
    }
  }

  /** The delay never shrinks from one attempt to the next, except when the 32-bit counter starts over. */
  lemma DelayNeverShrinks(s: Position, counts: Counts, dynamic: bool)
    requires s.server < |counts| && s.retries < WIDTH
    ensures Delay(Step(s, counts).retries, dynamic) < Delay(s.retries, dynamic)
       <==> dynamic && s.retries == WIDTH - 1 && Step(s, counts).retries == 0
  {
    var after := Step(s, counts).retries;
    hide Delay;
    if after >= s.retries {
      DelayMonotone(s.retries, after, dynamic);
    } else {
      DelayWraps(dynamic, 0);
    }
  }

  lemma DelayWraps(dynamic: bool, retries: nat)
    ensures Delay(0, dynamic) == 1 && Delay(WIDTH - 1, dynamic) == if dynamic then 300 else 1
    ensures !dynamic ==> Delay(retries, dynamic) == 1
  {
    DelayAt(0, 0);
    DelayAt(WIDTH - 1, 6);
  }

  /** The counter does not start over in these attempts. */
  predicate NeverStartsOver(s: Position, counts: Counts, n: nat)
    requires s.server < |counts|
    decreases n
  {
    n == 0 || (s.retries <= Step(s, counts).retries && NeverStartsOver(Step(s, counts), counts, n - 1))
  }

  /** From attempt to attempt the delay does not shrink. */
  predicate NeverShrinks(s: Position, counts: Counts, n: nat, dynamic: bool)
    requires s.server < |counts|
    decreases n
  {
    n == 0
    || (&& Delay(s.retries, dynamic) <= Delay(Step(s, counts).retries, dynamic)
        && NeverShrinks(Step(s, counts), counts, n - 1, dynamic))
  }

  /** In a run of failures the delay never shrinks exactly if the counter does not start over, or does not
      matter. */
  lemma {:induction false} DelayGrowsExactly(s: Position, counts: Counts, n: nat, dynamic: bool)
    requires s.server < |counts| && s.retries < WIDTH
    ensures NeverShrinks(s, counts, n, dynamic) <==> !dynamic || NeverStartsOver(s, counts, n)
    decreases n
  {
    if n > 0 {
      DelayNeverShrinks(s, counts, dynamic);
      StepRises(s, counts);
      hide Delay, Step;
      DelayGrowsExactly(Step(s, counts), counts, n - 1, dynamic);
    }
  }

  lemma StepRises(s: Position, counts: Counts)
    requires s.server < |counts| && s.retries < WIDTH
    ensures var after := Step(s, counts).retries;
            after < WIDTH && (after == s.retries || after == s.retries + 1 || (s.retries == WIDTH - 1 && after == 0))
  {
  }

  lemma {:induction false} DelayGrows(s: Position, counts: Counts, n: nat, dynamic: bool)
    requires s.server < |counts| && s.retries < WIDTH && NeverStartsOver(s, counts, n)
    ensures Delay(s.retries, dynamic) <= Delay(Run(s, counts, n).retries, dynamic)
    ensures s.retries <= Run(s, counts, n).retries <= s.retries + n && Run(s, counts, n).retries < WIDTH
    decreases n
  {
    if n > 0 {
      StepRises(s, counts);
      DelayMonotone(s.retries, Step(s, counts).retries, dynamic);
      hide Delay, Step;
      DelayGrows(Step(s, counts), counts, n - 1, dynamic);
    }
  }

  /** The counter has room for a round as long as it is not at its end. */
  lemma {:induction false} RoundHasRoom(s: Position, counts: Counts, n: nat)
    requires s.server < |counts| && s.address < Tries(Resolved(counts[s.server], s.resolved))
    requires s.address + n <= |Round(counts, s.server, s.resolved)| && s.retries + 1 < WIDTH
    ensures NeverStartsOver(s, counts, n)
    decreases n
  {
    if n > 0 {
      StepRises(s, counts);
      var s', now := Step(s, counts), Resolved(counts[s.server], s.resolved);
      NextInOrder(s.server, |counts|);
      if s.address + 1 < Tries(now) {
        assert s' == s.(address := s.address + 1, resolved := now);
        assert Round(counts, s.server, now) == Round(counts, s.server, s.resolved);
        RoundHasRoom(s', counts, n - 1);
      } else if s.server + 1 < |counts| {
        assert s' == Position(s.server + 1, 0, s.retries, now);
        RoundHasRoom(s', counts, n - 1);
      } else {
        assert Round(counts, s.server + 1, now) == [];
      }
    }
  }

  lemma {:induction false} StartsOverOn(s: Position, counts: Counts, a: nat, b: nat)
    requires s.server < |counts|
    ensures NeverStartsOver(s, counts, a + b)
       <==> NeverStartsOver(s, counts, a) && NeverStartsOver(Run(s, counts, a), counts, b)
    decreases a
  {
    hide Step;
    if a > 0 {
      assert a + b - 1 == a - 1 + b;
      StartsOverOn(Step(s, counts), counts, a - 1, b);
    }
  }

  /** It has room for as many rounds as are left to its end, however many attempts they take. */
  lemma {:induction false} RoundsHaveRoom(counts: Counts, retries: nat, resolved: nat, m: nat)
    requires retries + m < WIDTH
    ensures NeverStartsOver(Position(0, 0, retries, resolved), counts, |Rounds(counts, resolved, m)|)
    decreases m
  {
    hide Step, Round, After, NeverStartsOver;
    var s := Position(0, 0, retries, resolved);
    if m == 0 {
      NoAttempt(s, counts);
    } else {
      var r := After(counts, 0, resolved, |counts|);
      RoundIsTried(counts, 0, retries, resolved);
      RoundHasRoom(s, counts, |Round(counts, 0, resolved)|);
      RoundsHaveRoom(counts, retries + 1, r, m - 1);
      StartsOverOn(s, counts, |Round(counts, 0, resolved)|, |Rounds(counts, r, m - 1)|);
      hide Run, Tried;
    }
  }

  lemma NoAttempt(s: Position, counts: Counts)
    requires s.server < |counts|
    ensures NeverStartsOver(s, counts, 0)
  {
  }

  /** The count a server is tried by: that of its own addresses if its name can be resolved, else the count
      the servers before it have left. */
  lemma {:induction false} AfterLast(counts: Counts, from: nat, resolved: nat, i: nat)
    requires from <= i < |counts|
    ensures After(counts, from, resolved, i + 1) == Resolved(counts[i], After(counts, from, resolved, i))
    decreases i - from
  {
    if from < i {
      AfterLast(counts, from + 1, Resolved(counts[from], resolved), i);
    } else {
      assert After(counts, from + 1, Resolved(counts[from], resolved), from + 1) == Resolved(counts[from], resolved);
    }
  }

  /** The attempts a server is due: one for each of its addresses, and one if its name cannot be resolved. */
  function Own(count: Option<nat>): nat {
    if count.Some? then Tries(count.value) else 1
  }

  ghost predicate HasOwnTurns(counts: Counts, resolved: nat, i: nat)
    requires i < |counts|
  {
    forall k: nat :: (i, k) in Round(counts, 0, resolved) <==> k < Own(counts[i])
  }

  lemma OwnTurns(counts: Counts, resolved: nat, i: nat)
    requires i < |counts|
    ensures HasOwnTurns(counts, resolved, i) <==> counts[i].Some? || After(counts, 0, resolved, i) <= 1
  {
    AfterLast(counts, 0, resolved, i);
    var n := Tries(After(counts, 0, resolved, i + 1));
    forall k: nat ensures (i, k) in Round(counts, 0, resolved) <==> k < n {
      RoundHas(counts, 0, resolved, i, k);
    }
    if HasOwnTurns(counts, resolved, i) {
      assert (i, Own(counts[i])) !in Round(counts, 0, resolved);
      assert (i, n) !in Round(counts, 0, resolved);
    }
    hide Round, After;
  }

  /** Every server gets just the attempts it is due exactly if before each server whose name cannot be
      resolved the count left is at most one. Any such server is tried as often as that count says: the
      number of addresses of the last server that could be resolved, in this round or an earlier one. */
  lemma UnresolvedServerInheritsCount(counts: Counts, resolved: nat)
    ensures (forall i :: 0 <= i < |counts| ==> HasOwnTurns(counts, resolved, i))
       <==> forall i :: 0 <= i < |counts| && counts[i].None? ==> After(counts, 0, resolved, i) <= 1
    ensures forall i, k: nat | 0 <= i < |counts| && counts[i].None? ::
              (i, k) in Round(counts, 0, resolved) <==> k < Tries(After(counts, 0, resolved, i))
  {
    forall i | 0 <= i < |counts|
      ensures HasOwnTurns(counts, resolved, i) <==> counts[i].Some? || After(counts, 0, resolved, i) <= 1
    {
      OwnTurns(counts, resolved, i);
    }
    forall i, k: nat | 0 <= i < |counts| && counts[i].None?
      ensures (i, k) in Round(counts, 0, resolved) <==> k < Tries(After(counts, 0, resolved, i))
    {
      AfterLast(counts, 0, resolved, i);
      RoundHas(counts, 0, resolved, i, k);
    }
  }

  /** A server that cannot be resolved behind one with three addresses, and behind one with one. */
  lemma ServersInARow()
    ensures Round([Some(3), None], 0, 0) == [(0, 0), (0, 1), (0, 2), (1, 0), (1, 1), (1, 2)]
    ensures Round([Some(1), None], 0, 0) == [(0, 0), (1, 0)]
  {
    var counts: Counts := [Some(3), None];
    assert Round(counts, 1, 3) == Row(1, 0, 3) + Round(counts, 2, 3);
    var single: Counts := [Some(1), None];
    assert Round(single, 1, 1) == Row(1, 0, 1) + Round(single, 2, 1);
  }
}

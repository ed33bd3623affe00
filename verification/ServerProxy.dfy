/** Mouse compression in the server proxy, against plain forwarding of every move. */
module ServerProxy {
  import opened Basics

  /** Messages from the server, as far as the mouse is concerned: keys, buttons, the wheel and leaving are
      barriers, which bring the mouse up to date first; `Other` stands for every remaining message. */
  datatype Message =
    | MouseMove(x: int, y: int)
    | MouseRelativeMove(dx: int, dy: int)
    | Barrier(id: nat)
    | Enter(x: int, y: int)
    | InfoAck
    | Other(id: nat)

  /** Calls on the client, in order. */
  datatype Call =
    | Move(x: int, y: int)
    | RelativeMove(dx: int, dy: int)
    | Entered(x: int, y: int)
    | Act(id: nat)
    | Misc(id: nat)

  /** The proxy's mouse fields. */
  datatype Mouse = Mouse(compress: bool, compressRelative: bool, x: int, y: int, dx: int, dy: int, ignoring: bool)

  /** A message with the stream's answer to whether more input is ready. */
  datatype Item = Item(message: Message, more: bool)

  // ---------- The two forwarders ----------

  function Flushed(m: Mouse): Mouse {
    m.(compress := false, compressRelative := false,
       dx := if m.compressRelative then 0 else m.dx, dy := if m.compressRelative then 0 else m.dy)
  }

  function FlushCalls(m: Mouse): seq<Call> {
    (if m.compress then [Move(m.x, m.y)] else []) + (if m.compressRelative then [RelativeMove(m.dx, m.dy)] else [])
  }

  /** The fields after a message. */
  function Received(m: Mouse, item: Item): Mouse {
    match item.message
    case MouseMove(x, y) =>
      if m.compress || (!m.ignoring && item.more) then
        m.(compress := true, compressRelative := false, x := x, y := y, dx := 0, dy := 0)
      else m
    case MouseRelativeMove(dx, dy) =>
      if m.compressRelative || (!m.ignoring && item.more) then
        m.(compressRelative := true, dx := m.dx + dx, dy := m.dy + dy)
      else m
    case Barrier(_) => Flushed(m)
    case Enter(_, _) => m.(compress := false, compressRelative := false, dx := 0, dy := 0)
    case InfoAck => m.(ignoring := false)
    case Other(_) => m
  }

  /** The calls a message leads to. */
  function Calls(m: Mouse, item: Item): seq<Call> {
    match item.message
    case MouseMove(x, y) => if m.compress || m.ignoring || item.more then [] else [Move(x, y)]
    case MouseRelativeMove(dx, dy) =>
      if m.compressRelative || m.ignoring || item.more then [] else [RelativeMove(dx, dy)]
    case Barrier(id) => FlushCalls(m) + [Act(id)]
    case Enter(x, y) => [Entered(x, y)]
    case InfoAck => []
    case Other(id) => [Misc(id)]
  }

  /** Plain forwarding: what the proxy would do if it never held a move back. */
  function PlainCalls(ignoring: bool, message: Message): seq<Call> {
    match message
    case MouseMove(x, y) => if ignoring then [] else [Move(x, y)]
    case MouseRelativeMove(dx, dy) => if ignoring then [] else [RelativeMove(dx, dy)]
    case Barrier(id) => [Act(id)]
    case Enter(x, y) => [Entered(x, y)]
    case InfoAck => []
    case Other(id) => [Misc(id)]
  }

  // ---------- What the calls do to the cursor ----------

  /** The effect on a cursor at an unknown place. */
  datatype Motion = Shift(dx: int, dy: int) | Goto(x: int, y: int)

  const STILL := Shift(0, 0)

  function Then(a: Motion, b: Motion): Motion {
    match b
    case Goto(_, _) => b
    case Shift(dx, dy) => if a.Goto? then Goto(a.x + dx, a.y + dy) else Shift(a.dx + dx, a.dy + dy)
  }

  function MotionOf(c: Call): Motion {
    match c
    case Move(x, y) => Goto(x, y)
    case RelativeMove(dx, dy) => Shift(dx, dy)
    case Entered(x, y) => Goto(x, y)
    case _ => STILL
  }

  /** What an observer sees: every call that is not a move, each barrier with the cursor's position at that
      moment, and the position now. */
  datatype Seen = Called(call: Call) | Acted(id: nat, at: Motion)

  datatype View = View(seen: seq<Seen>, at: Motion)

  function Observed(v: View, c: Call): View {
    match c
    case Act(id) => v.(seen := v.seen + [Acted(id, v.at)])
    case Misc(_) => v.(seen := v.seen + [Called(c)])
    case Entered(_, _) => View(v.seen + [Called(c)], Then(v.at, MotionOf(c)))
    case _ => v.(at := Then(v.at, MotionOf(c)))
  }

  function AllObserved(v: View, cs: seq<Call>): View
    decreases |cs|
  {
    if cs == [] then v else AllObserved(Observed(v, cs[0]), cs[1..])
  }

  lemma {:induction false} AllObservedConcat(v: View, a: seq<Call>, b: seq<Call>)
    ensures AllObserved(v, a + b) == AllObserved(AllObserved(v, a), b)
    decreases |a|
  {
    if a == [] {
      assert a + b == b;
    } else {
      assert (a + b)[1..] == a[1..] + b && (a + b)[0] == a[0];
      AllObservedConcat(Observed(v, a[0]), a[1..], b);
    }
  }

  /** The moves held back. */
  function Pending(m: Mouse): Motion {
    Then(if m.compress then Goto(m.x, m.y) else STILL, if m.compressRelative then Shift(m.dx, m.dy) else STILL)
  }

  predicate Holding(m: Mouse) {
    m.compress || m.compressRelative
  }

  /** Displacement is only kept while it is pending, and nothing is pending while moves are ignored. */
  predicate Sane(m: Mouse) {
    && (!m.compressRelative ==> m.dx == 0 && m.dy == 0)
    && (m.ignoring ==> !Holding(m))
  }

  /** Both observers have seen the same, and will be at the same place once the held moves are delivered. */
  predicate InStep(m: Mouse, compressed: View, plain: View) {
    compressed.seen == plain.seen && Then(compressed.at, Pending(m)) == plain.at
  }

  /** A move of one kind is forwarded at once while a move of the other kind is held back. */
  predicate Overtakes(m: Mouse, item: Item) {
    && !m.ignoring && !item.more
    && ((item.message.MouseMove? && !m.compress && m.compressRelative)
        || (item.message.MouseRelativeMove? && !m.compressRelative && m.compress))
  }

  /** How far the observers drift apart then: the held displacement, or the one that was forwarded. */
  function Drift(m: Mouse, item: Item): (int, int)
    requires Overtakes(m, item)
  {
    if item.message.MouseMove? then (m.dx, m.dy) else (item.message.dx, item.message.dy)
  }

  // ---------- One message ----------

  lemma FlushDelivers(m: Mouse, v: View)
    requires Sane(m)
    ensures AllObserved(v, FlushCalls(m)) == View(v.seen, Then(v.at, Pending(m)))
    ensures Sane(Flushed(m)) && !Holding(Flushed(m))
  {
    var a, b := Move(m.x, m.y), RelativeMove(m.dx, m.dy);
    ObservedOne(v, a);
    ObservedOne(v, b);
    ObservedOne(Observed(v, a), b);
    if m.compress && m.compressRelative {
      assert FlushCalls(m) == [a] + [b];
      AllObservedConcat(v, [a], [b]);
    } else if m.compress {
      assert FlushCalls(m) == [a];
    } else if m.compressRelative {
      assert FlushCalls(m) == [b];
    }
  }

  lemma MessageKeepsSane(m: Mouse, item: Item)
    requires Sane(m)
    ensures Sane(Received(m, item))
  {
  }

  /** A message keeps both forwarders in step, except that after overtaking they are in step exactly when
      the displacement that changed places is zero. */
  lemma MessageKeepsStep(m: Mouse, item: Item, compressed: View, plain: View)
    requires Sane(m) && InStep(m, compressed, plain)
    ensures var c := AllObserved(compressed, Calls(m, item));
            var p := AllObserved(plain, PlainCalls(m.ignoring, item.message));
            InStep(Received(m, item), c, p) <==> (Overtakes(m, item) ==> Drift(m, item) == (0, 0))
  {
    hide AllObserved, Calls, PlainCalls, Pending, Received;
    NoGap(Then(compressed.at, Pending(m)), NO_GAP);
    MessageGap(m, item, compressed, plain, NO_GAP);
    NoGap(Then(AllObserved(compressed, Calls(m, item)).at, Pending(Received(m, item))), GapAfter(m, item, NO_GAP));
    OnlyOvertakingOpensGap(m, item);
    hide Then, Overtakes, Drift, GapAfter;
  }

  lemma OnlyOvertakingOpensGap(m: Mouse, item: Item)
    requires Sane(m)
    ensures GapAfter(m, item, NO_GAP) == NO_GAP <==> (Overtakes(m, item) ==> Drift(m, item) == (0, 0))
  {
  }

  lemma ObservedOne(v: View, c: Call)
    ensures AllObserved(v, []) == v && AllObserved(v, [c]) == Observed(v, c)
  {
    assert [c][1..] == [];
  }

  lemma NothingHeld(m: Mouse, at: Motion)
    requires !Holding(m)
    ensures Then(at, Pending(m)) == at
  {
  }

  /** What becomes of a move: it is forwarded at once if none of its kind is held and no more input follows,
      dropped if moves are ignored and none is held, and held otherwise: the last position, the total
      displacement. */
  lemma MoveForms(m: Mouse, item: Item)
    ensures match item.message
            case MouseMove(x, y) =>
              (if m.compress || (!m.ignoring && item.more) then
                 Calls(m, item) == [] && Received(m, item) == Mouse(true, false, x, y, 0, 0, m.ignoring)
               else Received(m, item) == m && Calls(m, item) == if m.ignoring then [] else [Move(x, y)])
            case MouseRelativeMove(dx, dy) =>
              (if m.compressRelative || (!m.ignoring && item.more) then
                 && Calls(m, item) == []
                 && Received(m, item) == Mouse(m.compress, true, m.x, m.y, m.dx + dx, m.dy + dy, m.ignoring)
               else Received(m, item) == m && Calls(m, item) == if m.ignoring then [] else [RelativeMove(dx, dy)])
            case _ => true
  {
  }

  /** What everything else does: a barrier lets what is held through first, the position before the
      displacement; an entry discards it; an acknowledgment ends ignoring. */
  lemma OtherForms(m: Mouse, item: Item)
    ensures match item.message
            case Barrier(id) =>
              && Calls(m, item) == (if m.compress then [Move(m.x, m.y)] else [])
                                   + (if m.compressRelative then [RelativeMove(m.dx, m.dy)] else []) + [Act(id)]
              && !Holding(Received(m, item)) && Received(m, item).ignoring == m.ignoring
            case Enter(x, y) =>
              && Calls(m, item) == [Entered(x, y)]
              && !Holding(Received(m, item)) && Received(m, item).ignoring == m.ignoring
            case InfoAck => Calls(m, item) == [] && Received(m, item) == m.(ignoring := false)
            case Other(id) => Calls(m, item) == [Misc(id)] && Received(m, item) == m
            case _ => true
  {
  }

  /** While moves are ignored none is forwarded. */
  lemma IgnoredMovesAreDropped(m: Mouse, item: Item, c: Call)
    requires Sane(m) && m.ignoring && c in Calls(m, item)
    ensures !c.Move? && !c.RelativeMove?
  {
  }

  // ---------- Rounds of input ----------

  /** What reaches the proxy: a round of messages, which ends with a flush unless it asks to disconnect, or
      the news that the screen has changed, after which moves are ignored until the server acknowledges. */
  datatype Round = Data(items: seq<Item>, disconnects: bool) | InfoChanged

  function AllReceived(m: Mouse, items: seq<Item>): Mouse
    decreases |items|
  {
    if items == [] then m else AllReceived(Received(m, items[0]), items[1..])
  }

  function AllCalls(m: Mouse, items: seq<Item>): seq<Call>
    decreases |items|
  {
    if items == [] then [] else Calls(m, items[0]) + AllCalls(Received(m, items[0]), items[1..])
  }

  function AllPlainCalls(ignoring: bool, items: seq<Item>): seq<Call>
    decreases |items|
  {
    if items == [] then []
    else PlainCalls(ignoring, items[0].message) + AllPlainCalls(ignoring && !items[0].message.InfoAck?, items[1..])
  }

  /** No move overtakes a held one, unless that makes no difference. */
  predicate Tidy(m: Mouse, items: seq<Item>)
    decreases |items|
  {
    items == []
    || (&& (Overtakes(m, items[0]) ==> Drift(m, items[0]) == (0, 0))
        && Tidy(Received(m, items[0]), items[1..]))
  }

  /** Between barriers all moves are absolute or all are relative; `absolute` and `relative` tell which kinds
      the stretch has had so far. */
  predicate OneKind(items: seq<Item>, absolute: bool, relative: bool)
    decreases |items|
  {
    items == [] ||
    match items[0].message
    case MouseMove(_, _) => !relative && OneKind(items[1..], true, relative)
    case MouseRelativeMove(_, _) => !absolute && OneKind(items[1..], absolute, true)
    case Barrier(_) => OneKind(items[1..], false, false)
    case Enter(_, _) => OneKind(items[1..], false, false)
    case _ => OneKind(items[1..], absolute, relative)
  }

  lemma {:induction false} OneKindIsTidy(m: Mouse, items: seq<Item>, absolute: bool, relative: bool)
    requires OneKind(items, absolute, relative) && (m.compress ==> absolute) && (m.compressRelative ==> relative)
    ensures Tidy(m, items)
    decreases |items|
  {
    if items != [] {
      var kind := items[0].message;
      var restart := kind.Barrier? || kind.Enter?;
      OneKindIsTidy(Received(m, items[0]), items[1..], !restart && (absolute || kind.MouseMove?),
                    !restart && (relative || kind.MouseRelativeMove?));
    }
  }

  /** Over a tidy list of messages the two forwarders stay in step. */
  lemma MessagesKeepStep(m: Mouse, items: seq<Item>, compressed: View, plain: View)
    requires Sane(m) && InStep(m, compressed, plain) && Tidy(m, items)
    ensures var r := AllReceived(m, items);
            && Sane(r)
            && InStep(r, AllObserved(compressed, AllCalls(m, items)),
                      AllObserved(plain, AllPlainCalls(m.ignoring, items)))
  {
    hide Sane, AllObserved, AllCalls, AllPlainCalls, AllReceived, Pending, Tidy, GapAfterAll, BarriersMatch, Then;
    NoGap(Then(compressed.at, Pending(m)), NO_GAP);
    MessagesGap(m, items, compressed, plain, NO_GAP);
    TidyOpensNoGap(m, items);
    var c, r := AllObserved(compressed, AllCalls(m, items)), AllReceived(m, items);
    NoGap(Then(c.at, Pending(r)), NO_GAP);
  }

  lemma {:induction false} TidyOpensNoGap(m: Mouse, items: seq<Item>)
    requires Sane(m) && Tidy(m, items)
    ensures GapAfterAll(m, items, NO_GAP) == NO_GAP && BarriersMatch(m, items, NO_GAP)
    decreases |items|
  {
    hide Sane, GapAfter, Overtakes, Drift;
    if items != [] {
      MessageKeepsSane(m, items[0]);
      OnlyOvertakingOpensGap(m, items[0]);
      TidyOpensNoGap(Received(m, items[0]), items[1..]);
    }
  }

  function AfterRound(m: Mouse, r: Round): Mouse {
    match r
    case Data(items, disconnects) => if disconnects then AllReceived(m, items) else Flushed(AllReceived(m, items))
    case InfoChanged => m.(ignoring := true)
  }

  function RoundCalls(m: Mouse, r: Round): seq<Call> {
    match r
    case Data(items, disconnects) =>
      if disconnects then AllCalls(m, items) else AllCalls(m, items) + FlushCalls(AllReceived(m, items))
    case InfoChanged => []
  }

  function AfterRounds(m: Mouse, rounds: seq<Round>): Mouse
    decreases |rounds|
  {
    if rounds == [] then m else AfterRounds(AfterRound(m, rounds[0]), rounds[1..])
  }

  function RunCalls(m: Mouse, rounds: seq<Round>): seq<Call>
    decreases |rounds|
  {
    if rounds == [] then [] else RoundCalls(m, rounds[0]) + RunCalls(AfterRound(m, rounds[0]), rounds[1..])
  }

  function PlainRun(ignoring: bool, rounds: seq<Round>): seq<Call>
    decreases |rounds|
  {
    if rounds == [] then []
    else match rounds[0]
      case Data(items, _) =>
        AllPlainCalls(ignoring, items)
        + PlainRun(ignoring && !(exists i :: 0 <= i < |items| && items[i].message.InfoAck?), rounds[1..])
      case InfoChanged => PlainRun(true, rounds[1..])
  }

  /** No round asks to disconnect, and all are tidy. */
  predicate TidyRun(m: Mouse, rounds: seq<Round>)
    decreases |rounds|
  {
    rounds == [] ||
    (&& (rounds[0].Data? ==> !rounds[0].disconnects && Tidy(m, rounds[0].items))
     && TidyRun(AfterRound(m, rounds[0]), rounds[1..]))
  }

  /** A run without a disconnect request, in which each round keeps to one kind of move between barriers. */
  predicate OneKindRun(rounds: seq<Round>) {
    forall i :: 0 <= i < |rounds| && rounds[i].Data? ==>
        !rounds[i].disconnects && OneKind(rounds[i].items, false, false)
  }

  lemma {:induction false} OneKindRunIsTidy(m: Mouse, rounds: seq<Round>)
    requires Sane(m) && !Holding(m) && OneKindRun(rounds)
    ensures TidyRun(m, rounds)
    decreases |rounds|
  {
    if rounds != [] {
      if rounds[0].Data? {
        OneKindIsTidy(m, rounds[0].items, false, false);
        ItemsKeepSane(m, rounds[0].items);
      }
      hide OneKind, Tidy, AllReceived;
      OneKindRunIsTidy(AfterRound(m, rounds[0]), rounds[1..]);
    }
  }

  lemma {:induction false} IgnoringAfter(m: Mouse, items: seq<Item>)
    ensures AllReceived(m, items).ignoring == (m.ignoring && !exists i :: 0 <= i < |items| && items[i].message.InfoAck?)
    decreases |items|
  {
    if items != [] {
      IgnoringAfter(Received(m, items[0]), items[1..]);
      assert (exists i :: 0 <= i < |items| && items[i].message.InfoAck?)
        <==> items[0].message.InfoAck? || exists i :: 0 <= i < |items[1..]| && items[1..][i].message.InfoAck? by {
        if i :| 0 <= i < |items| && items[i].message.InfoAck? {
          assert i > 0 ==> items[1..][i - 1].message.InfoAck?;
        }
      }
    }
  }

  /** In every tidy run, compressed forwarding shows the same as plain forwarding: the same calls in the
      same order, the cursor at the same place at every barrier, and at the end of every round. */
  lemma CompressionRefinesForwarding(m: Mouse, rounds: seq<Round>, compressed: View, plain: View)
    requires Sane(m) && !Holding(m) && compressed == plain && TidyRun(m, rounds)
    ensures AllObserved(compressed, RunCalls(m, rounds)) == AllObserved(plain, PlainRun(m.ignoring, rounds))
  {
    hide Sane, Holding, AllObserved, RunCalls, PlainRun, TidyRun, RunMatches, RunGap;
    TidyRunMatches(m, rounds);
    CompressionRefinesExactly(m, rounds, plain);
  }

  lemma {:induction false} TidyRunMatches(m: Mouse, rounds: seq<Round>)
    requires Sane(m) && !Holding(m) && TidyRun(m, rounds)
    ensures NoDisconnect(rounds) && RunMatches(m, rounds, NO_GAP) && RunGap(m, rounds, NO_GAP) == NO_GAP
    decreases |rounds|
  {
    hide Tidy, AllReceived, GapAfterAll, BarriersMatch;
    if rounds != [] {
      if rounds[0].Data? {
        TidyOpensNoGap(m, rounds[0].items);
        ItemsKeepSane(m, rounds[0].items);
      }
      TidyRunMatches(AfterRound(m, rounds[0]), rounds[1..]);
    }
  }

  // ---------- How far compression leads astray ----------

  /** Where plain forwarding puts the cursor, as seen from where compression puts it. */
  datatype Gap = Gap(dx: int, dy: int)

  const NO_GAP := Gap(0, 0)

  /** Overtaking opens a gap, or widens it; an absolute position closes it, unless it overtakes. */
  function GapAfter(m: Mouse, item: Item, g: Gap): Gap {
    match item.message
    case MouseMove(_, _) =>
      if m.ignoring then g else if Overtakes(m, item) then Gap(-m.dx, -m.dy) else NO_GAP
    case MouseRelativeMove(dx, dy) => if Overtakes(m, item) then Gap(g.dx + dx, g.dy + dy) else g
    case Enter(_, _) => NO_GAP
    case _ => g
  }

  /** The observers are this far apart once the held moves are delivered; what they have seen may differ,
      but not in number. */
  predicate Apart(m: Mouse, compressed: View, plain: View, g: Gap) {
    && |compressed.seen| == |plain.seen|
    && Then(Then(compressed.at, Pending(m)), Shift(g.dx, g.dy)) == plain.at
  }

  /** A message is seen the same unless it is a barrier met with a gap. */
  lemma MessageGap(m: Mouse, item: Item, compressed: View, plain: View, g: Gap)
    requires Sane(m) && Apart(m, compressed, plain, g)
    ensures var c := AllObserved(compressed, Calls(m, item));
            var p := AllObserved(plain, PlainCalls(m.ignoring, item.message));
            && Apart(Received(m, item), c, p, GapAfter(m, item, g))
            && (c.seen == p.seen <==> compressed.seen == plain.seen && (item.message.Barrier? ==> g == NO_GAP))
  {
    hide AllObserved, Apart, Observed, Then, GapAfter;
    match item.message
    case Barrier(id) => BarrierGap(m, id, item.more, compressed, plain, g);
    case MouseMove(x, y) => MoveGap(m, item, compressed, plain, g);
    case MouseRelativeMove(dx, dy) => RelativeMoveGap(m, item, compressed, plain, g);
    case Enter(x, y) => CalledGap(m, item, Entered(x, y), compressed, plain, g);
    case Other(id) => CalledGap(m, item, Misc(id), compressed, plain, g);
    case InfoAck => AcknowledgedGap(m, item, compressed, plain, g);
  }

  lemma AcknowledgedGap(m: Mouse, item: Item, compressed: View, plain: View, g: Gap)
    requires Sane(m) && Apart(m, compressed, plain, g) && item.message.InfoAck?
    ensures Apart(Received(m, item), AllObserved(compressed, []), AllObserved(plain, []), GapAfter(m, item, g))
    ensures AllObserved(compressed, []) == compressed && AllObserved(plain, []) == plain
  {
    hide Then;
  }

  lemma SameLast(a: seq<Seen>, b: seq<Seen>, x: Seen, y: Seen)
    requires |a| == |b|
    ensures a + [x] == b + [y] <==> a == b && x == y
  {
    if a + [x] == b + [y] {
      assert a == (a + [x])[..|a|] && b == (b + [y])[..|b|];
      assert (a + [x])[|a|] == x && (b + [y])[|b|] == y;
    }
  }

  lemma CalledGap(m: Mouse, item: Item, c: Call, compressed: View, plain: View, g: Gap)
    requires Sane(m) && Apart(m, compressed, plain, g) && (item.message.Enter? || item.message.Other?)
    requires Calls(m, item) == PlainCalls(m.ignoring, item.message) == [c]
    ensures var c', p' := AllObserved(compressed, [c]), AllObserved(plain, [c]);
            && Apart(Received(m, item), c', p', GapAfter(m, item, g))
            && (c'.seen == p'.seen <==> compressed.seen == plain.seen)
  {
    hide AllObserved, Overtakes, Then, Pending;
    ObservedOne(compressed, c);
    ObservedOne(plain, c);
    SameLast(compressed.seen, plain.seen, Called(c), Called(c));
    if item.message.Enter? {
      EnteredAt(Received(m, item), compressed.at, c);
      EnteredAt(Received(m, item), plain.at, c);
      NoGap(MotionOf(c), NO_GAP);
    }
  }

  lemma EnteredAt(m: Mouse, at: Motion, c: Call)
    requires c.Entered? && !Holding(m)
    ensures Then(at, MotionOf(c)) == MotionOf(c) == Then(MotionOf(c), Pending(m))
  {
  }

  lemma BarrierGap(m: Mouse, id: nat, more: bool, compressed: View, plain: View, g: Gap)
    requires Sane(m) && Apart(m, compressed, plain, g)
    ensures var c, p := AllObserved(compressed, FlushCalls(m) + [Act(id)]), AllObserved(plain, [Act(id)]);
            && Apart(Flushed(m), c, p, GapAfter(m, Item(Barrier(id), more), g))
            && (c.seen == p.seen <==> compressed.seen == plain.seen && g == NO_GAP)
  {
    hide AllObserved, FlushCalls, Flushed, Pending;
    FlushDelivers(m, compressed);
    AllObservedConcat(compressed, FlushCalls(m), [Act(id)]);
    var at := Then(compressed.at, Pending(m));
    ObservedOne(AllObserved(compressed, FlushCalls(m)), Act(id));
    ObservedOne(plain, Act(id));
    NothingHeld(Flushed(m), at);
    SameLast(compressed.seen, plain.seen, Acted(id, at), Acted(id, plain.at));
  }

  lemma MoveGap(m: Mouse, item: Item, compressed: View, plain: View, g: Gap)
    requires Sane(m) && Apart(m, compressed, plain, g) && item.message.MouseMove?
    ensures var c := AllObserved(compressed, Calls(m, item));
            var p := AllObserved(plain, PlainCalls(m.ignoring, item.message));
            Apart(Received(m, item), c, p, GapAfter(m, item, g)) && c.seen == compressed.seen && p.seen == plain.seen
  {
    hide AllObserved;
    var move := Move(item.message.x, item.message.y);
    ObservedOne(compressed, move);
    ObservedOne(plain, move);
  }

  lemma RelativeMoveGap(m: Mouse, item: Item, compressed: View, plain: View, g: Gap)
    requires Sane(m) && Apart(m, compressed, plain, g) && item.message.MouseRelativeMove?
    ensures var c := AllObserved(compressed, Calls(m, item));
            var p := AllObserved(plain, PlainCalls(m.ignoring, item.message));
            Apart(Received(m, item), c, p, GapAfter(m, item, g)) && c.seen == compressed.seen && p.seen == plain.seen
  {
    hide AllObserved;
    var move := RelativeMove(item.message.dx, item.message.dy);
    ObservedOne(compressed, move);
    ObservedOne(plain, move);
  }

  function GapAfterAll(m: Mouse, items: seq<Item>, g: Gap): Gap
    decreases |items|
  {
    if items == [] then g else GapAfterAll(Received(m, items[0]), items[1..], GapAfter(m, items[0], g))
  }

  /** No barrier is met with a gap. */
  predicate BarriersMatch(m: Mouse, items: seq<Item>, g: Gap)
    decreases |items|
  {
    items == []
    || (&& (items[0].message.Barrier? ==> g == NO_GAP)
        && BarriersMatch(Received(m, items[0]), items[1..], GapAfter(m, items[0], g)))
  }

  lemma {:induction false} MessagesGap(m: Mouse, items: seq<Item>, compressed: View, plain: View, g: Gap)
    requires Sane(m) && Apart(m, compressed, plain, g)
    ensures var r := AllReceived(m, items);
            var c := AllObserved(compressed, AllCalls(m, items));
            var p := AllObserved(plain, AllPlainCalls(m.ignoring, items));
            && Sane(r) && Apart(r, c, p, GapAfterAll(m, items, g))
            && (c.seen == p.seen <==> compressed.seen == plain.seen && BarriersMatch(m, items, g))
    decreases |items|
  {
    hide Sane, Apart, Observed, Calls, PlainCalls, AllObserved, GapAfter;
    if items == [] {
      ObservedOne(compressed, Act(0));
      ObservedOne(plain, Act(0));
    } else {
      var c, p := Calls(m, items[0]), PlainCalls(m.ignoring, items[0].message);
      MessageKeepsSane(m, items[0]);
      MessageGap(m, items[0], compressed, plain, g);
      var m' := Received(m, items[0]);
      MessagesGap(m', items[1..], AllObserved(compressed, c), AllObserved(plain, p), GapAfter(m, items[0], g));
      AllObservedConcat(compressed, c, AllCalls(m', items[1..]));
      AllObservedConcat(plain, p, AllPlainCalls(m'.ignoring, items[1..]));
    }
  }

  predicate NoDisconnect(rounds: seq<Round>) {
    forall i :: 0 <= i < |rounds| && rounds[i].Data? ==> !rounds[i].disconnects
  }

  function GapAfterRound(m: Mouse, r: Round, g: Gap): Gap {
    if r.Data? then GapAfterAll(m, r.items, g) else g
  }

  function RunGap(m: Mouse, rounds: seq<Round>, g: Gap): Gap
    decreases |rounds|
  {
    if rounds == [] then g
    else RunGap(AfterRound(m, rounds[0]), rounds[1..], GapAfterRound(m, rounds[0], g))
  }

  predicate RunMatches(m: Mouse, rounds: seq<Round>, g: Gap)
    decreases |rounds|
  {
    rounds == []
    || (&& (rounds[0].Data? ==> BarriersMatch(m, rounds[0].items, g))
        && RunMatches(AfterRound(m, rounds[0]), rounds[1..], GapAfterRound(m, rounds[0], g)))
  }

  lemma RoundGap(m: Mouse, items: seq<Item>, compressed: View, plain: View, g: Gap)
    requires Sane(m) && Apart(m, compressed, plain, g)
    ensures var after := AfterRound(m, Data(items, false));
            var c := AllObserved(compressed, RoundCalls(m, Data(items, false)));
            var p := AllObserved(plain, AllPlainCalls(m.ignoring, items));
            && Sane(after) && !Holding(after) && after.ignoring == AllReceived(m, items).ignoring
            && Apart(after, c, p, GapAfterAll(m, items, g))
            && (c.seen == p.seen <==> compressed.seen == plain.seen && BarriersMatch(m, items, g))
  {
    hide AllObserved, FlushCalls, Then, AllReceived, AllCalls, AllPlainCalls, BarriersMatch, GapAfterAll;
    MessagesGap(m, items, compressed, plain, g);
    var r := AllReceived(m, items);
    AllObservedConcat(compressed, AllCalls(m, items), FlushCalls(r));
    var c := AllObserved(compressed, AllCalls(m, items));
    FlushDelivers(r, c);
    NothingHeld(Flushed(r), Then(c.at, Pending(r)));
    hide Pending;
  }

  lemma {:induction false} RoundsGap(m: Mouse, rounds: seq<Round>, compressed: View, plain: View, g: Gap)
    requires Sane(m) && !Holding(m) && Apart(m, compressed, plain, g) && NoDisconnect(rounds)
    ensures var c, p := AllObserved(compressed, RunCalls(m, rounds)), AllObserved(plain, PlainRun(m.ignoring, rounds));
            && Apart(AfterRounds(m, rounds), c, p, RunGap(m, rounds, g)) && !Holding(AfterRounds(m, rounds))
            && (c.seen == p.seen <==> compressed.seen == plain.seen && RunMatches(m, rounds, g))
    decreases |rounds|
  {
    hide AllObserved, Then, Flushed, FlushCalls, AllReceived, AllCalls, AllPlainCalls, BarriersMatch, GapAfterAll;
    if rounds == [] {
      ObservedOne(compressed, Act(0));
      ObservedOne(plain, Act(0));
    } else {
      var r, rest := rounds[0], rounds[1..];
      var m' := AfterRound(m, r);
      if r.Data? {
        RoundGap(m, r.items, compressed, plain, g);
        IgnoringAfter(m, r.items);
        var c, p := AllObserved(compressed, RoundCalls(m, r)), AllObserved(plain, AllPlainCalls(m.ignoring, r.items));
        hide Apart, Sane, Holding;
        RoundsGap(m', rest, c, p, GapAfterAll(m, r.items, g));
        AllObservedConcat(compressed, RoundCalls(m, r), RunCalls(m', rest));
        AllObservedConcat(plain, AllPlainCalls(m.ignoring, r.items), PlainRun(m'.ignoring, rest));
      } else {
        assert [] + RunCalls(m', rest) == RunCalls(m', rest);
        RoundsGap(m', rest, compressed, plain, g);
      }
    }
  }

  /** In a run without a disconnect request, compressed forwarding shows the same as plain forwarding, and
      leaves the cursor at the same place, exactly if no barrier is met with a gap and none is left. */
  lemma CompressionRefinesExactly(m: Mouse, rounds: seq<Round>, v: View)
    requires Sane(m) && !Holding(m) && NoDisconnect(rounds)
    ensures AllObserved(v, RunCalls(m, rounds)) == AllObserved(v, PlainRun(m.ignoring, rounds))
       <==> RunMatches(m, rounds, NO_GAP) && RunGap(m, rounds, NO_GAP) == NO_GAP
  {
    hide AllObserved, RunCalls, PlainRun, RunGap, RunMatches, AfterRounds;
    NothingHeld(m, v.at);
    NoGap(v.at, NO_GAP);
    RoundsGap(m, rounds, v, v, NO_GAP);
    var c, p := AllObserved(v, RunCalls(m, rounds)), AllObserved(v, PlainRun(m.ignoring, rounds));
    NothingHeld(AfterRounds(m, rounds), c.at);
    NoGap(c.at, RunGap(m, rounds, NO_GAP));
  }

  lemma NoGap(at: Motion, g: Gap)
    ensures Then(at, Shift(g.dx, g.dy)) == at <==> g == NO_GAP
  {
  }

  /** A held displacement, overtaken by an absolute move: the cursor ends up where the server did not put it. */
  lemma OvertakingMisplacesCursor()
    ensures var start, v := Mouse(false, false, 0, 0, 0, 0, false), View([], STILL);
            var rounds := [Data([Item(MouseRelativeMove(5, 0), true), Item(MouseMove(1, 1), false)], false)];
            && Sane(start) && !Holding(start)
            && RunCalls(start, rounds) == [Move(1, 1), RelativeMove(5, 0)]
            && PlainRun(false, rounds) == [RelativeMove(5, 0), Move(1, 1)]
            && AllObserved(v, RunCalls(start, rounds)).at == Goto(6, 1)
            && AllObserved(v, PlainRun(false, rounds)).at == Goto(1, 1)
  {
    var start := Mouse(false, false, 0, 0, 0, 0, false);
    var items := [Item(MouseRelativeMove(5, 0), true), Item(MouseMove(1, 1), false)];
    var held := Mouse(false, true, 0, 0, 5, 0, false);
    assert items[1..] == [items[1]] && items[1..][1..] == [];
    assert AllCalls(start, items) == [] + AllCalls(held, items[1..]);
    assert AllPlainCalls(false, items) == [RelativeMove(5, 0), Move(1, 1)];
    var rounds := [Data(items, false)];
    assert rounds[1..] == [];
    assert [Move(1, 1), RelativeMove(5, 0)][1..] == [RelativeMove(5, 0)]
        && [RelativeMove(5, 0), Move(1, 1)][1..] == [Move(1, 1)];
    assert [RelativeMove(5, 0)][1..] == [] && [Move(1, 1)][1..] == [];
  }

  predicate Unacknowledged(r: Round) {
    r.Data? ==> forall i :: 0 <= i < |r.items| ==> !r.items[i].message.InfoAck?
  }

  /** A run that has not asked to disconnect ends with nothing held back. */
  lemma {:induction false} RunKeepsSane(m: Mouse, rounds: seq<Round>)
    requires Sane(m) && !Holding(m)
    requires forall i :: 0 <= i < |rounds| ==> rounds[i].Data? ==> !rounds[i].disconnects
    ensures Sane(AfterRounds(m, rounds)) && !Holding(AfterRounds(m, rounds))
    decreases |rounds|
  {
    if rounds != [] {
      if rounds[0].Data? {
        ItemsKeepSane(m, rounds[0].items);
      }
      RunKeepsSane(AfterRound(m, rounds[0]), rounds[1..]);
    }
  }

  lemma {:induction false} ItemsKeepSane(m: Mouse, items: seq<Item>)
    requires Sane(m)
    ensures Sane(AllReceived(m, items)) && Sane(Flushed(AllReceived(m, items)))
    decreases |items|
  {
    if items != [] {
      MessageKeepsSane(m, items[0]);
      ItemsKeepSane(Received(m, items[0]), items[1..]);
    }
  }

  /** While the server has not acknowledged, messages forward no move and leave none held. */
  lemma {:induction false} NoMoveInRound(m: Mouse, items: seq<Item>)
    requires Sane(m) && m.ignoring && forall i :: 0 <= i < |items| ==> !items[i].message.InfoAck?
    ensures Sane(AllReceived(m, items)) && AllReceived(m, items).ignoring
    ensures forall c | c in AllCalls(m, items) :: !c.Move? && !c.RelativeMove?
    decreases |items|
  {
    if items != [] {
      MessageKeepsSane(m, items[0]);
      NoMoveInRound(Received(m, items[0]), items[1..]);
    }
  }

  /** From the moment moves are ignored, after any run without a disconnect request, no move is forwarded
      until the server acknowledges, however many rounds that takes. */
  lemma {:induction false} NoMoveUntilAcknowledged(m: Mouse, before: seq<Round>, rounds: seq<Round>)
    requires Sane(m) && !Holding(m) && AfterRounds(m, before).ignoring
    requires forall i :: 0 <= i < |before| ==> before[i].Data? ==> !before[i].disconnects
    requires forall i :: 0 <= i < |rounds| ==> Unacknowledged(rounds[i])
    ensures forall c | c in RunCalls(AfterRounds(m, before), rounds) :: !c.Move? && !c.RelativeMove?
  {
    RunKeepsSane(m, before);
    NoMoveWhileIgnoring(AfterRounds(m, before), rounds);
  }

  lemma {:induction false} NoMoveWhileIgnoring(m: Mouse, rounds: seq<Round>)
    requires Sane(m) && m.ignoring && forall i :: 0 <= i < |rounds| ==> Unacknowledged(rounds[i])
    ensures forall c | c in RunCalls(m, rounds) :: !c.Move? && !c.RelativeMove?
    decreases |rounds|
  {
    if rounds != [] {
      if rounds[0].Data? {
        NoMoveInRound(m, rounds[0].items);
      }
      NoMoveWhileIgnoring(AfterRound(m, rounds[0]), rounds[1..]);
    }
  }

  /** What becomes of a held move in these messages: `Some(true)` if a barrier comes first, which lets it
      through, `Some(false)` if an entry comes first, which discards it, `None` if it stays held. */
  function FirstRelease(items: seq<Item>): Option<bool>
    decreases |items|
  {
    if items == [] then None
    else if items[0].message.Barrier? then Some(true)
    else if items[0].message.Enter? then Some(false)
    else FirstRelease(items[1..])
  }

  /** A held move is let through by the first barrier or by the end of the first round that does not ask to
      disconnect, unless an entry comes first. */
  predicate Releases(rounds: seq<Round>)
    decreases |rounds|
  {
    rounds != [] &&
    match rounds[0]
    case InfoChanged => Releases(rounds[1..])
    case Data(items, disconnects) =>
      if FirstRelease(items).Some? then FirstRelease(items).value else !disconnects || Releases(rounds[1..])
  }

  predicate ForwardsNoMove(cs: seq<Call>) {
    forall c | c in cs :: !c.Move? && !c.RelativeMove?
  }

  lemma NoMoveInBoth(a: seq<Call>, b: seq<Call>)
    ensures ForwardsNoMove(a + b) <==> ForwardsNoMove(a) && ForwardsNoMove(b)
  {
    if ForwardsNoMove(a + b) {
      assert forall c | c in a :: c in a + b;
      assert forall c | c in b :: c in a + b;
    }
  }

  lemma MessageReleases(m: Mouse, item: Item)
    requires m.ignoring && !item.message.InfoAck?
    ensures Received(m, item).ignoring
    ensures ForwardsNoMove(Calls(m, item)) <==> !(Holding(m) && item.message.Barrier?)
    ensures Holding(Received(m, item)) <==> Holding(m) && !item.message.Barrier? && !item.message.Enter?
  {
    if item.message.Barrier? {
      FlushReleases(m);
      NoMoveInBoth(FlushCalls(m), [Act(item.message.id)]);
    }
  }

  lemma FlushReleases(m: Mouse)
    ensures ForwardsNoMove(FlushCalls(m)) <==> !Holding(m)
  {
    if m.compress {
      assert Move(m.x, m.y) in FlushCalls(m);
    }
    if m.compressRelative {
      assert RelativeMove(m.dx, m.dy) in FlushCalls(m);
    }
  }

  lemma {:induction false} MessagesRelease(m: Mouse, items: seq<Item>)
    requires m.ignoring && Unacknowledged(Data(items, false))
    ensures var r := AllReceived(m, items);
            && r.ignoring && (Holding(r) <==> Holding(m) && FirstRelease(items).None?)
            && (ForwardsNoMove(AllCalls(m, items)) <==> !(Holding(m) && FirstRelease(items) == Some(true)))
    decreases |items|
  {
    hide Received, Calls, ForwardsNoMove, Holding;
    if items == [] {
      NoCalls();
    } else {
      var m' := Received(m, items[0]);
      MessageReleases(m, items[0]);
      MessagesRelease(m', items[1..]);
      NoMoveInBoth(Calls(m, items[0]), AllCalls(m', items[1..]));
    }
  }

  lemma NoCalls()
    ensures ForwardsNoMove([])
  {
  }

  /** While moves are ignored, whatever is held and whatever arrives, a move is forwarded before the server
      acknowledges exactly if one is held and these rounds release it. */
  lemma {:induction false} ForwardedExactlyWhenReleased(m: Mouse, rounds: seq<Round>)
    requires m.ignoring && forall i :: 0 <= i < |rounds| ==> Unacknowledged(rounds[i])
    ensures ForwardsNoMove(RunCalls(m, rounds)) <==> !(Holding(m) && Releases(rounds))
    decreases |rounds|
  {
    hide AllReceived, AllCalls, ForwardsNoMove, FlushCalls, FirstRelease;
    NoCalls();
    if rounds != [] {
      var r, m' := rounds[0], AfterRound(m, rounds[0]);
      if r.Data? {
        var all := AllReceived(m, r.items);
        MessagesRelease(m, r.items);
        FlushReleases(all);
        NoMoveInBoth(AllCalls(m, r.items), FlushCalls(all));
      }
      ForwardedExactlyWhenReleased(m', rounds[1..]);
      NoMoveInBoth(RoundCalls(m, r), RunCalls(m', rounds[1..]));
    }
  }

  /** A disconnect request leaves a held move behind; when the screen then changes, the move is delivered at
      the next barrier although moves are ignored. */
  lemma HeldMoveSurvivesDisconnect()
    ensures var start := Mouse(false, false, 0, 0, 0, 0, false);
            var rounds := [Data([Item(MouseMove(3, 4), true)], true), InfoChanged,
                           Data([Item(Barrier(0), false)], false)];
            RunCalls(start, rounds) == [Move(3, 4), Act(0)] && PlainRun(false, rounds) == [Move(3, 4), Act(0)]
            && AfterRounds(start, rounds[..2]).ignoring && Holding(AfterRounds(start, rounds[..2]))
  {
    var start := Mouse(false, false, 0, 0, 0, 0, false);
    var items := [Item(MouseMove(3, 4), true)];
    var held := Mouse(true, false, 3, 4, 0, 0, false);
    assert items[1..] == [] && AllReceived(start, items) == held && AllCalls(start, items) == [];
    var last := [Item(Barrier(0), false)];
    assert last[1..] == [];
    var rounds := [Data(items, true), InfoChanged, Data(last, false)];
    assert rounds[1..] == [InfoChanged, Data(last, false)] && rounds[1..][1..] == [Data(last, false)];
    var first := [Data(items, true), InfoChanged];
    assert rounds[..2] == first && first[1..] == [InfoChanged] && first[1..][1..] == [];
    assert AfterRounds(start, first) == AfterRounds(held, [InfoChanged]) == AfterRounds(held.(ignoring := true), []);
  }

  // ---------- The program's object ----------

  class ServerProxy {
    var compressMouse: bool
    var compressMouseRelative: bool
    var xMouse: int
    var yMouse: int
    var dxMouse: int
    var dyMouse: int
    var ignoreMouse: bool
    /** The calls made on the client so far. */
    var client: seq<Call>

    ghost function State(): Mouse
      reads this
    {
      Mouse(compressMouse, compressMouseRelative, xMouse, yMouse, dxMouse, dyMouse, ignoreMouse)
    }

    constructor ()
      ensures State() == Mouse(false, false, 0, 0, 0, 0, false) && client == []
    {
      compressMouse, compressMouseRelative, ignoreMouse := false, false, false;
      xMouse, yMouse, dxMouse, dyMouse := 0, 0, 0, 0;
      client := [];
    }

    method FlushCompressedMouse()
      modifies this
      ensures State() == Flushed(old(State())) && client == old(client) + FlushCalls(old(State()))
    {
      if compressMouse {
        compressMouse := false;
        client := client + [Move(xMouse, yMouse)];
      }
      if compressMouseRelative {
        compressMouseRelative := false;
        client := client + [RelativeMove(dxMouse, dyMouse)];
        dxMouse := 0;
        dyMouse := 0;
      }
    }

    method MouseMove(x: int, y: int, more: bool)
      modifies this
      ensures State() == Received(old(State()), Item(Message.MouseMove(x, y), more))
      ensures client == old(client) + Calls(old(State()), Item(Message.MouseMove(x, y), more))
    {
      var ignore := ignoreMouse;
      if !ignore && !compressMouse && more {
        compressMouse := true;
      }
      if compressMouse {
        compressMouseRelative := false;
        ignore := true;
        xMouse, yMouse, dxMouse, dyMouse := x, y, 0, 0;
      }
      if !ignore {
        client := client + [Move(x, y)];
      }
    }

    method MouseRelativeMove(dx: int, dy: int, more: bool)
      modifies this
      ensures State() == Received(old(State()), Item(Message.MouseRelativeMove(dx, dy), more))
      ensures client == old(client) + Calls(old(State()), Item(Message.MouseRelativeMove(dx, dy), more))
    {
      var ignore := ignoreMouse;
      if !ignore && !compressMouseRelative && more {
        compressMouseRelative := true;
      }
      if compressMouseRelative {
        ignore := true;
        dxMouse, dyMouse := dxMouse + dx, dyMouse + dy;
      }
      if !ignore {
        client := client + [RelativeMove(dx, dy)];
      }
    }

    method Entering(x: int, y: int)
      modifies this
      ensures State() == Received(old(State()), Item(Enter(x, y), false)) && client == old(client) + [Entered(x, y)]
    {
      compressMouse := false;
      compressMouseRelative := false;
      dxMouse := 0;
      dyMouse := 0;
      client := client + [Entered(x, y)];
    }

    method ParseMessage(item: Item)
      modifies this
      ensures State() == Received(old(State()), item) && client == old(client) + Calls(old(State()), item)
    {
      match item.message
      case MouseMove(x, y) => MouseMove(x, y, item.more);
      case MouseRelativeMove(dx, dy) => MouseRelativeMove(dx, dy, item.more);
      case Barrier(id) =>
        FlushCompressedMouse();
        client := client + [Act(id)];
      case Enter(x, y) => Entering(x, y);
      case InfoAck => ignoreMouse := false;
      case Other(id) => client := client + [Misc(id)];
    }

    /** Reads messages until there are none left, or until one makes the proxy ask to disconnect. */
    method HandleData(items: seq<Item>, disconnects: bool)
      modifies this
      ensures State() == AfterRound(old(State()), Data(items, disconnects))
      ensures client == old(client) + RoundCalls(old(State()), Data(items, disconnects))
    {
      hide Received, Calls, Flushed, FlushCalls;
      var i := 0;
      while i < |items|
        invariant 0 <= i <= |items|
        invariant AllReceived(State(), items[i..]) == AllReceived(old(State()), items)
        invariant client + AllCalls(State(), items[i..]) == old(client) + AllCalls(old(State()), items)
      {
        ghost var before, state := client, State();
        AllFirst(state, items[i..]);
        assert items[i..][1..] == items[i + 1..];
        ParseMessage(items[i]);
        Associate(before, Calls(state, items[i]), AllCalls(State(), items[i + 1..]));
        i := i + 1;
      }
      assert items[i..] == [];
      Associate(old(client), AllCalls(old(State()), items), FlushCalls(State()));
      if disconnects {
        return;
      }
      FlushCompressedMouse();
    }

    method OnInfoChanged()
      modifies this
      ensures State() == AfterRound(old(State()), InfoChanged) && client == old(client)
    {
      ignoreMouse := true;
    }
  }

  lemma AllFirst(m: Mouse, items: seq<Item>)
    requires items != []
    ensures AllReceived(m, items) == AllReceived(Received(m, items[0]), items[1..])
    ensures AllCalls(m, items) == Calls(m, items[0]) + AllCalls(Received(m, items[0]), items[1..])
  {
  }
}

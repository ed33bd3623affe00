/** The connection life cycle of the client: the objects it owns (stream, connect timer, server proxy with
    its keep-alive alarm), the flags, and the handler table that decides which event can reach which
    handler.  Objects have identities that are never reused. */
module Client {
  import opened Basics

  datatype EventType =
    | ScreenSuspend | ScreenResume | ScreenShapeChanged | ClipboardGrabbed
    | ClipboardSending | FileChunkSending | Timer
    | DataSocketConnected | DataSocketSecureConnected | DataSocketConnectionFailed
    | ClientDisconnectRequested | SocketDisconnected
    | StreamInputReady | StreamOutputError | StreamInputShutdown | StreamOutputShutdown

  datatype Target = Screen | Object(id: nat)

  datatype Key = Key(target: Target, kind: EventType)

  datatype Handler =
    | OnSuspend | OnResume | OnShapeChanged | OnClipboardGrabbed
    | OnConnectTimeout | OnConnected | OnConnectionFailed
    | OnDisconnectRequested | OnDisconnected | OnHello | OnOutputError
    | ProxyData | ProxySendClipboard | ProxySendFile | ProxyKeepAliveAlarm

  /** What the client tells its owner. */
  datatype Notice = Connected | Disconnected | ConnectionFailed | ConnectionRefused

  /** What a server proxy asks for; `message` tells whether there is one. */
  datatype Request = Disconnect(message: bool) | Refuse(message: bool)

  // ---------- The life cycle, seen from outside ----------

  /** How far the connection is. */
  datatype Link =
    | Idle
    | Connecting(stream: nat, timer: nat, secure: bool)
    | Greeting(stream: nat, timer: nat)
    | Online(stream: nat, proxy: nat, alarm: Option<nat>, alarmOn: bool, ready: bool)

  /** `requests` are the disconnect requests the proxy has queued at the stream. */
  datatype Machine = Machine(link: Link, suspended: bool, connectOnResume: bool, nextId: nat,
                             notices: seq<Notice>, requests: seq<Request>)

  /** Which handler, if any, an event reaches: this is the whole handler table. */
  function HandlerAt(link: Link, key: Key): Option<Handler> {
    var onStream := !link.Idle? && key.target == Object(link.stream);
    match key.kind
    case ScreenSuspend => if key.target == Screen then Some(OnSuspend) else None
    case ScreenResume => if key.target == Screen then Some(OnResume) else None
    case ScreenShapeChanged => if key.target == Screen && link.Online? then Some(OnShapeChanged) else None
    case ClipboardGrabbed => if key.target == Screen && link.Online? then Some(OnClipboardGrabbed) else None
    case ClipboardSending => if link.Online? && key.target == Object(link.proxy) then Some(ProxySendClipboard) else None
    case FileChunkSending => if link.Online? && key.target == Object(link.proxy) then Some(ProxySendFile) else None
    case Timer =>
      if (link.Connecting? || link.Greeting?) && key.target == Object(link.timer) then Some(OnConnectTimeout)
      else if link.Online? && link.alarm.Some? && key.target == Object(link.alarm.value) then Some(ProxyKeepAliveAlarm)
      else None
    case DataSocketConnected => if onStream && link.Connecting? && !link.secure then Some(OnConnected) else None
    case DataSocketSecureConnected => if onStream && link.Connecting? && link.secure then Some(OnConnected) else None
    case DataSocketConnectionFailed => if onStream && link.Connecting? then Some(OnConnectionFailed) else None
    case StreamInputReady =>
      if onStream && link.Greeting? then Some(OnHello)
      else if onStream && link.Online? then Some(ProxyData)
      else None
    case ClientDisconnectRequested => if onStream && !link.Connecting? then Some(OnDisconnectRequested) else None
    case StreamOutputError => if onStream && !link.Connecting? then Some(OnOutputError) else None
    case _ => if onStream && !link.Connecting? then Some(OnDisconnected) else None
  }

  /** The objects that exist. */
  function Objects(link: Link): set<nat> {
    match link
    case Idle => {}
    case Connecting(stream, timer, _) => {stream, timer}
    case Greeting(stream, timer) => {stream, timer}
    case Online(stream, proxy, alarm, _, _) => {stream, proxy} + if alarm.Some? then {alarm.value} else {}
  }

  /** Outcomes the environment decides: how far an attempt to connect gets, what the server says hello with. */
  datatype Attempt = NoSocket | SocketRefuses(secure: bool) | UnderWay(secure: bool)

  datatype Hello = WrongProtocol | WrongVersion | Welcome

  /** What one round of server messages does to the connection. */
  datatype Act = KeepAlive | SetRate(on: bool) | SetOptions | Ask(request: Request)

  datatype Detail = Detail(attempt: Attempt, hello: Hello, request: Option<Request>, acts: seq<Act>)

  datatype Stimulus = Connect(attempt: Attempt) | Occurs(key: Key, detail: Detail)

  function Told(m: Machine, notice: Notice): Machine {
    m.(notices := m.notices + [notice])
  }

  function Attempted(m: Machine, attempt: Attempt): Machine {
    if m.link != Idle then m
    else if m.suspended then m.(connectOnResume := true)
    else match attempt
      case NoSocket => Told(m, ConnectionFailed)
      case SocketRefuses(_) => Told(m.(nextId := m.nextId + 2), ConnectionFailed)
      case UnderWay(secure) => m.(link := Connecting(m.nextId, m.nextId + 1, secure), nextId := m.nextId + 2)
  }

  function Dropped(m: Machine, notice: Notice): Machine {
    Told(m.(link := Idle), notice)
  }

  function Requested(m: Machine, request: Option<Request>): Machine {
    var m' := m.(connectOnResume := false);
    match request
    case None => Dropped(m', Disconnected)
    case Some(Disconnect(message)) => Dropped(m', if message then ConnectionFailed else Disconnected)
    case Some(Refuse(message)) => if message then Dropped(m', ConnectionRefused) else m'.(link := Idle)
  }

  function AlarmReset(m: Machine): Machine
    requires m.link.Online?
  {
    if m.link.alarmOn then m.(link := m.link.(alarm := Some(m.nextId)), nextId := m.nextId + 1)
    else m.(link := m.link.(alarm := None))
  }

  function Acted(m: Machine, act: Act): (r: Machine)
    requires m.link.Online?
    ensures r.link.Online? && r.link.stream == m.link.stream && r.link.proxy == m.link.proxy
  {
    match act
    case KeepAlive => AlarmReset(m)
    case SetRate(on) => AlarmReset(m.(link := m.link.(alarmOn := on)))
    case SetOptions => if m.link.ready then m else Told(m.(link := m.link.(ready := true)), Connected)
    case Ask(request) => m.(requests := m.requests + [request])
  }

  function AllActed(m: Machine, acts: seq<Act>): (r: Machine)
    requires m.link.Online?
    ensures r.link.Online?
    decreases |acts|
  {
    if acts == [] then m else AllActed(Acted(m, acts[0]), acts[1..])
  }

  function Greeted(m: Machine, hello: Hello): Machine
    requires m.link.Greeting?
  {
    match hello
    case Welcome =>
      m.(link := Online(m.link.stream, m.nextId, Some(m.nextId + 1), true, false), nextId := m.nextId + 2)
    case _ => Dropped(m, ConnectionFailed)
  }

  function Step(m: Machine, s: Stimulus): Machine {
    match s
    case Connect(attempt) => Attempted(m, attempt)
    case Occurs(key, detail) =>
      match HandlerAt(m.link, key)
      case None => m
      case Some(h) =>
        match h
        case OnSuspend =>
          if m.suspended then m
          else Requested(m, None).(suspended := true, connectOnResume := m.link.Online?)
        case OnResume =>
          if !m.suspended then m
          else if !m.connectOnResume then m.(suspended := false)
          else Attempted(m.(suspended := false, connectOnResume := false), detail.attempt)
        case OnConnected => m.(link := Greeting(m.link.stream, m.link.timer))
        case OnConnectionFailed => Dropped(m, ConnectionFailed)
        case OnConnectTimeout => Dropped(m, ConnectionFailed)
        case OnHello => Greeted(m, detail.hello)
        case OnDisconnectRequested => Requested(m, detail.request)
        case OnDisconnected => Dropped(m, Disconnected)
        case OnOutputError => Dropped(m, Disconnected)
        case ProxyData => AllActed(m, detail.acts)
        case ProxyKeepAliveAlarm => m.(requests := m.requests + [Disconnect(true)])
        case _ => m
  }

  function Steps(m: Machine, stimuli: seq<Stimulus>): Machine
    decreases |stimuli|
  {
    if stimuli == [] then m else Steps(Step(m, stimuli[0]), stimuli[1..])
  }

  /** The objects of the link are distinct, older than the next one, and an alarm that is on is set. */
  predicate LinkSound(link: Link, nextId: nat) {
    match link
    case Idle => true
    case Connecting(stream, timer, _) => stream != timer && stream < nextId && timer < nextId
    case Greeting(stream, timer) => stream != timer && stream < nextId && timer < nextId
    case Online(stream, proxy, alarm, on, _) =>
      && stream != proxy && stream < nextId && proxy < nextId && (on <==> alarm.Some?)
      && (alarm.Some? ==> alarm.value != stream && alarm.value != proxy && alarm.value < nextId)
  }

  /** The invariant of the life cycle. */
  ghost predicate Sound(m: Machine) {
    && LinkSound(m.link, m.nextId)
    && (m.suspended ==> m.link == Idle)
    && (m.connectOnResume ==> m.suspended)
  }

  lemma StepKeepsSound(m: Machine, s: Stimulus)
    requires Sound(m)
    ensures Sound(Step(m, s))
  {
    if s.Occurs? && HandlerAt(m.link, s.key) == Some(ProxyData) {
      ActsKeepSound(m, s.detail.acts);
    }
  }

  lemma {:induction false} ActsKeepSound(m: Machine, acts: seq<Act>)
    requires Sound(m) && m.link.Online?
    ensures Sound(AllActed(m, acts))
    decreases |acts|
  {
    if acts != [] {
      ActsKeepSound(Acted(m, acts[0]), acts[1..]);
    }
  }

  lemma {:induction false} RunKeepsSound(m: Machine, stimuli: seq<Stimulus>)
    requires Sound(m)
    ensures Sound(Steps(m, stimuli))
    decreases |stimuli|
  {
    hide Sound, Step;
    if stimuli != [] {
      StepKeepsSound(m, stimuli[0]);
      RunKeepsSound(Step(m, stimuli[0]), stimuli[1..]);
    }
  }

  // ---------- What leads where ----------

  predicate OnStream(m: Machine, s: Stimulus, kind: EventType) {
    s.Occurs? && !m.link.Idle? && s.key == Key(Object(m.link.stream), kind)
  }

  /** An attempt to connect gets under way, at once or on waking up. */
  predicate Attempts(m: Machine, s: Stimulus) {
    && m.link.Idle?
    && ((s.Connect? && !m.suspended && s.attempt.UnderWay?)
        || (&& s.Occurs? && s.key == Key(Screen, ScreenResume)
            && m.suspended && m.connectOnResume && s.detail.attempt.UnderWay?))
  }

  /** Which steps lead to each stage: an attempt that gets under way, the event of its kind of socket, and a
      greeting of the right protocol and version. */
  lemma StagesExactly(m: Machine, s: Stimulus)
    requires Sound(m)
    ensures !m.link.Connecting? && Step(m, s).link.Connecting? <==> Attempts(m, s)
    ensures !m.link.Greeting? && Step(m, s).link.Greeting? <==>
              && m.link.Connecting?
              && OnStream(m, s, if m.link.secure then DataSocketSecureConnected else DataSocketConnected)
    ensures !m.link.Online? && Step(m, s).link.Online? <==>
              m.link.Greeting? && OnStream(m, s, StreamInputReady) && s.detail.hello == Welcome
  {
    hide AllActed;
    if s.Occurs? && HandlerAt(m.link, s.key) == Some(ProxyData) {
      assert m.link.Online?;
    }
  }

  /** A greeting of the wrong protocol or version ends the attempt as a failure. */
  lemma WrongHelloFails(m: Machine, s: Stimulus)
    requires Sound(m) && m.link.Greeting? && OnStream(m, s, StreamInputReady) && s.detail.hello != Welcome
    ensures Step(m, s) == m.(link := Idle, notices := m.notices + [ConnectionFailed])
  {
  }

  /** The notice of an ending: `None` if the step does not end the connection. A connection that is ended by a
      request without a message is refused in silence. */
  function Ending(m: Machine, s: Stimulus): Option<seq<Notice>> {
    if !s.Occurs? || m.link.Idle? then None
    else if s.key == Key(Screen, ScreenSuspend) then if m.suspended then None else Some([Disconnected])
    else if m.link.Connecting? then
      if s.key == Key(Object(m.link.timer), Timer) || OnStream(m, s, DataSocketConnectionFailed)
      then Some([ConnectionFailed]) else None
    else if m.link.Greeting? && s.key == Key(Object(m.link.timer), Timer) then Some([ConnectionFailed])
    else if m.link.Greeting? && OnStream(m, s, StreamInputReady) && s.detail.hello != Welcome
    then Some([ConnectionFailed])
    else if OnStream(m, s, ClientDisconnectRequested) then
      match s.detail.request
      case None => Some([Disconnected])
      case Some(Disconnect(message)) => Some([if message then ConnectionFailed else Disconnected])
      case Some(Refuse(message)) => Some(if message then [ConnectionRefused] else [])
    else if OnStream(m, s, StreamOutputError) || OnStream(m, s, SocketDisconnected)
            || OnStream(m, s, StreamInputShutdown) || OnStream(m, s, StreamOutputShutdown) then Some([Disconnected])
    else None
  }

  /** Which steps end a connection or an attempt, and what the owner is told then. */
  lemma EndingsExactly(m: Machine, s: Stimulus)
    requires Sound(m) && !m.link.Idle?
    ensures Step(m, s).link.Idle? <==> Ending(m, s).Some?
    ensures Step(m, s).link.Idle? ==> Step(m, s).notices == m.notices + Ending(m, s).value
  {
    hide AllActed;
    if s.Occurs? && HandlerAt(m.link, s.key) == Some(ProxyData) {
      assert m.link.Online? && OnStream(m, s, StreamInputReady);
    } else {
      EndingOtherwise(m, s);
    }
  }

  lemma EndingOtherwise(m: Machine, s: Stimulus)
    requires Sound(m) && !m.link.Idle? && !(s.Occurs? && HandlerAt(m.link, s.key) == Some(ProxyData))
    ensures Step(m, s).link.Idle? <==> Ending(m, s).Some?
    ensures Step(m, s).link.Idle? ==> Step(m, s).notices == m.notices + Ending(m, s).value
  {
    hide AllActed;
    assert m.notices + [] == m.notices;
  }

  /** Going to sleep and waking up: the client falls asleep only when the screen is suspended, wakes up only
      when it resumes, and remembers to connect if it was online, or is asked to connect meanwhile. */
  lemma SleepExactly(m: Machine, s: Stimulus)
    requires Sound(m)
    ensures var r := Step(m, s);
            && (r.suspended <==> if s.Occurs? && s.key == Key(Screen, ScreenSuspend) then true
                                 else if s.Occurs? && s.key == Key(Screen, ScreenResume) then false else m.suspended)
            && (r.suspended && !m.suspended ==> (r.connectOnResume <==> m.link.Online?))
            && (r.suspended && !m.suspended ==> r.notices == m.notices + [Disconnected])
            && (r.suspended && m.suspended ==> (r.connectOnResume <==> m.connectOnResume || s.Connect?))
  {
    hide AllActed;
    if s.Occurs? && HandlerAt(m.link, s.key) == Some(ProxyData) {
      ActsLeaveAwake(m, s.detail.acts);
    }
  }

  lemma {:induction false} ActsLeaveAwake(m: Machine, acts: seq<Act>)
    requires m.link.Online?
    ensures var r := AllActed(m, acts); r.suspended == m.suspended && r.connectOnResume == m.connectOnResume
    decreases |acts|
  {
    if acts != [] {
      ActsLeaveAwake(Acted(m, acts[0]), acts[1..]);
    }
  }

  /** An attempt that does not get under way fails at once; one that is asked for while there is a connection
      is nothing, and one asked for while asleep is remembered. */
  lemma AttemptForms(m: Machine, s: Stimulus)
    requires Sound(m)
    ensures var r, attempt := Step(m, s), if s.Connect? then s.attempt else s.detail.attempt;
            && (s.Connect? && !m.link.Idle? ==> r == m)
            && (s.Connect? && m.suspended ==> r == m.(connectOnResume := true))
            && (Starts(m, s) == 1 && !attempt.UnderWay? ==>
                  r.link.Idle? && r.notices == m.notices + [ConnectionFailed] && !r.connectOnResume)
            && (Starts(m, s) == 1 && attempt.UnderWay? ==>
                  r.link.Connecting? && r.link.secure == attempt.secure && r.notices == m.notices && !r.connectOnResume)
  {
    hide AllActed;
  }

  /** The handlers that only a server proxy has. */
  lemma ProxyHandlers(link: Link)
    ensures link.Online? <==> HandlerAt(link, Key(Screen, ScreenShapeChanged)) == Some(OnShapeChanged)
    ensures link.Online? <==> HandlerAt(link, Key(Screen, ClipboardGrabbed)) == Some(OnClipboardGrabbed)
    ensures forall id: nat :: link.Online? && link.proxy == id
                              <==> HandlerAt(link, Key(Object(id), ClipboardSending)) == Some(ProxySendClipboard)
    ensures forall id: nat :: link.Online? && link.proxy == id
                              <==> HandlerAt(link, Key(Object(id), FileChunkSending)) == Some(ProxySendFile)
    ensures forall id: nat :: link.Online? && link.stream == id
                              <==> HandlerAt(link, Key(Object(id), StreamInputReady)) == Some(ProxyData)
  {
  }

  /** When the alarm goes off, a disconnect with a message is asked for, and nothing else happens. */
  lemma AlarmForms(m: Machine, detail: Detail)
    requires Sound(m) && m.link.Online? && m.link.alarm.Some?
    ensures var alarm := Key(Object(m.link.alarm.value), Timer);
            Step(m, Occurs(alarm, detail)) == m.(requests := m.requests + [Disconnect(true)])
  {
  }

  /** What each message does: a keep-alive sets the alarm anew if it is on, a new rate turns it on or off, the
      first options make the client ready and tell so, and a request is queued. */
  lemma ActForms(m: Machine, act: Act)
    requires Sound(m) && m.link.Online?
    ensures var r := Acted(m, act);
            && (act.KeepAlive? ==> r.link.alarmOn == m.link.alarmOn
                                   && r.link.alarm == if m.link.alarmOn then Some(m.nextId) else None)
            && (act.SetRate? ==> r.link.alarmOn == act.on && r.link.alarm == if act.on then Some(m.nextId) else None)
            && (act.KeepAlive? || act.SetRate? ==> r.link.ready == m.link.ready && r.notices == m.notices)
            && (act.SetOptions? ==> r.link == m.link.(ready := true)
                                    && r.notices == m.notices + (if m.link.ready then [] else [Connected]))
            && r.requests == m.requests + (if act.Ask? then [act.request] else [])
            && (act.Ask? ==> r.link == m.link && r.notices == m.notices)
  {
    assert m.notices + [] == m.notices && m.requests + [] == m.requests;
  }

  // ---------- Every attempt is answered once ----------

  /** How many of the notices end an attempt. */
  function Endings(notices: seq<Notice>): nat {
    if notices == [] then 0
    else Endings(notices[..|notices| - 1]) + if notices[|notices| - 1].Connected? then 0 else 1
  }

  /** The attempt under way or the connection it led to. */
  function Active(m: Machine): nat {
    if m.link.Idle? then 0 else 1
  }

  /** Whether the step starts an attempt. */
  function Starts(m: Machine, s: Stimulus): nat {
    if m.link.Idle? && ((s.Connect? && !m.suspended)
                        || (s.Occurs? && s.key == Key(Screen, ScreenResume) && m.suspended && m.connectOnResume))
    then 1 else 0
  }

  /** Going to sleep without a connection is announced as a disconnection too. */
  function SleepsIdle(m: Machine, s: Stimulus): nat {
    if s.Occurs? && s.key == Key(Screen, ScreenSuspend) && !m.suspended && m.link.Idle? then 1 else 0
  }

  /** A refusal without a message ends the connection without a notice. */
  function RefusedSilently(m: Machine, s: Stimulus): nat {
    if s.Occurs? && HandlerAt(m.link, s.key) == Some(OnDisconnectRequested) && s.detail.request == Some(Refuse(false))
    then 1 else 0
  }

  function Sum(f: (Machine, Stimulus) -> nat, m: Machine, stimuli: seq<Stimulus>): nat
    decreases |stimuli|
  {
    if stimuli == [] then 0 else f(m, stimuli[0]) + Sum(f, Step(m, stimuli[0]), stimuli[1..])
  }

  lemma EndingsTold(notices: seq<Notice>, notice: Notice)
    ensures Endings(notices + [notice]) == Endings(notices) + if notice.Connected? then 0 else 1
  {
    assert (notices + [notice])[..|notices|] == notices;
  }

  lemma {:induction false} ActsKeepEndings(m: Machine, acts: seq<Act>)
    requires m.link.Online?
    ensures Endings(AllActed(m, acts).notices) == Endings(m.notices)
    decreases |acts|
  {
    if acts != [] {
      EndingsTold(m.notices, Connected);
      ActsKeepEndings(Acted(m, acts[0]), acts[1..]);
    }
  }

  lemma StepBalance(m: Machine, s: Stimulus)
    requires Sound(m)
    ensures Endings(Step(m, s).notices) + Active(Step(m, s)) + RefusedSilently(m, s)
         == Endings(m.notices) + Active(m) + Starts(m, s) + SleepsIdle(m, s)
  {
    EndingsTold(m.notices, Disconnected);
    EndingsTold(m.notices, ConnectionFailed);
    EndingsTold(m.notices, ConnectionRefused);
    hide Endings;
    if s.Occurs? && HandlerAt(m.link, s.key) == Some(ProxyData) {
      ActsKeepEndings(m, s.detail.acts);
    }
  }

  /** In every run, the owner is told of exactly one ending for every attempt that has been started and is
      over, and of one for every time the machine goes to sleep unconnected. */
  lemma {:induction false} EveryAttemptAnswered(m: Machine, stimuli: seq<Stimulus>)
    requires Sound(m)
    ensures var r := Steps(m, stimuli);
            Endings(r.notices) + Active(r) + Sum(RefusedSilently, m, stimuli)
            == Endings(m.notices) + Active(m) + Sum(Starts, m, stimuli) + Sum(SleepsIdle, m, stimuli)
    decreases |stimuli|
  {
    hide Sound, Step, Endings, Active, Starts, SleepsIdle, RefusedSilently;
    if stimuli != [] {
      StepKeepsSound(m, stimuli[0]);
      StepBalance(m, stimuli[0]);
      EveryAttemptAnswered(Step(m, stimuli[0]), stimuli[1..]);
    }
  }

  // ---------- The program's objects ----------

  function Lookup(handlers: map<Key, Handler>, key: Key): Option<Handler> {
    if key in handlers then Some(handlers[key]) else None
  }

  function Put(handlers: map<Key, Handler>, kind: EventType, target: Target, handler: Handler): (r: map<Key, Handler>)
    ensures forall key :: Lookup(r, key) == if key == Key(target, kind) then Some(handler) else Lookup(handlers, key)
  {
    handlers[Key(target, kind) := handler]
  }

  function Cut(handlers: map<Key, Handler>, kinds: set<EventType>, target: Target): (r: map<Key, Handler>)
    ensures forall key :: Lookup(r, key) ==
                          if key.target == target && key.kind in kinds then None else Lookup(handlers, key)
  {
    map key | key in handlers && !(key.target == target && key.kind in kinds) :: handlers[key]
  }

  /** The handlers of an established connection that is still waiting for the server's hello. */
  function PutConnection(handlers: map<Key, Handler>, target: Target): (r: map<Key, Handler>)
    ensures forall key: Key :: key.target != target || key.kind !in CONNECTION_KINDS ==>
              Lookup(r, key) == Lookup(handlers, key)
    ensures Lookup(r, Key(target, ClientDisconnectRequested)) == Some(OnDisconnectRequested)
    ensures Lookup(r, Key(target, SocketDisconnected)) == Some(OnDisconnected)
    ensures Lookup(r, Key(target, StreamInputReady)) == Some(OnHello)
    ensures Lookup(r, Key(target, StreamOutputError)) == Some(OnOutputError)
    ensures Lookup(r, Key(target, StreamInputShutdown)) == Some(OnDisconnected)
    ensures Lookup(r, Key(target, StreamOutputShutdown)) == Some(OnDisconnected)
  {
    var a := Put(handlers, ClientDisconnectRequested, target, OnDisconnectRequested);
    var b := Put(a, SocketDisconnected, target, OnDisconnected);
    var c := Put(b, StreamInputReady, target, OnHello);
    var d := Put(c, StreamOutputError, target, OnOutputError);
    var e := Put(d, StreamInputShutdown, target, OnDisconnected);
    Put(e, StreamOutputShutdown, target, OnDisconnected)
  }

  function MoveAlarm(handlers: map<Key, Handler>, before: Option<nat>, after: Option<nat>): (r: map<Key, Handler>)
    ensures forall key :: Lookup(r, key) ==
                          if after.Some? && key == Key(Object(after.value), Timer) then Some(ProxyKeepAliveAlarm)
                          else if before.Some? && key == Key(Object(before.value), Timer) then None
                          else Lookup(handlers, key)
  {
    var cut := if before.Some? then Cut(handlers, {Timer}, Object(before.value)) else handlers;
    if after.Some? then Put(cut, Timer, Object(after.value), ProxyKeepAliveAlarm) else cut
  }

  /** The handlers of a new proxy, whose alarm has the next id. */
  function PutProxy(handlers: map<Key, Handler>, stream: Target, id: nat): map<Key, Handler> {
    var a := Put(handlers, StreamInputReady, stream, ProxyData);
    var b := Put(a, ClipboardSending, Object(id), ProxySendClipboard);
    var c := Put(b, FileChunkSending, Object(id), ProxySendFile);
    Put(c, Timer, Object(id + 1), ProxyKeepAliveAlarm)
  }

  function PutScreen(handlers: map<Key, Handler>, stream: Target, id: nat): map<Key, Handler> {
    var a := PutProxy(handlers, stream, id);
    Put(Put(a, ScreenShapeChanged, Screen, OnShapeChanged), ClipboardGrabbed, Screen, OnClipboardGrabbed)
  }

  /** The parts of the event queue the life cycle uses, and the objects that exist. */
  class Events {
    var handlers: map<Key, Handler>
    var live: set<nat>
    var nextId: nat
    var notices: seq<Notice>
    var requests: seq<Request>

    constructor ()
      ensures handlers == map[] && live == {} && nextId == 0 && notices == [] && requests == []
    {
      handlers, live, nextId, notices, requests := map[], {}, 0, [], [];
    }

    method AddHandler(kind: EventType, target: Target, handler: Handler)
      modifies this`handlers
      ensures handlers == Put(old(handlers), kind, target, handler)
    {
      handlers := handlers[Key(target, kind) := handler];
    }

    method RemoveHandler(kind: EventType, target: Target)
      modifies this`handlers
      ensures handlers == Cut(old(handlers), {kind}, target)
    {
      handlers := handlers - {Key(target, kind)};
    }

    method New() returns (id: nat)
      modifies this`live, this`nextId
      ensures id == old(nextId) && nextId == old(nextId) + 1 && live == old(live) + {id}
    {
      id := nextId;
      nextId := nextId + 1;
      live := live + {id};
    }

    /** Destroying an object twice is not possible. */
    method Delete(id: nat)
      requires id in live
      modifies this`live
      ensures live == old(live) - {id}
    {
      live := live - {id};
    }

    method AddNotice(notice: Notice)
      modifies this`notices
      ensures notices == old(notices) + [notice]
    {
      notices := notices + [notice];
    }

    method AddRequest(request: Request)
      modifies this`requests
      ensures requests == old(requests) + [request]
    {
      requests := requests + [request];
    }
  }

  /** The handler table is the one the link calls for, entry by entry. */
  ghost predicate WiredTo(handlers: map<Key, Handler>, link: Link) {
    forall key :: Lookup(handlers, key) == HandlerAt(link, key)
  }

  const CONNECTING_KINDS := {DataSocketConnected, DataSocketSecureConnected, DataSocketConnectionFailed}
  const CONNECTION_KINDS := {StreamInputReady, StreamOutputError, StreamInputShutdown, StreamOutputShutdown,
                             SocketDisconnected, ClientDisconnectRequested}

  /** The server proxy: `handshaken` is which parser it uses. */
  datatype Proxy = Proxy(id: nat, stream: nat, alarmTimer: Option<nat>, alarmOn: bool, handshaken: bool)

  /** The entries a proxy has of its own. */
  predicate OfProxy(proxy: Proxy, key: Key) {
    || (proxy.alarmTimer.Some? && key == Key(Object(proxy.alarmTimer.value), Timer))
    || key == Key(Object(proxy.stream), StreamInputReady)
    || key == Key(Object(proxy.id), ClipboardSending)
    || key == Key(Object(proxy.id), FileChunkSending)
  }

  function CutProxy(handlers: map<Key, Handler>, proxy: Proxy): (r: map<Key, Handler>)
    ensures forall key :: Lookup(r, key) == if OfProxy(proxy, key) then None else Lookup(handlers, key)
  {
    var a := MoveAlarm(handlers, proxy.alarmTimer, None);
    var b := Cut(a, {StreamInputReady}, Object(proxy.stream));
    var c := Cut(b, {ClipboardSending}, Object(proxy.id));
    Cut(c, {FileChunkSending}, Object(proxy.id))
  }

  function CutScreen(handlers: map<Key, Handler>, proxy: Proxy): (r: map<Key, Handler>)
    ensures forall key :: Lookup(r, key) ==
                          if OfProxy(proxy, key) || key == Key(Screen, ScreenShapeChanged)
                             || key == Key(Screen, ClipboardGrabbed)
                          then None else Lookup(handlers, key)
  {
    CutProxy(Cut(Cut(handlers, {ScreenShapeChanged}, Screen), {ClipboardGrabbed}, Screen), proxy)
  }

  class Client {
    const events: Events
    var stream: Option<nat>
    var timer: Option<nat>
    var server: Option<Proxy>
    var ready: bool
    var suspended: bool
    var connectOnResume: bool
    var screenEnabled: bool
    ghost var link: Link

    ghost function State(): Machine
      reads this, events
    {
      Machine(link, suspended, connectOnResume, events.nextId, events.notices, events.requests)
    }

    /** The fields hold exactly the objects of the link. */
    ghost predicate Holds()
      reads this
    {
      && stream == (if link.Idle? then None else Some(link.stream))
      && timer == (if link.Connecting? || link.Greeting? then Some(link.timer) else None)
      && server == (if link.Online?
                    then Some(Proxy(link.proxy, link.stream, link.alarm, link.alarmOn, link.ready)) else None)
      && ready == (link.Online? && link.ready)
      && screenEnabled == ready
    }

    /** Everything but the flags of suspension, which change one at a time. */
    ghost predicate Intact()
      reads this, events
    {
      Holds() && WiredTo(events.handlers, link) && events.live == Objects(link) && LinkSound(link, events.nextId)
    }

    ghost predicate Valid()
      reads this, events
    {
      Intact() && Sound(State())
    }

    /** The invariants in terms of the program's own fields. */
    lemma FieldInvariants()
      requires Valid()
      ensures timer.Some? <==> stream.Some? && server.None?
      ensures server.Some? ==> stream.Some?
      ensures ready ==> server.Some?
      ensures suspended ==> stream.None?
      ensures connectOnResume ==> suspended
      ensures forall key :: key in events.handlers ==> key.target == Screen || key.target.id in events.live
      ensures forall id :: id in events.live ==> id < events.nextId
    {
      forall key | key in events.handlers
        ensures key.target == Screen || key.target.id in events.live
      {
        assert Lookup(events.handlers, key) == HandlerAt(link, key);
      }
    }

    constructor ()
      ensures Valid() && fresh(events) && State() == Machine(Idle, false, false, 0, [], [])
    {
      events := new Events();
      stream, timer, server := None, None, None;
      ready, suspended, connectOnResume, screenEnabled := false, false, false, false;
      link := Idle;
      new;
      events.AddHandler(ScreenSuspend, Screen, OnSuspend);
      events.AddHandler(ScreenResume, Screen, OnResume);
    }

    // ---------- Setting up and cleaning up ----------

    method SetupConnecting(secure: bool)
      requires stream.Some?
      modifies events`handlers
      ensures events.handlers == Put(Put(old(events.handlers),
                                         if secure then DataSocketSecureConnected else DataSocketConnected,
                                         Object(stream.value), OnConnected),
                                     DataSocketConnectionFailed, Object(stream.value), OnConnectionFailed)
    {
      if secure {
        events.AddHandler(DataSocketSecureConnected, Object(stream.value), OnConnected);
      } else {
        events.AddHandler(DataSocketConnected, Object(stream.value), OnConnected);
      }
      events.AddHandler(DataSocketConnectionFailed, Object(stream.value), OnConnectionFailed);
    }

    method SetupConnection()
      requires stream.Some?
      modifies events`handlers
      ensures events.handlers == PutConnection(old(events.handlers), Object(stream.value))
    {
      hide Put;
      var target := Object(stream.value);
      events.AddHandler(ClientDisconnectRequested, target, OnDisconnectRequested);
      events.AddHandler(SocketDisconnected, target, OnDisconnected);
      events.AddHandler(StreamInputReady, target, OnHello);
      events.AddHandler(StreamOutputError, target, OnOutputError);
      events.AddHandler(StreamInputShutdown, target, OnDisconnected);
      events.AddHandler(StreamOutputShutdown, target, OnDisconnected);
    }

    method SetupTimer()
      requires timer.None?
      modifies this`timer, events`handlers, events`live, events`nextId
      ensures timer == Some(old(events.nextId)) && events.nextId == old(events.nextId) + 1
      ensures events.live == old(events.live) + {old(events.nextId)}
      ensures events.handlers == Put(old(events.handlers), Timer, Object(old(events.nextId)), OnConnectTimeout)
    {
      var id := events.New();
      timer := Some(id);
      events.AddHandler(Timer, Object(id), OnConnectTimeout);
    }

    method CleanupTimer()
      requires timer.Some? ==> timer.value in events.live
      modifies this`timer, events`handlers, events`live
      ensures timer.None?
      ensures old(timer).None? ==> events.handlers == old(events.handlers) && events.live == old(events.live)
      ensures old(timer).Some? ==> events.handlers == Cut(old(events.handlers), {Timer}, Object(old(timer).value))
                                   && events.live == old(events.live) - {old(timer).value}
    {
      if timer.Some? {
        events.RemoveHandler(Timer, Object(timer.value));
        events.Delete(timer.value);
        timer := None;
      }
    }

    method CleanupConnecting()
      modifies events`handlers
      ensures stream.None? ==> events.handlers == old(events.handlers)
      ensures stream.Some? ==> forall key :: Lookup(events.handlers, key) ==
                                 if key.target == Object(stream.value) && key.kind in CONNECTING_KINDS then None
                                 else Lookup(old(events.handlers), key)
    {
      if stream.Some? {
        events.RemoveHandler(DataSocketConnected, Object(stream.value));
        events.RemoveHandler(DataSocketSecureConnected, Object(stream.value));
        events.RemoveHandler(DataSocketConnectionFailed, Object(stream.value));
      }
    }

    method CleanupStream()
      requires stream.Some? ==> stream.value in events.live
      modifies this`stream, events`live
      ensures stream.None?
      ensures events.live == if old(stream).Some? then old(events.live) - {old(stream).value} else old(events.live)
    {
      if stream.Some? {
        events.Delete(stream.value);
      }
      stream := None;
    }

    method CleanupConnection()
      requires stream.Some? ==> stream.value in events.live
      modifies this`stream, events`handlers, events`live
      ensures stream.None?
      ensures old(stream).None? ==> events.handlers == old(events.handlers) && events.live == old(events.live)
      ensures old(stream).Some? ==>
                && events.live == old(events.live) - {old(stream).value}
                && forall key :: Lookup(events.handlers, key) ==
                                 if key.target == Object(old(stream).value) && key.kind in CONNECTION_KINDS then None
                                 else Lookup(old(events.handlers), key)
    {
      if stream.Some? {
        var target := Object(stream.value);
        events.RemoveHandler(StreamInputReady, target);
        events.RemoveHandler(StreamOutputError, target);
        events.RemoveHandler(StreamInputShutdown, target);
        events.RemoveHandler(StreamOutputShutdown, target);
        events.RemoveHandler(SocketDisconnected, target);
        events.RemoveHandler(ClientDisconnectRequested, target);
        CleanupStream();
      }
    }

    // ---------- The server proxy ----------

    /** Cancels the keep-alive alarm and sets it again if it is on. */
    method ResetKeepAliveAlarm()
      requires server.Some? && (server.value.alarmTimer.Some? ==> server.value.alarmTimer.value in events.live)
      modifies this`server, events`handlers, events`live, events`nextId
      ensures server == Some(old(server).value.(
                               alarmTimer := if old(server).value.alarmOn then Some(old(events.nextId)) else None))
      ensures events.nextId == old(events.nextId) + if old(server).value.alarmOn then 1 else 0
      ensures var before := old(server).value.alarmTimer;
              && events.live == (if before.Some? then old(events.live) - {before.value} else old(events.live))
                                + (if old(server).value.alarmOn then {old(events.nextId)} else {})
              && events.handlers == MoveAlarm(old(events.handlers), before,
                                               if old(server).value.alarmOn then Some(old(events.nextId)) else None)
    {
      var proxy := server.value;
      if proxy.alarmTimer.Some? {
        events.RemoveHandler(Timer, Object(proxy.alarmTimer.value));
        events.Delete(proxy.alarmTimer.value);
        proxy := proxy.(alarmTimer := None);
      }
      if proxy.alarmOn {
        var id := events.New();
        proxy := proxy.(alarmTimer := Some(id));
        events.AddHandler(Timer, Object(id), ProxyKeepAliveAlarm);
      }
      server := Some(proxy);
    }

    method SetKeepAliveRate(on: bool)
      requires server.Some? && (server.value.alarmTimer.Some? ==> server.value.alarmTimer.value in events.live)
      modifies this`server, events`handlers, events`live, events`nextId
      ensures server == Some(old(server).value.(alarmOn := on,
                                                alarmTimer := if on then Some(old(events.nextId)) else None))
      ensures events.nextId == old(events.nextId) + if on then 1 else 0
      ensures var before := old(server).value.alarmTimer;
              && events.live == (if before.Some? then old(events.live) - {before.value} else old(events.live))
                                + (if on then {old(events.nextId)} else {})
              && events.handlers == MoveAlarm(old(events.handlers), before,
                                               if on then Some(old(events.nextId)) else None)
    {
      server := Some(server.value.(alarmOn := on));
      ResetKeepAliveAlarm();
    }

    /** The proxy's constructor: takes over the stream's input and starts the alarm. */
    method NewProxy()
      requires stream.Some?
      modifies this`server, events`handlers, events`live, events`nextId
      ensures var id := old(events.nextId);
              && server == Some(Proxy(id, stream.value, Some(id + 1), true, false))
              && events.nextId == id + 2 && events.live == old(events.live) + {id, id + 1}
              && events.handlers == PutProxy(old(events.handlers), Object(stream.value), id)
    {
      hide Put;
      var id := events.New();
      server := Some(Proxy(id, stream.value, None, false, false));
      events.AddHandler(StreamInputReady, Object(stream.value), ProxyData);
      events.AddHandler(ClipboardSending, Object(id), ProxySendClipboard);
      events.AddHandler(FileChunkSending, Object(id), ProxySendFile);
      SetKeepAliveRate(true);
    }

    method SetupScreen()
      requires stream.Some? && server.None?
      modifies this`ready, this`server, events`handlers, events`live, events`nextId
      ensures var id := old(events.nextId);
              && !ready && server == Some(Proxy(id, stream.value, Some(id + 1), true, false))
              && events.nextId == id + 2 && events.live == old(events.live) + {id, id + 1}
              && events.handlers == PutScreen(old(events.handlers), Object(stream.value), id)
    {
      hide Put, PutProxy;
      assert server.None?;
      ready := false;
      NewProxy();
      events.AddHandler(ScreenShapeChanged, Screen, OnShapeChanged);
      events.AddHandler(ClipboardGrabbed, Screen, OnClipboardGrabbed);
    }

    /** The proxy's destructor. */
    method DeleteProxy()
      requires server.Some? && server.value.id in events.live && server.value.alarmTimer != Some(server.value.id)
      requires server.value.alarmTimer.Some? ==> server.value.alarmTimer.value in events.live
      modifies this`server, events`handlers, events`live, events`nextId
      ensures events.nextId == old(events.nextId)
      ensures var proxy := old(server).value;
              && events.live == old(events.live) - {proxy.id}
                                - (if proxy.alarmTimer.Some? then {proxy.alarmTimer.value} else {})
              && events.handlers == CutProxy(old(events.handlers), proxy)
    {
      hide Cut, MoveAlarm;
      SetKeepAliveRate(false);
      events.RemoveHandler(StreamInputReady, Object(server.value.stream));
      events.RemoveHandler(ClipboardSending, Object(server.value.id));
      events.RemoveHandler(FileChunkSending, Object(server.value.id));
      events.Delete(server.value.id);
    }

    /** Destroys the proxy with everything it has registered. */
    method CleanupScreen()
      requires server.Some? ==> server.value.id in events.live && server.value.alarmTimer != Some(server.value.id)
      requires server.Some? && server.value.alarmTimer.Some? ==> server.value.alarmTimer.value in events.live
      requires server.None? ==> !ready
      modifies this`server, this`ready, this`screenEnabled, events`handlers, events`live, events`nextId
      ensures events.nextId == old(events.nextId)
      ensures server.None? && !ready && screenEnabled == (old(screenEnabled) && !old(ready))
      ensures old(server).None? ==> events.live == old(events.live) && events.handlers == old(events.handlers)
      ensures old(server).Some? ==>
                var proxy := old(server).value;
                && events.live == old(events.live) - {proxy.id}
                                  - (if proxy.alarmTimer.Some? then {proxy.alarmTimer.value} else {})
                && events.handlers == CutScreen(old(events.handlers), proxy)
    {
      hide Cut, CutProxy;
      if server.Some? {
        if ready {
          screenEnabled := false;
          ready := false;
        }
        events.RemoveHandler(ScreenShapeChanged, Screen);
        events.RemoveHandler(ClipboardGrabbed, Screen);
        DeleteProxy();
        server := None;
      }
    }

    method AddFailure()
      modifies events`notices
      ensures events.notices == old(events.notices) + [ConnectionFailed]
    {
      events.AddNotice(ConnectionFailed);
    }

    // ---------- Connecting ----------

    method Connect(attempt: Attempt)
      requires Valid()
      modifies this, events
      ensures Valid() && State() == Attempted(old(State()), attempt)
    {
      hide WiredTo, Put, HandlerAt, Lookup;
      if stream.Some? {
        return;
      }
      if suspended {
        connectOnResume := true;
        return;
      }
      // `failed` stands for the exception that ends the attempt
      var failed := attempt.NoSocket?;
      if !failed {
        ghost var handlers := events.handlers;
        var id := events.New();
        stream := Some(id);
        SetupConnecting(attempt.secure);
        SetupTimer();
        link := Connecting(id, id + 1, attempt.secure);
        ConnectWired(handlers, id, id + 1, attempt.secure);
        failed := attempt.SocketRefuses?;
      }
      if failed {
        GiveUp();
      }
    }

    /** What the attempt does on an exception, and what a failed connection does. */
    method GiveUp()
      requires Holds() && WiredTo(events.handlers, link) && events.live == Objects(link) && Sound(State())
      requires link.Idle? || link.Connecting?
      modifies this`link, this`stream, this`timer, events`handlers, events`live, events`notices
      ensures Valid() && State() == Dropped(old(State()), ConnectionFailed)
    {
      ghost var handlers := events.handlers;
      CleanupTimer();
      CleanupConnecting();
      CleanupStream();
      if link.Connecting? {
        ConnectingUnwired(handlers, events.handlers, link);
      }
      link := Idle;
      AddFailure();
    }

    method HandleConnected()
      requires Valid() && link.Connecting?
      modifies this, events
      ensures Valid() && State() == old(State()).(link := Greeting(old(link).stream, old(link).timer))
    {
      ghost var handlers := events.handlers;
      CleanupConnecting();
      ghost var middle := events.handlers;
      SetupConnection();
      ConnectedWired(handlers, middle, link);
      link := Greeting(link.stream, link.timer);
    }

    method HandleConnectionFailed()
      requires Valid() && link.Connecting?
      modifies this, events
      ensures Valid() && State() == Dropped(old(State()), ConnectionFailed)
    {
      GiveUp();
    }

    method HandleConnectTimeout()
      requires Valid() && (link.Connecting? || link.Greeting?)
      modifies this, events
      ensures Valid() && State() == Dropped(old(State()), ConnectionFailed)
    {
      ghost var handlers := events.handlers;
      CleanupTimer();
      CleanupConnecting();
      ghost var middle := events.handlers;
      CleanupConnection();
      CleanupStream();
      TimeoutUnwired(handlers, middle, events.handlers, link);
      link := Idle;
      AddFailure();
    }

    // ---------- Losing the connection ----------

    /** What comes first in every clean-up: the timer and the screen go, the stream is left. */
    method CleanupTimerAndScreen()
      requires Holds() && events.live == Objects(link) && LinkSound(link, events.nextId)
      modifies this`timer, this`server, this`ready, this`screenEnabled, events`handlers, events`live, events`nextId
      ensures timer.None? && server.None? && !ready && !screenEnabled && events.nextId == old(events.nextId)
      ensures events.live == if link.Idle? then {} else {link.stream}
      ensures Stripped(old(events.handlers), events.handlers, link)
      ensures link.Idle? ==> events.handlers == old(events.handlers)
    {
      hide Put, Cut, CutScreen, HandlerAt, Lookup;
      CleanupTimer();
      CleanupScreen();
    }

    /** Releases everything but the connecting handlers, which an established connection does not have. */
    method Release()
      requires Valid() && !link.Connecting?
      modifies this`link, this`stream, this`timer, this`server, this`ready, this`screenEnabled,
               events`handlers, events`live, events`nextId
      ensures Valid() && State() == old(State()).(link := Idle)
    {
      hide WiredTo, Put, Cut, CutScreen, HandlerAt, Lookup, Stripped;
      ghost var handlers := events.handlers;
      CleanupTimerAndScreen();
      ghost var middle := events.handlers;
      CleanupConnection();
      if !link.Idle? {
        LostUnwired(handlers, middle, events.handlers, link);
      }
      link := Idle;
    }

    method HandleOutputError()
      requires Valid() && (link.Greeting? || link.Online?)
      modifies this, events
      ensures Valid() && State() == Dropped(old(State()), Disconnected)
    {
      Release();
      events.AddNotice(Disconnected);
    }

    method HandleDisconnected()
      requires Valid() && (link.Greeting? || link.Online?)
      modifies this, events
      ensures Valid() && State() == Dropped(old(State()), Disconnected)
    {
      Release();
      events.AddNotice(Disconnected);
    }

    method Cleanup()
      requires Intact()
      modifies this, events
      ensures Intact() && State() == old(State()).(link := Idle, connectOnResume := false)
    {
      hide WiredTo, Put, Cut, CutScreen, HandlerAt, Lookup, Stripped;
      connectOnResume := false;
      ghost var handlers := events.handlers;
      CleanupTimerAndScreen();
      ghost var middle := events.handlers;
      CleanupConnecting();
      ghost var later := events.handlers;
      CleanupConnection();
      CleanupUnwired(handlers, middle, later, events.handlers, link);
      link := Idle;
    }

    method Disconnect(message: bool)
      requires Intact()
      modifies this, events
      ensures Intact() && State() == Requested(old(State()), Some(Request.Disconnect(message)))
    {
      Cleanup();
      if message {
        AddFailure();
      } else {
        events.AddNotice(Disconnected);
      }
    }

    method RefuseConnection(message: bool)
      requires Valid()
      modifies this, events
      ensures Valid() && State() == Requested(old(State()), Some(Refuse(message)))
    {
      Cleanup();
      if message {
        events.AddNotice(ConnectionRefused);
      }
    }

    method HandleDisconnectRequested(request: Option<Request>)
      requires Valid() && (link.Greeting? || link.Online?)
      modifies this, events
      ensures Valid() && State() == Requested(old(State()), request)
    {
      match request
      case None => Disconnect(false);
      case Some(Refuse(message)) => RefuseConnection(message);
      case Some(Disconnect(message)) => Disconnect(message);
    }

    method HandleSuspend()
      requires Valid()
      modifies this, events
      ensures Valid()
      ensures State() == if old(suspended) then old(State())
                         else Requested(old(State()), None).(suspended := true, connectOnResume := old(link).Online?)
    {
      if !suspended {
        suspended := true;
        var wasConnected := server.Some?;
        Disconnect(false);
        connectOnResume := wasConnected;
      }
    }

    method HandleResume(attempt: Attempt)
      requires Valid()
      modifies this, events
      ensures Valid()
      ensures State() == if !old(suspended) then old(State())
                         else if !old(connectOnResume) then old(State()).(suspended := false)
                         else Attempted(old(State()).(suspended := false, connectOnResume := false), attempt)
    {
      if suspended {
        suspended := false;
        if connectOnResume {
          connectOnResume := false;
          Connect(attempt);
        }
      }
    }

    // ---------- The handshake ----------

    method HandleHello(hello: Hello)
      requires Valid() && link.Greeting?
      modifies this, events
      ensures Valid() && State() == Greeted(old(State()), hello)
    {
      if hello.Welcome? {
        Welcomed();
      } else {
        AddFailure();
        TurnedDown();
      }
    }

    method TurnedDown()
      requires Valid() && link.Greeting?
      modifies this`link, this`stream, this`timer, events`handlers, events`live
      ensures Valid() && State() == old(State()).(link := Idle)
    {
      ghost var handlers := events.handlers;
      CleanupTimer();
      ghost var middle := events.handlers;
      CleanupConnection();
      LostUnwired(handlers, middle, events.handlers, link);
      link := Idle;
    }

    method Welcomed()
      requires Valid() && link.Greeting?
      modifies this, events
      ensures Valid() && State() == Greeted(old(State()), Welcome)
    {
      hide WiredTo, Put, Cut, PutScreen, HandlerAt, Lookup;
      ghost var handlers, id := events.handlers, events.nextId;
      SetupScreen();
      CleanupTimer();
      HelloWired(handlers, link, id);
      link := Online(link.stream, id, Some(id + 1), true, false);
    }

    /** The proxy has finished the handshake. */
    method HandshakeComplete()
      requires Valid() && link.Online? && !link.ready
      modifies this, events`notices
      ensures Valid() && State() == Told(old(State()).(link := old(link).(ready := true)), Connected)
    {
      server := Some(server.value.(handshaken := true));
      ready := true;
      screenEnabled := true;
      link := link.(ready := true);
      events.AddNotice(Connected);
    }

    method ResetAlarm(on: bool)
      requires Valid() && link.Online?
      modifies this, events
      ensures Valid() && State() == Acted(old(State()), SetRate(on))
    {
      ghost var handlers, id := events.handlers, events.nextId;
      SetKeepAliveRate(on);
      AlarmWired(handlers, link, on, id);
      link := link.(alarmOn := on, alarm := if on then Some(id) else None);
    }

    /** What a round of server messages does to the connection. */
    method HandleData(acts: seq<Act>)
      requires Valid() && link.Online?
      modifies this, events
      ensures Valid() && State() == AllActed(old(State()), acts)
    {
      var i := 0;
      while i < |acts|
        invariant 0 <= i <= |acts| && Valid() && link.Online?
        invariant AllActed(State(), acts[i..]) == AllActed(old(State()), acts)
      {
        assert acts[i..][1..] == acts[i + 1..] && acts[i..][0] == acts[i];
        HandleAct(acts[i]);
        i := i + 1;
      }
    }

    method HandleAct(act: Act)
      requires Valid() && link.Online?
      modifies this, events
      ensures Valid() && link.Online? && State() == Acted(old(State()), act)
    {
      match act
      case KeepAlive => ResetAlarm(server.value.alarmOn);
      case SetRate(on) => ResetAlarm(on);
      case SetOptions =>
        if !server.value.handshaken {
          HandshakeComplete();
        }
      case Ask(request) => events.AddRequest(request);
    }

    method HandleKeepAliveAlarm()
      requires Valid() && link.Online?
      modifies events`requests
      ensures Valid() && State() == old(State()).(requests := old(State()).requests + [Request.Disconnect(true)])
    {
      events.AddRequest(Request.Disconnect(true));
    }

    /** Uses the proxy, which the handler table guarantees. */
    method HandleShapeChanged() returns (proxy: Proxy)
      requires Valid() && HandlerAt(link, Key(Screen, ScreenShapeChanged)).Some?
      ensures Some(proxy) == server
    {
      proxy := server.value;
    }

    // ---------- Dispatch ----------

    /** An event reaches the handler the table names, and every handler finds what it needs. */
    method Dispatch(key: Key, detail: Detail)
      requires Valid()
      modifies this, events
      ensures Valid() && State() == Step(old(State()), Occurs(key, detail))
    {
      assert Lookup(events.handlers, key) == HandlerAt(link, key);
      if key !in events.handlers {
        return;
      }
      match events.handlers[key]
      case OnSuspend => HandleSuspend();
      case OnResume => HandleResume(detail.attempt);
      case OnConnected => HandleConnected();
      case OnConnectionFailed => HandleConnectionFailed();
      case OnConnectTimeout => HandleConnectTimeout();
      case OnHello => HandleHello(detail.hello);
      case OnDisconnectRequested => HandleDisconnectRequested(detail.request);
      case OnDisconnected => HandleDisconnected();
      case OnOutputError => HandleOutputError();
      case OnShapeChanged =>
        var proxy := HandleShapeChanged();
      case OnClipboardGrabbed =>
      case ProxyData => HandleData(detail.acts);
      case ProxySendClipboard =>
      case ProxySendFile =>
      case ProxyKeepAliveAlarm => HandleKeepAliveAlarm();
    }

    /** Every run: whatever happens, in whatever order, the invariant holds and the life cycle is followed. */
    method Run(stimuli: seq<Stimulus>)
      requires Valid()
      modifies this, events
      ensures Valid() && State() == Steps(old(State()), stimuli)
    {
      var i := 0;
      while i < |stimuli|
        invariant 0 <= i <= |stimuli| && Valid()
        invariant Steps(State(), stimuli[i..]) == Steps(old(State()), stimuli)
        decreases |stimuli| - i
      {
        assert stimuli[i..][1..] == stimuli[i + 1..] && stimuli[i..][0] == stimuli[i];
        match stimuli[i] {
          case Connect(attempt) => Connect(attempt);
          case Occurs(key, detail) => Dispatch(key, detail);
        }
        i := i + 1;
      }
    }
  }

  lemma HelloWired(handlers: map<Key, Handler>, link: Link, id: nat)
    requires link.Greeting? && WiredTo(handlers, link) && link.stream < id && link.timer < id
    requires link.stream != link.timer
    ensures WiredTo(Cut(PutScreen(handlers, Object(link.stream), id), {Timer}, Object(link.timer)),
                    Online(link.stream, id, Some(id + 1), true, false))
  {
    PutScreenLookup(handlers, Object(link.stream), id);
    hide PutScreen, Lookup, HandlerAt, Cut;
    var before := PutScreen(handlers, Object(link.stream), id);
    var after, online := Cut(before, {Timer}, Object(link.timer)), Online(link.stream, id, Some(id + 1), true, false);
    forall key
      ensures Lookup(after, key) == HandlerAt(online, key)
    {
      assert Lookup(handlers, key) == HandlerAt(link, key);
      assert Lookup(after, key) == if key == Key(Object(link.timer), Timer) then None else Lookup(before, key);
      OnlineInsteadOfGreeting(link, id, key);
    }
  }

  lemma OnlineInsteadOfGreeting(link: Link, id: nat, key: Key)
    requires link.Greeting? && link.stream < id && link.timer < id && link.stream != link.timer
    ensures HandlerAt(Online(link.stream, id, Some(id + 1), true, false), key) ==
            if key == Key(Object(link.timer), Timer) then None
            else if key == Key(Object(link.stream), StreamInputReady) then Some(ProxyData)
            else if key == Key(Object(id), ClipboardSending) then Some(ProxySendClipboard)
            else if key == Key(Object(id), FileChunkSending) then Some(ProxySendFile)
            else if key == Key(Object(id + 1), Timer) then Some(ProxyKeepAliveAlarm)
            else if key == Key(Screen, ScreenShapeChanged) then Some(OnShapeChanged)
            else if key == Key(Screen, ClipboardGrabbed) then Some(OnClipboardGrabbed)
            else HandlerAt(link, key)
  {
  }

  lemma PutScreenLookup(handlers: map<Key, Handler>, stream: Target, id: nat)
    ensures forall key :: Lookup(PutScreen(handlers, stream, id), key) ==
                          if key == Key(stream, StreamInputReady) then Some(ProxyData)
                          else if key == Key(Object(id), ClipboardSending) then Some(ProxySendClipboard)
                          else if key == Key(Object(id), FileChunkSending) then Some(ProxySendFile)
                          else if key == Key(Object(id + 1), Timer) then Some(ProxyKeepAliveAlarm)
                          else if key == Key(Screen, ScreenShapeChanged) then Some(OnShapeChanged)
                          else if key == Key(Screen, ClipboardGrabbed) then Some(OnClipboardGrabbed)
                          else Lookup(handlers, key)
  {
    hide Lookup, Put;
  }

  lemma AlarmWired(handlers: map<Key, Handler>, link: Link, on: bool, id: nat)
    requires link.Online? && WiredTo(handlers, link) && (link.alarm.Some? ==> link.alarm.value < id)
    ensures WiredTo(MoveAlarm(handlers, link.alarm, if on then Some(id) else None),
                    link.(alarmOn := on, alarm := if on then Some(id) else None))
  {
  }

  lemma ConnectedWired(handlers: map<Key, Handler>, middle: map<Key, Handler>, link: Link)
    requires link.Connecting? && link.stream != link.timer && WiredTo(handlers, link)
    requires forall key :: Lookup(middle, key) ==
                           if key.target == Object(link.stream) && key.kind in CONNECTING_KINDS then None
                           else Lookup(handlers, key)
    ensures WiredTo(PutConnection(middle, Object(link.stream)), Greeting(link.stream, link.timer))
  {
    hide Lookup, PutConnection, HandlerAt;
    var target, greeting := Object(link.stream), Greeting(link.stream, link.timer);
    var after := PutConnection(middle, target);
    forall key
      ensures Lookup(after, key) == HandlerAt(greeting, key)
    {
      GreetingInsteadOfConnecting(link, key);
      assert Lookup(handlers, key) == HandlerAt(link, key);
      if key.target == target && key.kind in CONNECTION_KINDS {
        assert key == Key(target, key.kind);
      } else {
        assert Lookup(after, key) == Lookup(middle, key);
      }
    }
  }

  lemma GreetingInsteadOfConnecting(link: Link, key: Key)
    requires link.Connecting? && link.stream != link.timer
    ensures HandlerAt(Greeting(link.stream, link.timer), key) ==
            if key.target != Object(link.stream) then HandlerAt(link, key)
            else match key.kind
              case ClientDisconnectRequested => Some(OnDisconnectRequested)
              case SocketDisconnected => Some(OnDisconnected)
              case StreamInputReady => Some(OnHello)
              case StreamOutputError => Some(OnOutputError)
              case StreamInputShutdown => Some(OnDisconnected)
              case StreamOutputShutdown => Some(OnDisconnected)
              case _ => None
    ensures key.target == Object(link.stream) && key.kind !in CONNECTING_KINDS ==> HandlerAt(link, key).None?
  {
  }

  lemma TimeoutUnwired(handlers: map<Key, Handler>, middle: map<Key, Handler>, after: map<Key, Handler>, link: Link)
    requires (link.Connecting? || link.Greeting?) && WiredTo(handlers, link)
    requires forall key :: Lookup(middle, key) ==
                           if key.target == Object(link.stream) && key.kind in CONNECTING_KINDS then None
                           else if key == Key(Object(link.timer), Timer) then None
                           else Lookup(handlers, key)
    requires forall key :: Lookup(after, key) ==
                           if key.target == Object(link.stream) && key.kind in CONNECTION_KINDS then None
                           else Lookup(middle, key)
    ensures WiredTo(after, Idle)
  {
  }

  /** The table once the timer or the proxy is gone. */
  ghost predicate Stripped(handlers: map<Key, Handler>, middle: map<Key, Handler>, link: Link) {
    match link
    case Idle => middle == handlers
    case Online(stream, proxy, alarm, on, ready) =>
      middle == CutScreen(handlers, Proxy(proxy, stream, alarm, on, ready))
    case _ => middle == Cut(handlers, {Timer}, Object(link.timer))
  }

  /** What is left once the timer or the proxy is gone: the permanent handlers and the stream's own. */
  function Remaining(link: Link, key: Key): Option<Handler> {
    if key.target == Screen then HandlerAt(Idle, key)
    else if link.Idle? || key.target != Object(link.stream) then None
    else if key.kind in CONNECTING_KINDS then HandlerAt(link, key)
    else if key.kind in CONNECTION_KINDS && !(link.Online? && key.kind.StreamInputReady?) then HandlerAt(link, key)
    else None
  }

  lemma StrippedLeaves(handlers: map<Key, Handler>, middle: map<Key, Handler>, link: Link)
    requires WiredTo(handlers, link) && Stripped(handlers, middle, link)
    requires link.Connecting? || link.Greeting? ==> link.stream != link.timer
    requires link.Online? ==> link.alarm != Some(link.stream) && link.proxy != link.stream
    ensures forall key :: Lookup(middle, key) == Remaining(link, key)
  {
    hide CutScreen, Cut, Lookup;
    forall key
      ensures Lookup(middle, key) == Remaining(link, key)
    {
      assert Lookup(handlers, key) == HandlerAt(link, key);
    }
  }

  lemma LostUnwired(handlers: map<Key, Handler>, middle: map<Key, Handler>, after: map<Key, Handler>, link: Link)
    requires (link.Greeting? || link.Online?) && WiredTo(handlers, link) && Stripped(handlers, middle, link)
    requires link.Connecting? || link.Greeting? ==> link.stream != link.timer
    requires link.Online? ==> link.alarm != Some(link.stream) && link.proxy != link.stream
    requires forall key :: Lookup(after, key) ==
                           if key.target == Object(link.stream) && key.kind in CONNECTION_KINDS then None
                           else Lookup(middle, key)
    ensures WiredTo(after, Idle)
  {
    StrippedLeaves(handlers, middle, link);
    hide Stripped, Lookup, HandlerAt, Remaining;
    forall key
      ensures Lookup(after, key) == HandlerAt(Idle, key)
    {
      RemainingOnStream(link, key);
      assert Lookup(middle, key) == Remaining(link, key);
    }
  }

  lemma RemainingOnStream(link: Link, key: Key)
    requires !link.Idle? && !link.Connecting?
    ensures if key.target == Object(link.stream) && key.kind in CONNECTION_KINDS then HandlerAt(Idle, key).None?
            else Remaining(link, key) == HandlerAt(Idle, key)
  {
  }

  lemma CleanupUnwired(handlers: map<Key, Handler>, middle: map<Key, Handler>, later: map<Key, Handler>,
                       after: map<Key, Handler>, link: Link)
    requires WiredTo(handlers, link) && Stripped(handlers, middle, link)
    requires link.Connecting? || link.Greeting? ==> link.stream != link.timer
    requires link.Online? ==> link.alarm != Some(link.stream) && link.proxy != link.stream
    requires link.Idle? ==> after == later == middle
    requires !link.Idle? ==> forall key :: Lookup(later, key) ==
                               if key.target == Object(link.stream) && key.kind in CONNECTING_KINDS then None
                               else Lookup(middle, key)
    requires !link.Idle? ==> forall key :: Lookup(after, key) ==
                               if key.target == Object(link.stream) && key.kind in CONNECTION_KINDS then None
                               else Lookup(later, key)
    ensures WiredTo(after, Idle)
  {
    StrippedLeaves(handlers, middle, link);
    hide Stripped, Lookup, HandlerAt, Remaining;
    forall key
      ensures Lookup(after, key) == HandlerAt(Idle, key)
    {
      RemainingCut(link, key);
      assert Lookup(middle, key) == Remaining(link, key);
    }
  }

  lemma RemainingCut(link: Link, key: Key)
    ensures if !link.Idle? && key.target == Object(link.stream)
        && (key.kind in CONNECTING_KINDS || key.kind in CONNECTION_KINDS)
            then HandlerAt(Idle, key).None?
            else Remaining(link, key) == HandlerAt(Idle, key)
  {
  }

  lemma ConnectWired(handlers: map<Key, Handler>, stream: nat, timer: nat, secure: bool)
    requires WiredTo(handlers, Idle) && stream != timer
    ensures WiredTo(Put(Put(Put(handlers,
                            if secure then DataSocketSecureConnected else DataSocketConnected, Object(stream),
                                OnConnected),
                            DataSocketConnectionFailed, Object(stream), OnConnectionFailed),
                        Timer, Object(timer), OnConnectTimeout),
                    Connecting(stream, timer, secure))
  {
  }

  lemma ConnectingUnwired(handlers: map<Key, Handler>, after: map<Key, Handler>, link: Link)
    requires link.Connecting? && WiredTo(handlers, link)
    requires forall key :: Lookup(after, key) ==
                           if key.target == Object(link.stream) && key.kind in CONNECTING_KINDS then None
                           else if key == Key(Object(link.timer), Timer) then None
                           else Lookup(handlers, key)
    ensures WiredTo(after, Idle)
  {
  }
}

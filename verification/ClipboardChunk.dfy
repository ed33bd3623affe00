/** A clipboard sent in chunks, and put together again. A byte is a character below 256. */
module ClipboardChunk {
  import opened Basics
  import opened Numbers

  const META_SIZE: nat := 7
  const CLIPBOARDS: nat := 2
  const SIZE_MAX: nat := 0xFFFF_FFFF_FFFF_FFFF

  datatype Mark = DataStart | DataChunk | DataEnd | Unknown(code: nat)

  function Code(m: Mark): nat {
    match m case DataStart => 1 case DataChunk => 2 case DataEnd => 3 case Unknown(code) => code
  }

  function MarkOf(code: nat): Mark {
    if code == 1 then DataStart else if code == 2 then DataChunk else if code == 3 then DataEnd else Unknown(code)
  }

  /** A message as it travels: which clipboard, the sequence number, the mark and the data. */
  datatype Message = Message(id: nat, sequence: nat, mark: Mark, data: string)

  predicate Sendable(m: Message) {
    m.id < 256 && m.sequence < 0x1_0000_0000 && Code(m.mark) < 256 && m.mark == MarkOf(Code(m.mark))
  }

  // ---------- The layout of a chunk ----------

  /** 32 bits, least significant byte first. */
  function Little(n: nat): (r: string)
    requires n < 0x1_0000_0000
    ensures |r| == 4
  {
    var a, b := n / 0x100, n / 0x1_0000;
    [(n % 0x100) as char, (a % 0x100) as char, (b % 0x100) as char, (b / 0x100) as char]
  }

  function FromLittle(t: string): nat
    requires |t| == 4
  {
    t[0] as int + 0x100 * (t[1] as int + 0x100 * (t[2] as int + 0x100 * t[3] as int))
  }

  lemma LittleReads(n: nat)
    requires n < 0x1_0000_0000
    ensures FromLittle(Little(n)) == n
  {
    FourBytes(n);
  }

  lemma LittleForms(n: nat)
    requires n < 0x1_0000_0000
    ensures var t := Little(n);
            t[0] as int + 0x100 * t[1] as int + 0x1_0000 * t[2] as int + 0x100_0000 * t[3] as int == n
  {
    FourBytes(n);
  }

  lemma FourBytes(n: nat)
    ensures var a, b := n / 0x100, n / 0x1_0000;
            n % 0x100 + 0x100 * (a % 0x100 + 0x100 * (b % 0x100 + 0x100 * (b / 0x100))) == n
  {
    var a := n / 0x100;
    assert n / 0x1_0000 == a / 0x100;
  }

  function Layout(m: Message): string
    requires Sendable(m)
  {
    [m.id as char] + (Little(m.sequence) + ([Code(m.mark) as char] + (m.data + "\0")))
  }

  lemma LayoutAt(m: Message)
    requires Sendable(m)
    ensures var t := Layout(m);
            && |t| == |m.data| + 7 && t[0] == m.id as char && t[1..5] == Little(m.sequence)
            && t[5] == Code(m.mark) as char && (m.mark == DataStart ==> t[5] == 1 as char)
            && (m.mark == DataChunk ==> t[5] == 2 as char) && (m.mark == DataEnd ==> t[5] == 3 as char)
            && t[6..6 + |m.data|] == m.data && t[|t| - 1] == '\0'
  {
    hide Little;
    var c := m.data + "\0";
    var b := [Code(m.mark) as char] + c;
    var a := Little(m.sequence) + b;
    var t := [m.id as char] + a;
    assert t[1..] == a && a[..4] == Little(m.sequence) && a[4..] == b && b[1..] == c && c[..|m.data|] == m.data;
    Slice(t, 1, 4);
    Slice(t, 6, |m.data|);
    assert t[6..] == c;
  }

  lemma Slice(t: string, p: nat, n: nat)
    requires p + n <= |t|
    ensures t[p..p + n] == t[p..][..n]
  {
  }

  class ClipboardChunk {
    const chunk: array<char>
    const dataSize: nat

    ghost predicate Valid() {
      chunk.Length == dataSize + META_SIZE
    }

    constructor (size: nat)
      requires size >= META_SIZE
      ensures Valid() && fresh(chunk) && chunk.Length == size
    {
      chunk := new char[size](_ => '\0');
      dataSize := size - META_SIZE;
    }

    method Fill(id: nat, sequence: nat, mark: Mark, data: string)
      requires Valid() && dataSize == |data| && Sendable(Message(id, sequence, mark, data))
      modifies chunk
      ensures chunk[..] == Layout(Message(id, sequence, mark, data))
    {
      chunk[0] := id as char;
      var four := Little(sequence);
      chunk[1], chunk[2], chunk[3], chunk[4] := four[0], four[1], four[2], four[3];
      chunk[5] := Code(mark) as char;
      forall i | 0 <= i < |data| {
        chunk[6 + i] := data[i];
      }
      chunk[|data| + META_SIZE - 1] := '\0';
      SameText(chunk[..], Message(id, sequence, mark, data));
    }

    static method Start(id: nat, sequence: nat, size: string) returns (c: ClipboardChunk)
      requires Sendable(Message(id, sequence, DataStart, size))
      ensures fresh(c) && fresh(c.chunk) && c.Valid() && c.chunk[..] == Layout(Message(id, sequence, DataStart, size))
    {
      c := new ClipboardChunk(|size| + META_SIZE);
      c.Fill(id, sequence, DataStart, size);
    }

    static method Data(id: nat, sequence: nat, data: string) returns (c: ClipboardChunk)
      requires Sendable(Message(id, sequence, DataChunk, data))
      ensures fresh(c) && fresh(c.chunk) && c.Valid() && c.chunk[..] == Layout(Message(id, sequence, DataChunk, data))
    {
      c := new ClipboardChunk(|data| + META_SIZE);
      c.Fill(id, sequence, DataChunk, data);
    }

    static method End(id: nat, sequence: nat) returns (c: ClipboardChunk)
      requires Sendable(Message(id, sequence, DataEnd, ""))
      ensures fresh(c) && fresh(c.chunk) && c.Valid() && c.chunk[..] == Layout(Message(id, sequence, DataEnd, ""))
    {
      c := new ClipboardChunk(META_SIZE);
      c.Fill(id, sequence, DataEnd, "");
    }

    /** Reads the fields back out of the chunk and sends them. */
    method Send() returns (m: Message)
      requires Valid()
      ensures forall sent | Sendable(sent) && chunk[..] == Layout(sent) :: m == sent
    {
      var t := chunk[..];
      m := Message(t[0] as int, FromLittle(t[1..5]), MarkOf(t[5] as int), t[6..6 + dataSize]);
      forall sent | Sendable(sent) && t == Layout(sent) ensures m == sent {
        LayoutAt(sent);
        LittleReads(sent.sequence);
      }
    }
  }

  lemma SameText(t: string, m: Message)
    requires Sendable(m) && |t| == |m.data| + META_SIZE
    requires t[0] == m.id as char && (forall k :: 0 <= k < 4 ==> t[1 + k] == Little(m.sequence)[k])
    requires t[5] == Code(m.mark) as char
    requires (forall i :: 0 <= i < |m.data| ==> t[6 + i] == m.data[i]) && t[|t| - 1] == '\0'
    ensures t == Layout(m)
  {
    hide Little, Code;
    assert |Layout(m)| == |t|;
  }

  // ---------- Assembly ----------

  datatype TransferState = Started | InProgress | Finished | Error

  datatype Assembly = Assembly(expected: nat, active: bool, cached: string)

  const EMPTY := Assembly(0, false, "")

  function WouldExceed(current: nat, extra: nat, limit: nat): (r: bool)
    ensures r <==> current + extra > limit
  {
    current > limit || extra > limit - current
  }

  /** How a size is read from a start message: the reader of the string library, which is only asked to read
      back what `std::to_string` prints. */
  ghost predicate ReadsDecimals(parse: string -> Option<nat>) {
    forall n: nat | n <= SIZE_MAX :: parse(Decimal(n)) == Some(n)
  }

  function Parsed(parse: string -> Option<nat>, m: Message): Option<nat> {
    var n := parse(m.data);
    if n.None? || n.value > SIZE_MAX then None else n
  }

  /** One message, or none when reading the stream failed. */
  function Assembled(a: Assembly, m: Option<Message>, parse: string -> Option<nat>, limit: nat)
    : (Assembly, TransferState)
  {
    if m.None? || m.value.id >= CLIPBOARDS then (EMPTY, Error)
    else
      match m.value.mark
      case DataStart =>
        var n := Parsed(parse, m.value);
        if n.None? || n.value > limit then (EMPTY, Error) else (Assembly(n.value, true, ""), Started)
      case DataChunk =>
        if !a.active || WouldExceed(|a.cached|, |m.value.data|, a.expected) then (EMPTY, Error)
        else (a.(cached := a.cached + m.value.data), InProgress)
      case DataEnd =>
        if !a.active || a.expected != |a.cached| then (EMPTY, Error) else (a.(active := false), Finished)
      case Unknown(_) => (EMPTY, Error)
  }

  /** The fields in which the server proxy keeps the clipboard it is receiving. */
  class Receiver {
    var expectedSize: nat
    var active: bool
    var dataCached: string
    /** The clipboards forwarded to the client. */
    var forwarded: seq<(nat, string)>
    var disconnectsRequested: nat

    ghost function State(): Assembly
      reads this
    {
      Assembly(expectedSize, active, dataCached)
    }

    constructor ()
      ensures State() == EMPTY && forwarded == [] && disconnectsRequested == 0
    {
      expectedSize, active, dataCached, forwarded, disconnectsRequested := 0, false, "", [], 0;
    }

    method Reset()
      modifies this`expectedSize, this`active, this`dataCached
      ensures State() == EMPTY
    {
      expectedSize, active, dataCached := 0, false, "";
    }

    method Assemble(m: Option<Message>, parse: string -> Option<nat>, limit: nat) returns (r: TransferState)
      modifies this`expectedSize, this`active, this`dataCached
      ensures (State(), r) == Assembled(old(State()), m, parse, limit)
    {
      if m.None? {
        Reset();
        return Error;
      }
      var Message(id, _, mark, data) := m.value;
      if id >= CLIPBOARDS {
        Reset();
        return Error;
      }
      if mark == DataStart {
        var expected := parse(data);
        if expected.None? || expected.value > SIZE_MAX {
          Reset();
          return Error;
        }
        dataCached := "";
        expectedSize := expected.value;
        active := true;
        if expectedSize > limit {
          Reset();
          return Error;
        }
        return Started;
      } else if mark == DataChunk {
        if !active {
          Reset();
          return Error;
        }
        if WouldExceed(|dataCached|, |data|, expectedSize) {
          Reset();
          return Error;
        }
        dataCached := dataCached + data;
        return InProgress;
      } else if mark == DataEnd {
        if !active {
          Reset();
          return Error;
        }
        active := false;
        if expectedSize != |dataCached| {
          Reset();
          return Error;
        }
        return Finished;
      }
      Reset();
      return Error;
    }

    /** `ServerProxy::setClipboard`. */
    method SetClipboard(m: Option<Message>, parse: string -> Option<nat>, limit: nat)
      modifies this
      ensures var (a, r) := Assembled(old(State()), m, parse, limit);
              && State() == (if r == Finished then a.(cached := "") else a)
              && forwarded == (if r == Finished then old(forwarded) + [(m.value.id, a.cached)] else old(forwarded))
              && disconnectsRequested == old(disconnectsRequested) + (if r == Error then 1 else 0)
    {
      var r := Assemble(m, parse, limit);
      if r == Finished {
        forwarded := forwarded + [(m.value.id, dataCached)];
        dataCached := "";
      } else if r == Error {
        disconnectsRequested := disconnectsRequested + 1;
      }
    }
  }

  // ---------- Runs of messages ----------

  function Run(a: Assembly, ms: seq<Option<Message>>, parse: string -> Option<nat>, limit: nat): Assembly
    decreases |ms|
  {
    if ms == [] then a else Assembled(Run(a, ms[..|ms| - 1], parse, limit), ms[|ms| - 1], parse, limit).0
  }

  ghost predicate Bounded(a: Assembly, limit: nat) {
    a.active ==> |a.cached| <= a.expected <= limit
  }

  /** Whatever arrives, no more is kept than was declared and allowed, and every error starts from scratch. */
  lemma MessageKeepsBounded(a: Assembly, m: Option<Message>, parse: string -> Option<nat>, limit: nat)
    requires Bounded(a, limit)
    ensures var (a', r) := Assembled(a, m, parse, limit);
            && Bounded(a', limit) && (r == Error ==> a' == EMPTY)
            && (r == Finished ==> !a'.active && |a'.cached| == a'.expected <= limit)
  {
  }

  /** Which results a message has, in each state. */
  lemma ResultForms(a: Assembly, m: Option<Message>, parse: string -> Option<nat>, limit: nat)
    ensures var (a', r) := Assembled(a, m, parse, limit);
            && (m.None? || m.value.id >= 2 || m.value.mark.Unknown? ==> r == Error)
            && (m.Some? && m.value.id < 2 ==>
                  match m.value.mark
                  case DataStart =>
                    var n := parse(m.value.data);
                    if n.Some? && n.value <= 0xFFFF_FFFF_FFFF_FFFF && n.value <= limit
                    then r == Started && a' == Assembly(n.value, true, "") else r == Error
                  case DataChunk =>
                    if a.active && |a.cached| + |m.value.data| <= a.expected
                    then r == InProgress && a' == a.(cached := a.cached + m.value.data) else r == Error
                  case DataEnd =>
                    if a.active && |a.cached| == a.expected
                    then r == Finished && a' == a.(active := false) else r == Error
                  case Unknown(_) => true)
            && (r == Error ==> a' == Assembly(0, false, ""))
  {
  }

  predicate GoodStart(m: Option<Message>, parse: string -> Option<nat>, limit: nat) {
    m.Some? && m.value.id < CLIPBOARDS && m.value.mark == DataStart
    && Parsed(parse, m.value).Some? && Parsed(parse, m.value).value <= limit
  }

  predicate GoodData(m: Option<Message>) {
    m.Some? && m.value.id < CLIPBOARDS && m.value.mark == DataChunk
  }

  predicate GoodEnd(m: Option<Message>) {
    m.Some? && m.value.id < CLIPBOARDS && m.value.mark == DataEnd
  }

  /** The data behind a position, put together. */
  function Gathered(ms: seq<Option<Message>>, b: nat): string
    decreases |ms|
  {
    if |ms| <= b + 1 then ""
    else Gathered(ms[..|ms| - 1], b) + if GoodData(ms[|ms| - 1]) then ms[|ms| - 1].value.data else ""
  }

  /** A transfer is open since message `b`: a good start, and behind it only data, not more than declared. */
  ghost predicate OpenSince(ms: seq<Option<Message>>, b: nat, parse: string -> Option<nat>, limit: nat) {
    && b < |ms| && GoodStart(ms[b], parse, limit) && (forall k :: b < k < |ms| ==> GoodData(ms[k]))
    && |Gathered(ms, b)| <= Parsed(parse, ms[b].value).value
  }

  /** The data behind message `b` have just the declared length. */
  ghost predicate CompleteSince(ms: seq<Option<Message>>, b: nat, parse: string -> Option<nat>, limit: nat) {
    OpenSince(ms, b, parse, limit) && |Gathered(ms, b)| == Parsed(parse, ms[b].value).value
  }

  /** What the assembly knows about the messages so far. */
  ghost predicate Tracks(a: Assembly, ms: seq<Option<Message>>, parse: string -> Option<nat>, limit: nat) {
    && (a.active <==> exists b: nat :: OpenSince(ms, b, parse, limit))
    && (forall b: nat | OpenSince(ms, b, parse, limit) ::
          a.expected == Parsed(parse, ms[b].value).value && a.cached == Gathered(ms, b))
  }

  lemma OpenBefore(ms: seq<Option<Message>>, b: nat, parse: string -> Option<nat>, limit: nat)
    requires ms != []
    ensures var before, m := ms[..|ms| - 1], ms[|ms| - 1];
            OpenSince(ms, b, parse, limit) <==>
              (b == |before| && GoodStart(m, parse, limit))
              || (OpenSince(before, b, parse, limit) && GoodData(m)
                  && |Gathered(before, b) + m.value.data| <= Parsed(parse, ms[b].value).value)
  {
    hide GoodStart, GoodData, Parsed;
    var before, m := ms[..|ms| - 1], ms[|ms| - 1];
    GoodDataIsNoStart(m, parse, limit);
    if b < |before| {
      assert before[b] == ms[b];
      assert GoodData(m) ==> Gathered(ms, b) == Gathered(before, b) + m.value.data;
      assert forall k :: b < k < |before| ==> before[k] == ms[k];
    }
  }

  lemma GoodDataIsNoStart(m: Option<Message>, parse: string -> Option<nat>, limit: nat)
    ensures GoodData(m) ==> m.Some? && !GoodStart(m, parse, limit)
    ensures GoodStart(m, parse, limit) ==> m.Some? && Parsed(parse, m.value).Some?
  {
  }

  lemma {:induction false} RunTracks(ms: seq<Option<Message>>, parse: string -> Option<nat>, limit: nat)
    ensures Tracks(Run(EMPTY, ms, parse, limit), ms, parse, limit)
    decreases |ms|
  {
    hide Assembled, Tracks;
    if ms == [] {
      NothingTracked(parse, limit);
    } else {
      var before := ms[..|ms| - 1];
      RunTracks(before, parse, limit);
      MessageTracks(Run(EMPTY, before, parse, limit), ms, parse, limit);
    }
  }

  lemma NothingTracked(parse: string -> Option<nat>, limit: nat)
    ensures Tracks(EMPTY, [], parse, limit)
  {
  }

  lemma MessageTracks(a: Assembly, ms: seq<Option<Message>>, parse: string -> Option<nat>, limit: nat)
    requires ms != [] && Tracks(a, ms[..|ms| - 1], parse, limit)
    ensures Tracks(Assembled(a, ms[|ms| - 1], parse, limit).0, ms, parse, limit)
  {
    hide OpenSince, Parsed;
    var before, m := ms[..|ms| - 1], ms[|ms| - 1];
    var a' := Assembled(a, m, parse, limit).0;
    forall b: nat | OpenSince(ms, b, parse, limit) {
      MessageTracksAt(a, ms, b, parse, limit);
    }
    if a'.active {
      var b: nat := MessageOpens(a, ms, parse, limit);
    }
  }

  lemma MessageTracksAt(a: Assembly, ms: seq<Option<Message>>, b: nat, parse: string -> Option<nat>, limit: nat)
    requires ms != [] && Tracks(a, ms[..|ms| - 1], parse, limit) && OpenSince(ms, b, parse, limit)
    ensures var a' := Assembled(a, ms[|ms| - 1], parse, limit).0;
            a'.active && a'.expected == Parsed(parse, ms[b].value).value && a'.cached == Gathered(ms, b)
  {
    OpenBefore(ms, b, parse, limit);
    var before := ms[..|ms| - 1];
    if b < |before| {
      assert OpenSince(before, b, parse, limit) && before[b] == ms[b];
    }
    hide OpenSince, Parsed;
  }

  lemma MessageOpens(a: Assembly, ms: seq<Option<Message>>, parse: string -> Option<nat>, limit: nat) returns (b: nat)
    requires ms != [] && Tracks(a, ms[..|ms| - 1], parse, limit) && Assembled(a, ms[|ms| - 1], parse, limit).0.active
    ensures OpenSince(ms, b, parse, limit)
  {
    hide OpenSince, Gathered;
    var before, m := ms[..|ms| - 1], ms[|ms| - 1];
    if GoodStart(m, parse, limit) {
      b := |before|;
    } else {
      b :| OpenSince(before, b, parse, limit);
      OpenInside(before, b, parse, limit);
      assert before[b] == ms[b];
    }
    OpenBefore(ms, b, parse, limit);
  }

  lemma OpenInside(ms: seq<Option<Message>>, b: nat, parse: string -> Option<nat>, limit: nat)
    requires OpenSince(ms, b, parse, limit)
    ensures b < |ms|
  {
  }

  /** A clipboard is finished exactly by an end message behind a good start and data messages that have the
      declared length together; and then it is these data. */
  lemma FinishedExactly(ms: seq<Option<Message>>, m: Option<Message>, parse: string -> Option<nat>, limit: nat)
    ensures var (a, r) := Assembled(Run(EMPTY, ms, parse, limit), m, parse, limit);
            && (r == Finished <==> GoodEnd(m) && exists b: nat :: CompleteSince(ms, b, parse, limit))
            && (r == Finished ==> forall b: nat | OpenSince(ms, b, parse, limit) :: a.cached == Gathered(ms, b))
  {
    hide OpenSince, Parsed, Run, Gathered;
    RunTracks(ms, parse, limit);
    var (a, r) := Assembled(Run(EMPTY, ms, parse, limit), m, parse, limit);
    if r == Finished {
      var b: nat :| OpenSince(ms, b, parse, limit);
      assert CompleteSince(ms, b, parse, limit);
    }
  }

  // ---------- Round trip ----------

  function Joined(parts: seq<string>): string
    decreases |parts|
  {
    if parts == [] then "" else Joined(parts[..|parts| - 1]) + parts[|parts| - 1]
  }

  /** The messages that carry a payload in parts. */
  function Messages(id: nat, sequence: nat, parts: seq<string>): seq<Option<Message>>
    decreases |parts|
  {
    if parts == [] then []
    else Messages(id, sequence, parts[..|parts| - 1]) + [Some(Message(id, sequence, DataChunk, parts[|parts| - 1]))]
  }

  lemma {:induction false} PartsAssemble(a: Assembly, id: nat, sequence: nat, parts: seq<string>,
                                          parse: string -> Option<nat>, limit: nat)
    requires id < CLIPBOARDS && a.active && |a.cached| + |Joined(parts)| <= a.expected
    ensures Run(a, Messages(id, sequence, parts), parse, limit) == a.(cached := a.cached + Joined(parts))
    decreases |parts|
  {
    var ms := Messages(id, sequence, parts);
    if parts == [] {
      assert a.cached + "" == a.cached;
    } else {
      var before, last := parts[..|parts| - 1], parts[|parts| - 1];
      PartsAssemble(a, id, sequence, before, parse, limit);
      assert ms[..|ms| - 1] == Messages(id, sequence, before);
      Associate(a.cached, Joined(before), last);
    }
  }

  /** Whatever was received before, and however a payload within the limit is cut into parts: announced by
      its length, sent, and ended, it arrives whole. */
  lemma PayloadArrives(a: Assembly, id: nat, sequence: nat, parts: seq<string>, parse: string -> Option<nat>,
                       limit: nat)
    requires id < CLIPBOARDS && ReadsDecimals(parse) && |Joined(parts)| <= limit <= SIZE_MAX
    ensures var payload := Joined(parts);
            var (started, r1) := Assembled(a, Some(Message(id, sequence, DataStart, Decimal(|payload|))), parse, limit);
            var all := Run(started, Messages(id, sequence, parts), parse, limit);
            var (done, r2) := Assembled(all, Some(Message(id, sequence, DataEnd, "")), parse, limit);
            r1 == Started && r2 == Finished && done == Assembly(|payload|, false, payload)
  {
    hide Decimal, Joined, Messages, Run;
    var payload := Joined(parts);
    var started := Assembly(|payload|, true, "");
    assert parse(Decimal(|payload|)) == Some(|payload|);
    PartsAssemble(started, id, sequence, parts, parse, limit);
    assert "" + payload == payload;
  }

  // ---------- From end to end ----------

  /** A message is put into a chunk, sent out of it, and received. */
  method Deliver(c: ClipboardChunk, ghost sent: Message, receiver: Receiver, parse: string -> Option<nat>, limit: nat)
    requires c.Valid() && Sendable(sent) && c.chunk[..] == Layout(sent)
    modifies receiver
    ensures var (a, r) := Assembled(old(receiver.State()), Some(sent), parse, limit);
            && receiver.State() == (if r == Finished then a.(cached := "") else a)
            && receiver.forwarded == old(receiver.forwarded) + (if r == Finished then [(sent.id, a.cached)] else [])
            && receiver.disconnectsRequested == old(receiver.disconnectsRequested) + (if r == Error then 1 else 0)
  {
    hide Layout;
    var m := c.Send();
    receiver.SetClipboard(Some(m), parse, limit);
  }

  /** A payload that is cut into parts, put into chunks, sent and received byte by byte arrives whole,
      whatever the receiver was doing before. */
  method Carry(id: nat, sequence: nat, parts: seq<string>, receiver: Receiver, parse: string -> Option<nat>, limit: nat)
    requires id < CLIPBOARDS && sequence < 0x1_0000_0000
    requires ReadsDecimals(parse) && |Joined(parts)| <= limit <= SIZE_MAX
    modifies receiver
    ensures receiver.forwarded == old(receiver.forwarded) + [(id, Joined(parts))]
    ensures receiver.disconnectsRequested == old(receiver.disconnectsRequested) && !receiver.active
  {
    hide Layout, Joined, Decimal;
    var n := |Joined(parts)|;
    assert parse(Decimal(n)) == Some(n);
    var start := ClipboardChunk.Start(id, sequence, Decimal(n));
    Deliver(start, Message(id, sequence, DataStart, Decimal(n)), receiver, parse, limit);
    NothingJoined(parts);
    var i := 0;
    while i < |parts|
      invariant 0 <= i <= |parts|
      invariant receiver.State() == Assembly(n, true, Joined(parts[..i])) && |Joined(parts[..i])| <= n
      invariant receiver.forwarded == old(receiver.forwarded)
      invariant receiver.disconnectsRequested == old(receiver.disconnectsRequested)
    {
      JoinedNext(parts, i);
      var data := ClipboardChunk.Data(id, sequence, parts[i]);
      Deliver(data, Message(id, sequence, DataChunk, parts[i]), receiver, parse, limit);
      i := i + 1;
    }
    assert parts[..i] == parts;
    var end := ClipboardChunk.End(id, sequence);
    Deliver(end, Message(id, sequence, DataEnd, ""), receiver, parse, limit);
  }

  lemma NothingJoined(parts: seq<string>)
    ensures parts[..0] == [] && Joined([]) == ""
  {
  }

  lemma {:induction false} JoinedNext(parts: seq<string>, i: nat)
    requires i < |parts|
    ensures Joined(parts[..i + 1]) == Joined(parts[..i]) + parts[i]
    ensures |Joined(parts[..i + 1])| <= |Joined(parts)|
    decreases |parts|
  {
    var front := parts[..|parts| - 1];
    assert parts[..i + 1][..i] == parts[..i];
    if i < |front| {
      JoinedNext(front, i);
      assert front[..i + 1] == parts[..i + 1] && front[..i] == parts[..i];
    } else {
      assert parts[..i + 1] == parts && parts[..i] == front;
    }
  }
}

/** Receiving dragged files chunk by chunk into a drop directory, and the drag that follows. */
module FileReceiver {
  import opened Basics
  import opened Numbers
  import opened UniqueNames
  import opened DragInformation

  datatype Path = Path(dir: string, name: string)

  datatype Entry = Content(bytes: string) | Other

  type Files = map<Path, Entry>

  /** A message of a transfer, by its mark. */
  datatype Chunk = Start(size: string) | Data(bytes: string) | End | Unknown

  datatype Receiver = Receiver(
    dropDir: string, announced: seq<File>, index: nat,
    tempPath: Option<Path>, finalName: string, expected: nat, received: nat, active: bool)

  const UNNAMED := "deskbridge-drop.bin"

  function Idle(r: Receiver): Receiver {
    r.(tempPath := None, finalName := "", expected := 0, received := 0, active := false)
  }

  function WithoutTemp(r: Receiver, d: Files): Files {
    if r.tempPath.Some? then d - {r.tempPath.value} else d
  }

  /** The name of the k-th file to arrive. */
  function NameOf(announced: seq<File>, k: nat): string {
    if k < |announced| && announced[k].name != "" then BaseName(announced[k].name) else UNNAMED
  }

  function Declared(size: string): nat {
    if Stoull(size).Some? then Stoull(size).value else 0
  }

  function NamesIn(d: Files, dir: string): set<string> {
    set p | p in d && p.dir == dir :: p.name
  }

  /** All candidates are taken. */
  predicate Crowded(d: Files, dir: string, name: string) {
    FirstFree(NamesIn(d, dir), name, PathSplit(name), 0) == TRIES
  }

  /** Where a file goes: the first free candidate; the name itself if all are taken. */
  function Target(d: Files, dir: string, name: string): Path {
    var i := if Crowded(d, dir, name) then 0 else FirstFree(NamesIn(d, dir), name, PathSplit(name), 0);
    Path(dir, Candidate(name, PathSplit(name), i))
  }

  datatype Outcome = Outcome(receiver: Receiver, files: Files, written: Option<Path>)

  function TempName(id: nat): string {
    ".deskbridge-drop-" + Decimal(id)
  }

  function Begun(r: Receiver, d: Files, id: nat, size: string): Outcome {
    if r.dropDir == "" then Outcome(Idle(r), WithoutTemp(r, d), None)
    else
      var temp := Path(r.dropDir, TempName(id));
      Outcome(r.(tempPath := Some(temp), finalName := NameOf(r.announced, r.index), expected := Declared(size),
                 received := 0, active := true),
              WithoutTemp(r, d)[temp := Content("")], None)
  }

  function BytesAt(d: Files, p: Path): string {
    if p in d && d[p].Content? then d[p].bytes else ""
  }

  predicate Complete(r: Receiver) {
    r.expected == 0 || r.received == r.expected
  }

  /** What a chunk does. */
  function Handle(r: Receiver, d: Files, id: nat, c: Chunk): (o: Outcome)
    requires r.active ==> r.tempPath.Some?
    ensures o.receiver.active ==> o.receiver.tempPath.Some?
  {
    if c.Start? then Begun(r, d, id, c.size)
    else if !r.active || c.Unknown? then Outcome(r, d, None)
    else
      var temp := r.tempPath.value;
      if c.Data? then
        Outcome(r.(received := r.received + |c.bytes|), d[temp := Content(BytesAt(d, temp) + c.bytes)], None)
      else if !Complete(r) then Outcome(r.(active := false), d - {temp}, None)
      else
        var target := Target(d, r.dropDir, r.finalName);
        Outcome(r.(active := false, index := r.index + 1), d[target := Content(BytesAt(d, temp))] - {temp},
                Some(target))
  }

  /** The disk, as far as it matters. */
  class Disk {
    var files: Files

    constructor (files: Files)
      ensures this.files == files
    {
      this.files := files;
    }
  }

  // ---------- The program's object ----------

  class FileReceiver {
    /** What makes the name of the temporary file unique. */
    const id: nat
    const disk: Disk
    var dropDir: string
    var announced: seq<File>
    var index: nat
    var tempPath: Option<Path>
    var finalName: string
    var expected: nat
    var received: nat
    var active: bool

    ghost function State(): Receiver
      reads this
    {
      Receiver(dropDir, announced, index, tempPath, finalName, expected, received, active)
    }

    ghost predicate Valid()
      reads this
    {
      active ==> tempPath.Some?
    }

    constructor (id: nat, disk: Disk)
      ensures Valid() && this.id == id && this.disk == disk
      ensures State() == Receiver("", [], 0, None, "", 0, 0, false)
    {
      this.id, this.disk := id, disk;
      dropDir, announced, index := "", [], 0;
      tempPath, finalName, expected, received, active := None, "", 0, 0, false;
    }

    method SetDropDirectory(dir: string)
      requires Valid()
      modifies this
      ensures Valid() && State() == old(State()).(dropDir := dir)
    {
      dropDir := dir;
    }

    method SetDragFiles(files: seq<File>)
      requires Valid()
      modifies this
      ensures Valid() && State() == old(State()).(announced := files, index := 0)
    {
      announced := files;
      index := 0;
    }

    method NextFinalName() returns (name: string)
      ensures BaseName(name) == NameOf(announced, index)
    {
      if index < |announced| {
        name := announced[index].name;
        if name != "" {
          return;
        }
      }
      name := UNNAMED;
      BaseNameOfPlain(UNNAMED);
    }

    method UniquePath(dir: string, name: string) returns (path: Path)
      ensures path == Target(disk.files, dir, name)
    {
      var split := PathSplit(name);
      ghost var taken := NamesIn(disk.files, dir);
      var i := 0;
      while i < TRIES
        invariant 0 <= i <= TRIES
        invariant FirstFree(taken, name, split, i) == FirstFree(taken, name, split, 0)
      {
        var candidate := name;
        if i > 0 {
          candidate := split.stem + " (" + Decimal(i) + ")" + split.ext;
          CandidateText(name, split, i);
        }
        var full := Path(dir, candidate);
        if full !in disk.files {
          return full;
        }
        i := i + 1;
      }
      return Path(dir, name);
    }

    method Reset()
      requires Valid()
      modifies this, disk
      ensures Valid() && State() == Idle(old(State())) && disk.files == WithoutTemp(old(State()), old(disk.files))
    {
      if tempPath.Some? {
        disk.files := disk.files - {tempPath.value};
      }
      tempPath, finalName, expected, received, active := None, "", 0, 0, false;
    }

    method OnChunk(c: Chunk) returns (written: Option<Path>)
      requires Valid()
      modifies this, disk
      ensures Valid()
      ensures Outcome(State(), disk.files, written) == Handle(old(State()), old(disk.files), id, c)
    {
      hide TempName, NameOf, Target, BytesAt, Stoull, BaseName;
      if c.Start? {
        Reset();
        if dropDir == "" {
          return None;
        }
        var size := Stoull(c.size);
        expected := if size.Some? then size.value else 0;
        received := 0;
        var name := NextFinalName();
        finalName := BaseName(name);
        tempPath := Some(Path(dropDir, TempName(id)));
        disk.files := disk.files[tempPath.value := Content("")];
        active := true;
        return None;
      }
      if !active {
        return None;
      }
      if c.Data? {
        disk.files := disk.files[tempPath.value := Content(BytesAt(disk.files, tempPath.value) + c.bytes)];
        received := received + |c.bytes|;
        return None;
      }
      if c.End? {
        if expected != 0 && received != expected {
          disk.files := disk.files - {tempPath.value};
          active := false;
          return None;
        }
        var path := UniquePath(dropDir, finalName);
        disk.files := disk.files[path := Content(BytesAt(disk.files, tempPath.value))] - {tempPath.value};
        active := false;
        index := index + 1;
        return Some(path);
      }
      return None;
    }
  }

  // ---------- One chunk ----------

  /** Temporary files exist only while a transfer is active, and then the one of this transfer, which holds
      what has been received. */
  ghost predicate Tidy(r: Receiver, d: Files, id: nat) {
    && (forall p | p in d && p.name == TempName(id) :: r.active && r.tempPath == Some(p))
    && TempNamed(r, id)
    && (r.active ==> Receiving(r, d) && KeepsApart(r, id))
  }

  predicate TempNamed(r: Receiver, id: nat) {
    && (r.tempPath.Some? ==> r.tempPath.value.name == TempName(id))
    && (r.active ==> r.tempPath.Some?)
  }

  /** The file to be will not go under the name of the temporary one: because that one is in its way, or
      because it has another name. */
  predicate KeepsApart(r: Receiver, id: nat)
    requires r.tempPath.Some?
  {
    r.tempPath.value.dir == r.dropDir || r.finalName != TempName(id)
  }

  ghost predicate Receiving(r: Receiver, d: Files)
    requires r.tempPath.Some?
  {
    var temp := r.tempPath.value;
    temp in d && d[temp].Content? && |d[temp].bytes| == r.received
  }

  /** The chunk completes a file. */
  predicate Delivers(r: Receiver, c: Chunk) {
    r.active && c.End? && Complete(r)
  }

  /** The chunk completes a file for which no name is free. */
  predicate Overflows(r: Receiver, d: Files, c: Chunk) {
    Delivers(r, c) && Crowded(d, r.dropDir, r.finalName)
  }

  /** While there is room the target is free, and never the temporary file, which is still there. */
  lemma TargetIsFree(d: Files, dir: string, name: string)
    ensures Target(d, dir, name) in d <==> Crowded(d, dir, name)
    ensures Target(d, dir, name).dir == dir
  {
    var names := NamesIn(d, dir);
    hide Candidate, PathSplit;
    var target := Target(d, dir, name);
    assert target.name in names <==> target in d;
  }

  /** When the name itself is taken, the first number that is free goes before the extension. */
  lemma NumberBeforeExtension(d: Files, dir: string, name: string)
    requires Path(dir, name) in d && !Crowded(d, dir, name)
    ensures exists i: nat :: 0 < i < 10000 && NumberedTarget(d, dir, name, i)
  {
    hide Candidate, PathSplit, FirstFree;
    var i := FirstFree(NamesIn(d, dir), name, PathSplit(name), 0);
    CandidateText(name, PathSplit(name), 0);
    assert name in NamesIn(d, dir);
    forall k: nat | 0 < k < i ensures Path(dir, Candidate(name, PathSplit(name), k)) in d {
      assert Candidate(name, PathSplit(name), k) in NamesIn(d, dir);
    }
    TargetIsFree(d, dir, name);
    forall k: nat | 0 < k <= i ensures Candidate(name, PathSplit(name), k) == NumberedName(name, k) {
      PathCandidate(name, k);
      NoDot(name);
    }
    assert NumberedTarget(d, dir, name, i);
  }

  lemma NoDot(name: string)
    ensures (exists k: nat :: k > 0 && LastDotAt(name, k)) <==> exists k :: 0 < k < |name| && name[k] == '.'
  {
    if LastDot(name).Some? {
      var k := LastDot(name).value;
      forall i | k < i < |name| ensures name[i] != '.' {
        assert name[k + 1..][i - k - 1] == name[i];
      }
      assert LastDotAt(name, k);
      if i :| 0 < i < |name| && name[i] == '.' {
        assert i <= k;
      }
    }
  }

  /** The i-th numbered name is where the file goes, and the ones before it are taken. */
  ghost predicate NumberedTarget(d: Files, dir: string, name: string, i: nat) {
    && Target(d, dir, name) == Path(dir, NumberedName(name, i)) && Target(d, dir, name) !in d
    && forall k: nat | 0 < k < i :: Path(dir, NumberedName(name, k)) in d
  }

  /** A name with a number in front of its last dot, or at its end if it has none but a leading one. */
  ghost function NumberedName(name: string, i: nat): string {
    if k: nat :| k > 0 && LastDotAt(name, k) then name[..k] + " (" + Decimal(i) + ")" + name[k..]
    else name + " (" + Decimal(i) + ")"
  }

  lemma NamesHaveNoSpace(id: nat, name: string, i: nat)
    requires i > 0
    ensures Candidate(name, PathSplit(name), i) != TempName(id)
  {
    DecimalReads(id);
    hide Decimal, Natural, PathSplit;
    assert ' ' !in TempName(id);
    var split := PathSplit(name);
    assert Candidate(name, split, i)[|split.stem|] == ' ';
  }

  lemma TargetIsNotTemp(r: Receiver, d: Files, id: nat)
    requires Tidy(r, d, id) && r.active && !Crowded(d, r.dropDir, r.finalName)
    ensures Target(d, r.dropDir, r.finalName).name != TempName(id)
  {
    var i := FirstFree(NamesIn(d, r.dropDir), r.finalName, PathSplit(r.finalName), 0);
    TargetIsFree(d, r.dropDir, r.finalName);
    hide TempName, FirstFree, PathSplit, NamesIn;
    if i > 0 {
      NamesHaveNoSpace(id, r.finalName, i);
    } else {
      hide Crowded;
      assert Target(d, r.dropDir, r.finalName) == Path(r.dropDir, r.finalName);
    }
  }

  lemma HandleKeepsTidy(r: Receiver, d: Files, id: nat, c: Chunk)
    requires Tidy(r, d, id) && !Overflows(r, d, c)
    ensures var o := Handle(r, d, id, c); Tidy(o.receiver, o.files, id)
  {
    hide TempName, NameOf, Declared, Crowded, Target;
    if Delivers(r, c) {
      TargetIsFree(d, r.dropDir, r.finalName);
      TargetIsNotTemp(r, d, id);
    }
  }

  /** What is delivered is what was received, under a name that was free; every other file stays as it is.
      The one exception is a file that overflows: it replaces the file that has its own name. */
  lemma DeliveryPlacesFile(r: Receiver, d: Files, id: nat, c: Chunk)
    requires Tidy(r, d, id) && Delivers(r, c) && r.finalName != TempName(id)
    ensures var o := Handle(r, d, id, c);
            && o.written == Some(Target(d, r.dropDir, r.finalName))
            && o.files == d[o.written.value := d[r.tempPath.value]] - {r.tempPath.value}
            && (o.written.value in d <==> Overflows(r, d, c))
            && (Overflows(r, d, c) ==> o.written.value == Path(r.dropDir, r.finalName))
  {
    hide TempName, FirstFree, NamesIn, PathSplit;
    TargetIsFree(d, r.dropDir, r.finalName);
  }

  // ---------- The client's side ----------

  /** The receiver, the disk, and what the client remembers: how many files were announced, where the files
      of this announcement have gone, and the drags it has started on the screen. */
  datatype World = World(receiver: Receiver, files: Files, expected: nat, collected: seq<Path>, drags: seq<seq<Path>>)

  /** A list of files to come, or a chunk. */
  datatype Event = Announcement(dir: string, count: nat, data: string) | Message(chunk: Chunk)

  ghost predicate Sound(w: World) {
    w.receiver.active ==> w.receiver.tempPath.Some?
  }

  function Heard(w: World, a: Event): World
    requires a.Announcement?
  {
    w.(receiver := w.receiver.(dropDir := a.dir, announced := Announced(Lines(a.data), a.count), index := 0),
       expected := a.count, collected := [])
  }

  function Collect(w: World, path: Path): World {
    var all := w.collected + [path];
    if w.expected > 0 && |all| >= w.expected then w.(expected := 0, collected := [], drags := w.drags + [all])
    else w.(collected := all)
  }

  function WrittenBy(w: World, id: nat, e: Event): Option<Path>
    requires Sound(w)
  {
    if e.Announcement? then None else Handle(w.receiver, w.files, id, e.chunk).written
  }

  function Step(w: World, id: nat, e: Event): (w': World)
    requires Sound(w)
    ensures Sound(w')
  {
    if e.Announcement? then Heard(w, e)
    else
      var o := Handle(w.receiver, w.files, id, e.chunk);
      var w' := w.(receiver := o.receiver, files := o.files);
      if o.written.Some? then Collect(w', o.written.value) else w'
  }

  class Client {
    const receiver: FileReceiver
    var dragExpected: nat
    var dragReceived: seq<Path>
    /** The drags started on the screen. */
    var drags: seq<seq<Path>>

    ghost function State(): World
      reads this, receiver, receiver.disk
    {
      World(receiver.State(), receiver.disk.files, dragExpected, dragReceived, drags)
    }

    constructor (id: nat, disk: Disk)
      ensures receiver.id == id && receiver.disk == disk && fresh(receiver) && receiver.Valid()
      ensures State() == World(Receiver("", [], 0, None, "", 0, 0, false), disk.files, 0, [], [])
    {
      receiver := new FileReceiver(id, disk);
      dragExpected, dragReceived, drags := 0, [], [];
    }

    method DragInfoReceived(dir: string, fileCount: nat, data: string)
      requires receiver.Valid()
      modifies this, receiver
      ensures receiver.Valid() && State() == Step(old(State()), receiver.id, Announcement(dir, fileCount, data))
    {
      var files := ParseDragInfo(fileCount, data);
      receiver.SetDropDirectory(dir);
      receiver.SetDragFiles(files);
      dragExpected := fileCount;
      dragReceived := [];
    }

    method FileChunkReceived(c: Chunk)
      requires receiver.Valid()
      modifies this, receiver, receiver.disk
      ensures receiver.Valid() && State() == Step(old(State()), receiver.id, Message(c))
    {
      hide Handle;
      var written := receiver.OnChunk(c);
      if written.None? {
        return;
      }
      dragReceived := dragReceived + [written.value];
      if dragExpected > 0 && |dragReceived| >= dragExpected {
        drags := drags + [dragReceived];
        dragExpected := 0;
        dragReceived := [];
      }
    }
  }

  // ---------- Runs ----------

  function Run(w: World, id: nat, events: seq<Event>): (w': World)
    requires Sound(w)
    ensures Sound(w')
    decreases |events|
  {
    if events == [] then w else Step(Run(w, id, events[..|events| - 1]), id, events[|events| - 1])
  }

  /** Where the files of a run have gone. */
  function Written(w: World, id: nat, events: seq<Event>): seq<Path>
    requires Sound(w)
    decreases |events|
  {
    if events == [] then []
    else
      var before := events[..|events| - 1];
      var path := WrittenBy(Run(w, id, before), id, events[|events| - 1]);
      Written(w, id, before) + if path.Some? then [path.value] else []
  }

  /** No transfer finds all names taken; and an announcement names a directory, which is not changed in the
      middle of the transfer of a file that has the name of the temporary one. */
  ghost predicate OrderlyStep(w: World, id: nat, e: Event) {
    match e
    case Announcement(dir, _, _) =>
      dir != "" && (w.receiver.active && w.receiver.finalName == TempName(id) ==> dir == w.receiver.dropDir)
    case Message(c) => !Overflows(w.receiver, w.files, c)
  }

  ghost predicate Orderly(w: World, id: nat, events: seq<Event>)
    requires Sound(w)
    decreases |events|
  {
    events == [] ||
    var before := events[..|events| - 1];
    Orderly(w, id, before) && OrderlyStep(Run(w, id, before), id, events[|events| - 1])
  }

  ghost predicate Ready(w: World, id: nat) {
    Sound(w) && Tidy(w.receiver, w.files, id) && w.receiver.dropDir != ""
  }

  lemma StepKeepsReady(w: World, id: nat, e: Event)
    requires Ready(w, id) && OrderlyStep(w, id, e)
    ensures Ready(Step(w, id, e), id)
  {
    hide Handle, Overflows;
    if e.Message? {
      HandleKeepsTidy(w.receiver, w.files, id, e.chunk);
      HandleKeepsDir(w.receiver, w.files, id, e.chunk);
    }
  }

  lemma HandleKeepsDir(r: Receiver, d: Files, id: nat, c: Chunk)
    requires r.active ==> r.tempPath.Some?
    ensures Handle(r, d, id, c).receiver.dropDir == r.dropDir && Handle(r, d, id, c).receiver.announced == r.announced
  {
  }

  lemma {:induction false} RunKeepsReady(w: World, id: nat, events: seq<Event>)
    requires Ready(w, id) && Orderly(w, id, events)
    ensures Ready(Run(w, id, events), id)
    decreases |events|
  {
    hide Step, Tidy;
    if events != [] {
      var before := events[..|events| - 1];
      RunKeepsReady(w, id, before);
      StepKeepsReady(Run(w, id, before), id, events[|events| - 1]);
    }
  }

  /** Files that a step may not touch. */
  ghost predicate Keeps(d: Files, d': Files, id: nat) {
    forall p | p in d && p.name != TempName(id) :: p in d' && d'[p] == d[p]
  }

  /** New files are where a transfer was delivered to. */
  ghost predicate Adds(d: Files, d': Files, id: nat, written: seq<Path>) {
    forall p | p in d' && p.name != TempName(id) :: p in d || p in written
  }

  lemma HandleKeeps(r: Receiver, d: Files, id: nat, c: Chunk)
    requires TempNamed(r, id) && !Overflows(r, d, c)
    ensures var o := Handle(r, d, id, c);
            && TempNamed(o.receiver, id)
            && Keeps(d, o.files, id) && Adds(d, o.files, id, if o.written.Some? then [o.written.value] else [])
  {
    hide TempName, NameOf, Declared, Crowded, Target;
    if Delivers(r, c) {
      TargetIsFree(d, r.dropDir, r.finalName);
    }
  }

  /** No transfer finds all names taken. */
  ghost predicate Roomy(w: World, id: nat, events: seq<Event>)
    requires Sound(w)
    decreases |events|
  {
    events == [] ||
    var before, e := events[..|events| - 1], events[|events| - 1];
    Roomy(w, id, before)
    && (e.Message? ==> !Overflows(Run(w, id, before).receiver, Run(w, id, before).files, e.chunk))
  }

  /** Whenever files are announced, no run touches a file that was there before, whether a delivered one or
      any other, as long as there is a free name; and every new file is a delivered one. */
  lemma {:induction false} FilesStay(w: World, id: nat, events: seq<Event>)
    requires Sound(w) && TempNamed(w.receiver, id) && Roomy(w, id, events)
    ensures TempNamed(Run(w, id, events).receiver, id)
    ensures Keeps(w.files, Run(w, id, events).files, id)
    ensures Adds(w.files, Run(w, id, events).files, id, Written(w, id, events))
    decreases |events|
  {
    hide Handle, Overflows, TempName, Written;
    NothingWritten(w, id);
    if events != [] {
      var before, e := events[..|events| - 1], events[|events| - 1];
      var m := Run(w, id, before);
      FilesStay(w, id, before);
      WrittenLast(w, id, events);
      if e.Message? {
        HandleKeeps(m.receiver, m.files, id, e.chunk);
      }
    }
  }

  lemma NothingWritten(w: World, id: nat)
    requires Sound(w)
    ensures Written(w, id, []) == [] && Run(w, id, []) == w
  {
  }

  lemma WrittenLast(w: World, id: nat, events: seq<Event>)
    requires Sound(w) && events != []
    ensures var before, e := events[..|events| - 1], events[|events| - 1];
            var path := WrittenBy(Run(w, id, before), id, e);
            && Written(w, id, events) == Written(w, id, before) + (if path.Some? then [path.value] else [])
            && Run(w, id, events) == Step(Run(w, id, before), id, e)
  {
    hide WrittenBy, Step;
  }

  // ---------- What is delivered ----------

  /** The last start mark, if no end mark follows it. */
  function Open(events: seq<Event>): (b: Option<nat>)
    ensures b.Some? ==> b.value < |events| && events[b.value].Message? && events[b.value].chunk.Start?
    ensures b.Some? ==> forall k :: b.value < k < |events| ==>
                          events[k].Message? ==> !events[k].chunk.Start? && !events[k].chunk.End?
    decreases |events|
  {
    if events == [] then None
    else
      var e := events[|events| - 1];
      if e.Message? && e.chunk.Start? then Some(|events| - 1)
      else if e.Message? && e.chunk.End? then None
      else Open(events[..|events| - 1])
  }

  /** All data behind a position, put together. */
  function Gathered(events: seq<Event>, b: nat): string
    decreases |events|
  {
    if |events| <= b + 1 then ""
    else
      var e := events[|events| - 1];
      Gathered(events[..|events| - 1], b) + if e.Message? && e.chunk.Data? then e.chunk.bytes else ""
  }

  /** The temporary file holds the data since the start mark; the receiver knows the declared size. */
  ghost predicate Tracks(w: World, events: seq<Event>)
    requires Sound(w)
  {
    match Open(events)
    case None => !w.receiver.active
    case Some(b) =>
      && w.receiver.active
      && BytesAt(w.files, w.receiver.tempPath.value) == Gathered(events, b)
      && w.receiver.expected == Declared(events[b].chunk.size)
  }

  lemma {:induction false} RunTracks(w: World, id: nat, events: seq<Event>)
    requires Ready(w, id) && !w.receiver.active && Orderly(w, id, events)
    ensures Ready(Run(w, id, events), id) && Tracks(Run(w, id, events), events)
    decreases |events|
  {
    hide Step, Tracks, Tidy;
    RunKeepsReady(w, id, events);
    if events == [] {
      NoneOpen(w);
    } else {
      var before := events[..|events| - 1];
      RunTracks(w, id, before);
      StepTracks(Run(w, id, before), id, events);
    }
  }

  lemma NoneOpen(w: World)
    requires Sound(w) && !w.receiver.active
    ensures Tracks(w, [])
  {
  }

  lemma StepTracks(w: World, id: nat, events: seq<Event>)
    requires events != [] && Ready(w, id) && Tracks(w, events[..|events| - 1])
    requires OrderlyStep(w, id, events[|events| - 1])
    ensures Tracks(Step(w, id, events[|events| - 1]), events)
  {
    hide TempName, NameOf, Declared, Target, Overflows;
  }

  /** A file is delivered exactly at an end mark behind an open start mark, when the size is the declared one
      or none was declared. It then holds the data in between, under the name whose turn it is, made unique. */
  lemma DeliveredExactly(w: World, id: nat, events: seq<Event>)
    requires Ready(w, id) && !w.receiver.active && Orderly(w, id, events + [Message(End)])
    ensures var m := Run(w, id, events);
            var b := Open(events);
            var path := WrittenBy(m, id, Message(End));
            && (path.Some? <==> b.Some? && (Declared(events[b.value].chunk.size) == 0
                                            || |Gathered(events, b.value)| == Declared(events[b.value].chunk.size)))
            && (path.Some? ==> path.value == Target(m.files, m.receiver.dropDir, m.receiver.finalName)
                               && path.value !in m.files
                               && path.value in Step(m, id, Message(End)).files
                               && Step(m, id, Message(End)).files[path.value] == Content(Gathered(events, b.value)))
            && TempGone(Step(m, id, Message(End)).files, id)
  {
    hide Step, WrittenBy, Run, Orderly, Tidy, Tracks;
    OrderlyLast(w, id, events, Message(End));
    RunTracks(w, id, events);
    EndDelivers(Run(w, id, events), id, events);
  }

  lemma OrderlyLast(w: World, id: nat, events: seq<Event>, e: Event)
    requires Sound(w) && Orderly(w, id, events + [e])
    ensures Orderly(w, id, events) && OrderlyStep(Run(w, id, events), id, e)
  {
    assert (events + [e])[..|events|] == events;
  }

  ghost predicate TempGone(d: Files, id: nat) {
    forall p | p in d :: p.name != TempName(id)
  }

  lemma EndDelivers(m: World, id: nat, events: seq<Event>)
    requires Ready(m, id) && Tracks(m, events) && !Overflows(m.receiver, m.files, End)
    ensures var b := Open(events);
            var path := WrittenBy(m, id, Message(End));
            && (path.Some? <==> b.Some? && (Declared(events[b.value].chunk.size) == 0
                                            || |Gathered(events, b.value)| == Declared(events[b.value].chunk.size)))
            && (path.Some? ==> path.value == Target(m.files, m.receiver.dropDir, m.receiver.finalName)
                               && path.value !in m.files
                               && path.value in Step(m, id, Message(End)).files
                               && Step(m, id, Message(End)).files[path.value] == Content(Gathered(events, b.value)))
            && TempGone(Step(m, id, Message(End)).files, id)
  {
    hide Open, Gathered, Declared, Crowded, Target, TempName;
    TargetIsFree(m.files, m.receiver.dropDir, m.receiver.finalName);
    HandleKeepsTidy(m.receiver, m.files, id, End);
  }

  // ---------- Names and drags ----------

  /** While a list of files is being received, its names are used in order of completion; a transfer that was
      under way when the list came keeps the name it had. */
  ghost predicate NamesFollow(w: World, announced: seq<File>, count: nat, kept: Option<string>) {
    && w.receiver.announced == announced && w.receiver.index == count
    && (w.receiver.active ==> w.receiver.finalName == if kept.Some? then kept.value else NameOf(announced, count))
  }

  /** A transfer has been started. */
  predicate Started(events: seq<Event>) {
    exists i :: 0 <= i < |events| && events[i].Message? && events[i].chunk.Start?
  }

  /** The name of the transfer under way, until another one is started. */
  function Kept(r: Receiver, events: seq<Event>): Option<string> {
    if r.active && !Started(events) then Some(r.finalName) else None
  }

  predicate Messages(events: seq<Event>) {
    forall i :: 0 <= i < |events| ==> events[i].Message?
  }

  /** What an announcement of `count` files has come to when files have gone to these places. */
  ghost predicate DragsFollow(w: World, before: seq<seq<Path>>, count: nat, paths: seq<Path>) {
    if 0 < count <= |paths| then w.expected == 0 && w.drags == before + [paths[..count]]
    else w.expected == count && w.collected == paths && w.drags == before
  }

  /** After an announcement, the k-th file to be completed gets the k-th announced name, except that a
      transfer already under way takes the place of the first one under the name it had; and the drag is
      started exactly once, when as many files as announced have arrived, with the places of all of them. */
  lemma {:induction false} AnnouncementIsServed(w: World, id: nat, a: Event, events: seq<Event>)
    requires Sound(w) && a.Announcement? && Messages(events)
    ensures var start := Heard(w, a);
            var m, paths := Run(start, id, events), Written(start, id, events);
            && NamesFollow(m, Announced(Lines(a.data), a.count), |paths|, Kept(w.receiver, events))
            && DragsFollow(m, w.drags, a.count, paths)
    decreases |events|
  {
    hide Step, Run, Written, WrittenBy, NamesFollow, DragsFollow, Announced, Lines;
    var start := Heard(w, a);
    if events == [] {
      NothingWritten(start, id);
      JustHeard(w, a);
    } else {
      var before, e := events[..|events| - 1], events[|events| - 1];
      AnnouncementIsServed(w, id, a, before);
      WrittenLast(start, id, events);
      StartedLast(events);
      StepServes(Run(start, id, before), id, Announced(Lines(a.data), a.count), w.drags, a.count,
                 Written(start, id, before), e.chunk, Kept(w.receiver, before));
    }
  }

  lemma StartedLast(events: seq<Event>)
    requires events != []
    ensures var e := events[|events| - 1];
            Started(events) <==> Started(events[..|events| - 1]) || (e.Message? && e.chunk.Start?)
  {
    var before := events[..|events| - 1];
    if i :| 0 <= i < |before| && before[i].Message? && before[i].chunk.Start? {
      assert events[i] == before[i];
    }
    if i :| 0 <= i < |events| && events[i].Message? && events[i].chunk.Start? {
      assert i < |before| ==> before[i] == events[i];
    }
  }

  lemma JustHeard(w: World, a: Event)
    requires a.Announcement?
    ensures NamesFollow(Heard(w, a), Announced(Lines(a.data), a.count), 0, Kept(w.receiver, []))
    ensures DragsFollow(Heard(w, a), w.drags, a.count, [])
  {
    hide Announced, Lines;
  }

  lemma StepServes(w: World, id: nat, announced: seq<File>, drags: seq<seq<Path>>, count: nat, paths: seq<Path>,
                   c: Chunk, kept: Option<string>)
    requires Sound(w) && NamesFollow(w, announced, |paths|, kept) && DragsFollow(w, drags, count, paths)
    ensures var path := WrittenBy(w, id, Message(c));
            var paths' := paths + (if path.Some? then [path.value] else []);
            && NamesFollow(Step(w, id, Message(c)), announced, |paths'|, if c.Start? then None else kept)
            && DragsFollow(Step(w, id, Message(c)), drags, count, paths')
  {
    hide TempName, NameOf, Declared, Target;
    var path := WrittenBy(w, id, Message(c));
    if path.Some? {
      var paths' := paths + [path.value];
      assert count <= |paths| ==> paths'[..count] == paths[..count];
      assert count == |paths'| ==> paths'[..count] == paths';
    } else {
      assert paths + [] == paths;
    }
  }

  /** The names that are used are the announced ones as they are: parsing has left only plain names. */
  lemma AnnouncedNamesAreUsed(data: string, count: nat, k: nat)
    requires k < |Announced(Lines(data), count)|
    ensures NameOf(Announced(Lines(data), count), k) == Announced(Lines(data), count)[k].name
  {
    var f := Announced(Lines(data), count)[k];
    ParsedArePlain(data, count);
    assert f in Announced(Lines(data), count);
    BaseNameOfPlain(f.name);
  }

  /** The size that is checked is the one in the start mark; without one, or with 0, none is. */
  lemma DeclaredForms(n: nat, rest: string)
    requires rest != "" ==> !IsDigit(rest[0])
    ensures n < 0x1_0000_0000_0000_0000 ==> Declared(Decimal(n) + rest) == n
    ensures rest == "" || (!IsSpace(rest[0]) && rest[0] != '+' && rest[0] != '-') ==> Declared(rest) == 0
  {
    hide Stoull, Decimal;
    StoullForms(n, rest);
  }

  /** Without a drop directory nothing is started. */
  lemma NoDirectory(r: Receiver, d: Files, id: nat, size: string)
    requires r.dropDir == "" && (r.active ==> r.tempPath.Some?)
    ensures var o := Handle(r, d, id, Start(size));
            !o.receiver.active && o.written == None && o.files == WithoutTemp(r, d)
  {
  }

  /** Files beyond those announced all get one name. */
  lemma UnannouncedName(announced: seq<File>, k: nat)
    requires k >= |announced|
    ensures NameOf(announced, k) == "deskbridge-drop.bin"
  {
  }

  // ---------- A full directory ----------

  /** A directory in which the first `n` names that would be tried are taken. */
  function Taken(dir: string, name: string, content: string, n: nat): (d: Files)
    ensures forall i :: 0 <= i < n ==> Path(dir, Candidate(name, PathSplit(name), i)) in d
    ensures forall p | p in d :: d[p] == Content(content)
  {
    if n == 0 then map[]
    else Taken(dir, name, content, n - 1)[Path(dir, Candidate(name, PathSplit(name), n - 1)) := Content(content)]
  }

  lemma AllTaken(d: Files, dir: string, name: string)
    requires forall i :: 0 <= i < 10000 ==> Path(dir, Candidate(name, PathSplit(name), i)) in d
    ensures Crowded(d, dir, name) && Target(d, dir, name) == Path(dir, name)
  {
    hide PathSplit, Candidate;
    forall i | 0 <= i < TRIES ensures Candidate(name, PathSplit(name), i) in NamesIn(d, dir) {
      assert Path(dir, Candidate(name, PathSplit(name), i)) in d;
    }
    CandidateText(name, PathSplit(name), 0);
  }

  lemma UnnamedIsNoTemp(id: nat)
    ensures UNNAMED != TempName(id)
  {
    assert UNNAMED[0] == 'd' && TempName(id)[0] == '.';
  }

  /** This happens: the file that is received replaces one that was there, whatever it held. */
  lemma FullDirectoryIsOverwritten(id: nat, dir: string, content: string, bytes: string)
    requires dir != ""
    ensures var d := Taken(dir, UNNAMED, content, TRIES);
            var w := World(Receiver("", [], 0, None, "", 0, 0, false), d, 0, [], []);
            var after := Run(w, id, [Announcement(dir, 0, ""), Message(Start("")), Message(Data(bytes)), Message(End)]);
            && Path(dir, UNNAMED) in d && d[Path(dir, UNNAMED)] == Content(content)
            && Path(dir, UNNAMED) in after.files && after.files[Path(dir, UNNAMED)] == Content(bytes)
  {
    hide Candidate, PathSplit, Handle, Taken, TempName, Run;
    var d := Taken(dir, UNNAMED, content, TRIES);
    CandidateText(UNNAMED, PathSplit(UNNAMED), 0);
    assert Path(dir, Candidate(UNNAMED, PathSplit(UNNAMED), 0)) in d;
    var r := Receiver(dir, [], 0, None, "", 0, 0, false);
    ThreeChunks(r, d, id, bytes);
    var w := World(Receiver("", [], 0, None, "", 0, 0, false), d, 0, [], []);
    assert Heard(w, Announcement(dir, 0, "")) == World(r, d, 0, [], []);
    FourEvents(w, id, Announcement(dir, 0, ""), Message(Start("")), Message(Data(bytes)), Message(End));
  }

  lemma FourEvents(w: World, id: nat, a: Event, b: Event, c: Event, d: Event)
    requires Sound(w)
    ensures Run(w, id, [a, b, c, d]) == Step(Step(Step(Step(w, id, a), id, b), id, c), id, d)
  {
    hide Step, Run;
    RunNext(w, id, [], a);
    RunNext(w, id, [a], b);
    RunNext(w, id, [a, b], c);
    RunNext(w, id, [a, b, c], d);
    NothingWritten(w, id);
    assert [] + [a] == [a] && [a] + [b] == [a, b] && [a, b] + [c] == [a, b, c] && [a, b, c] + [d] == [a, b, c, d];
  }

  lemma RunNext(w: World, id: nat, events: seq<Event>, e: Event)
    requires Sound(w)
    ensures Run(w, id, events + [e]) == Step(Run(w, id, events), id, e)
  {
    assert (events + [e])[..|events|] == events;
  }

  lemma ThreeChunks(r: Receiver, d: Files, id: nat, bytes: string)
    requires r == Receiver(r.dropDir, [], 0, None, "", 0, 0, false) && r.dropDir != ""
    requires forall i :: 0 <= i < TRIES ==> Path(r.dropDir, Candidate(UNNAMED, PathSplit(UNNAMED), i)) in d
    ensures var a := Handle(r, d, id, Start(""));
            var b := Handle(a.receiver, a.files, id, Data(bytes));
            var c := Handle(b.receiver, b.files, id, End);
            && Path(r.dropDir, UNNAMED) in c.files && c.files[Path(r.dropDir, UNNAMED)] == Content(bytes)
            && a.written == b.written == None && c.written == Some(Path(r.dropDir, UNNAMED))
  {
    hide Candidate, PathSplit, TempName, Target, Crowded;
    var a := Handle(r, d, id, Start(""));
    var temp := Path(r.dropDir, TempName(id));
    assert Declared("") == 0;
    assert a.files == d[temp := Content("")];
    var b := Handle(a.receiver, a.files, id, Data(bytes));
    assert "" + bytes == bytes;
    assert b.files == d[temp := Content("")][temp := Content(bytes)];
    var c := Handle(b.receiver, b.files, id, End);
    AllTaken(b.files, r.dropDir, UNNAMED);
    UnnamedIsNoTemp(id);
    assert c.written == Some(Path(r.dropDir, UNNAMED));
  }
}

/** Uploads that are saved side by side into one directory, none of them overwriting anything. */
module Upload {
  import opened Basics
  import opened UniqueNames

  /** Who has put a file where it is: an upload's temporary file, its final file, or anyone else. */
  datatype Owner = Other | Temp(r: nat) | Final(r: nat)

  datatype Entry = Entry(bytes: string, owner: Owner)

  datatype Request = Request(name: string, bytes: string)

  /** How far an upload has come; the index of a result is that of the candidate it was linked to. */
  datatype Phase =
    | Idle
    | Copying(temp: string, copied: nat)
    | Linking(temp: string, i: nat)
    | Returning(temp: string, result: Option<nat>)
    | Done(result: Option<nat>)

  datatype World = World(dir: map<string, Entry>, requests: seq<Request>, phases: seq<Phase>)

  /** The steps of the uploads, in any order: `Break` is any failure but a name that is taken. Others may
      put files under names that are free. */
  datatype Step =
    | Create(r: nat, temp: string)
    | Copy(r: nat, n: nat)
    | Close(r: nat)
    | TryLink(r: nat)
    | Break(r: nat)
    | Remove(r: nat)
    | Arrive(name: string, bytes: string)

  predicate Proper(w: World) {
    |w.phases| == |w.requests|
  }

  predicate Enabled(w: World, s: Step)
    requires Proper(w)
  {
    if s.Arrive? then s.name !in w.dir
    else
      && s.r < |w.phases|
      && var p := w.phases[s.r];
      match s
      case Create(_, temp) => p.Idle? && temp !in w.dir
      case Copy(r, n) => p.Copying? && p.copied + n <= |w.requests[r].bytes|
      case Close(r) => p.Copying? && p.copied == |w.requests[r].bytes|
      case TryLink(_) => p.Linking? && p.i < TRIES && p.temp in w.dir
      case Break(_) => p.Idle? || p.Copying? || p.Linking?
      case Remove(_) => p.Returning?
      case Arrive(_, _) => true
  }

  function Name(w: World, r: nat, i: nat): string
    requires r < |w.requests|
  {
    Candidate(w.requests[r].name, GoSplit(w.requests[r].name), i)
  }

  function Goes(w: World, r: nat, p: Phase): World
    requires r < |w.phases|
  {
    w.(phases := w.phases[r := p])
  }

  function Next(w: World, s: Step): (w': World)
    requires Proper(w) && Enabled(w, s)
    ensures Proper(w') && w'.requests == w.requests
  {
    match s
    case Create(r, temp) => Goes(w, r, Copying(temp, 0)).(dir := w.dir[temp := Entry("", Temp(r))])
    case Copy(r, n) =>
      var p := w.phases[r];
      Goes(w, r, p.(copied := p.copied + n)).(
        dir := w.dir[p.temp := Entry(w.requests[r].bytes[..p.copied + n], Temp(r))])
    case Close(r) => Goes(w, r, Linking(w.phases[r].temp, 0))
    case TryLink(r) =>
      var Linking(temp, i) := w.phases[r];
      if Name(w, r, i) in w.dir then Goes(w, r, Linking(temp, i + 1))
      else Goes(w, r, Returning(temp, Some(i))).(dir := w.dir[Name(w, r, i) := Entry(w.dir[temp].bytes, Final(r))])
    case Break(r) =>
      Goes(w, r, if w.phases[r].Idle? then Done(None) else Returning(w.phases[r].temp, None))
    case Remove(r) =>
      Goes(w, r, Done(w.phases[r].result)).(dir := w.dir - {w.phases[r].temp})
    case Arrive(name, bytes) => w.(dir := w.dir[name := Entry(bytes, Other)])
  }

  /** A run of the system: every step is possible when it happens. */
  ghost predicate Possible(w: World, steps: seq<Step>)
    requires Proper(w)
    decreases |steps|, 0
  {
    steps == [] ||
    (Possible(w, steps[..|steps| - 1]) && Enabled(Run(w, steps[..|steps| - 1]), steps[|steps| - 1]))
  }

  ghost function Run(w: World, steps: seq<Step>): (w': World)
    requires Proper(w) && Possible(w, steps)
    ensures Proper(w') && w'.requests == w.requests
    decreases |steps|, 1
  {
    if steps == [] then w else Next(Run(w, steps[..|steps| - 1]), steps[|steps| - 1])
  }

  // ---------- What every run keeps ----------

  predicate HasTemp(p: Phase) {
    p.Copying? || p.Linking? || p.Returning?
  }

  predicate HasResult(p: Phase) {
    (p.Returning? || p.Done?) && p.result.Some?
  }

  /** An upload owns its temporary file, which holds what has been copied, and its final file. */
  ghost predicate Owns(w: World, r: nat)
    requires Proper(w) && r < |w.phases|
  {
    var p, bytes := w.phases[r], w.requests[r].bytes;
    && (HasTemp(p) ==> p.temp in w.dir && w.dir[p.temp].owner == Temp(r))
    && (p.Copying? ==> p.copied <= |bytes| && w.dir[p.temp].bytes == bytes[..p.copied])
    && (p.Linking? ==> w.dir[p.temp].bytes == bytes)
    && (HasResult(p) ==>
        Name(w, r, p.result.value) in w.dir && w.dir[Name(w, r, p.result.value)] == Entry(bytes, Final(r)))
  }

  /** A file that carries an upload's mark is that upload's. */
  ghost predicate Owned(w: World, f: string)
    requires Proper(w) && f in w.dir
  {
    match w.dir[f].owner
    case Other => true
    case Temp(r) => r < |w.phases| && HasTemp(w.phases[r]) && w.phases[r].temp == f
    case Final(r) => r < |w.phases| && HasResult(w.phases[r]) && Name(w, r, w.phases[r].result.value) == f
  }

  ghost predicate Sound(w: World) {
    && Proper(w)
    && (forall r :: 0 <= r < |w.phases| ==> Owns(w, r))
    && (forall f | f in w.dir :: Owned(w, f))
  }

  lemma StepKeepsOwns(w: World, s: Step, r: nat)
    requires Sound(w) && Enabled(w, s) && r < |w.phases|
    ensures r < |Next(w, s).phases| && Owns(Next(w, s), r)
  {
    hide Name, Owns, Owned;
    assert Owns(w, r);
    if s.Arrive? || s.r != r {
      assert s.Arrive? || Owns(w, s.r);
      OthersStepKeepsOwns(w, s, r);
    } else {
      OwnStepKeepsOwns(w, s);
    }
  }

  lemma OwnStepKeepsOwns(w: World, s: Step)
    requires Proper(w) && !s.Arrive? && Enabled(w, s) && Owns(w, s.r)
    ensures s.r < |Next(w, s).phases| && Owns(Next(w, s), s.r)
  {
    hide Name;
    SameNames(w, s, s.r);
  }

  lemma OthersStepKeepsOwns(w: World, s: Step, r: nat)
    requires Proper(w) && Enabled(w, s) && r < |w.phases| && Owns(w, r)
    requires s.Arrive? || (s.r != r && Owns(w, s.r))
    ensures r < |Next(w, s).phases| && Owns(Next(w, s), r)
  {
    hide Name;
    SameNames(w, s, r);
  }

  lemma SameNames(w: World, s: Step, r: nat)
    requires Proper(w) && Enabled(w, s) && r < |w.requests|
    ensures |Next(w, s).phases| == |w.phases| && forall i: nat :: Name(Next(w, s), r, i) == Name(w, r, i)
  {
  }

  lemma StepKeepsOwned(w: World, s: Step, f: string)
    requires Sound(w) && Enabled(w, s) && f in Next(w, s).dir
    ensures Owned(Next(w, s), f)
  {
    hide Name;
    assert f in w.dir ==> Owned(w, f);
    assert s.Arrive? || Owns(w, s.r);
    var o := Next(w, s).dir[f].owner;
    if !o.Other? && o.r < |w.phases| {
      SameNames(w, s, o.r);
    }
    hide Sound, Owns;
  }

  lemma StepKeepsSound(w: World, s: Step)
    requires Sound(w) && Enabled(w, s)
    ensures Sound(Next(w, s))
  {
    hide Owns, Owned, Enabled, Next;
    forall r | 0 <= r < |w.phases| {
      StepKeepsOwns(w, s, r);
    }
    forall f | f in Next(w, s).dir {
      StepKeepsOwned(w, s, f);
    }
    SamePhases(w, s);
  }

  lemma SamePhases(w: World, s: Step)
    requires Proper(w) && Enabled(w, s)
    ensures |Next(w, s).phases| == |w.phases|
  {
  }

  /** No step touches a file that is not a temporary one. */
  ghost predicate FilesStay(w: World, w': World) {
    forall f | f in w.dir && !w.dir[f].owner.Temp? :: f in w'.dir && w'.dir[f] == w.dir[f]
  }

  lemma StepKeepsFiles(w: World, s: Step)
    requires Sound(w) && Enabled(w, s)
    ensures FilesStay(w, Next(w, s))
  {
    hide Name;
    assert s.Arrive? || Owns(w, s.r);
  }

  /** In every run, however the uploads are interleaved, files that were there stay as they are. */
  lemma {:induction false} RunKeepsFiles(w: World, steps: seq<Step>)
    requires Sound(w) && Possible(w, steps)
    ensures Sound(Run(w, steps)) && FilesStay(w, Run(w, steps))
    decreases |steps|
  {
    hide Next, Enabled, Owns, Owned;
    if steps != [] {
      var before, s := steps[..|steps| - 1], steps[|steps| - 1];
      RunKeepsFiles(w, before);
      StepKeepsSound(Run(w, before), s);
      StepKeepsFiles(Run(w, before), s);
    }
  }

  predicate Succeeded(w: World, r: nat) {
    r < |w.phases| && HasResult(w.phases[r])
  }

  function ResultName(w: World, r: nat): string
    requires Proper(w) && Succeeded(w, r)
  {
    Name(w, r, w.phases[r].result.value)
  }

  ghost predicate Fresh(w: World) {
    Proper(w) && (forall r :: 0 <= r < |w.phases| ==> w.phases[r].Idle?)
        && (forall f | f in w.dir :: w.dir[f].owner.Other?)
  }

  /** Uploads that succeed get different names, and under each name there are the bytes of its upload. */
  lemma ResultsAreDistinct(w: World, steps: seq<Step>, r: nat, q: nat)
    requires Fresh(w) && Possible(w, steps)
    requires var e := Run(w, steps); r != q && Succeeded(e, r) && Succeeded(e, q)
    ensures var e := Run(w, steps);
            && ResultName(e, r) != ResultName(e, q) && ResultName(e, r) !in w.dir
            && ResultName(e, r) in e.dir && e.dir[ResultName(e, r)].bytes == w.requests[r].bytes
  {
    hide Name, Run, Possible;
    RunKeepsFiles(w, steps);
    var e := Run(w, steps);
    assert Owns(e, r) && Owns(e, q);
  }

  /** When all uploads are done, the directory has their results and what others put there, and nothing else. */
  lemma NothingIsLeftBehind(w: World, steps: seq<Step>, f: string)
    requires Fresh(w) && Possible(w, steps)
    requires var e := Run(w, steps); f in e.dir && forall r :: 0 <= r < |e.phases| ==> e.phases[r].Done?
    ensures var e := Run(w, steps);
            e.dir[f].owner.Other? || exists r: nat :: Succeeded(e, r) && ResultName(e, r) == f
  {
    hide Name, Run, Possible;
    RunKeepsFiles(w, steps);
    var e := Run(w, steps);
    assert Owned(e, f);
    if !e.dir[f].owner.Other? {
      assert Succeeded(e, e.dir[f].owner.r) && ResultName(e, e.dir[f].owner.r) == f;
    }
  }

  // ---------- Which name an upload gets ----------

  /** The link attempts of an upload: the name, and whether it was free at that moment. */
  ghost function Attempts(w: World, steps: seq<Step>, r: nat): seq<(string, bool)>
    requires Proper(w) && Possible(w, steps)
    decreases |steps|
  {
    if steps == [] then []
    else
      var before, s := steps[..|steps| - 1], steps[|steps| - 1];
      var m := Run(w, before);
      Attempts(w, before, r) +
      if s == TryLink(r) then [(Name(m, r, m.phases[r].i), Name(m, r, m.phases[r].i) !in m.dir)] else []
  }

  /** The first `n` candidates, all taken. */
  function Refused(w: World, r: nat, n: nat): (a: seq<(string, bool)>)
    requires r < |w.requests|
    ensures |a| == n && forall k :: 0 <= k < n ==> a[k] == (Name(w, r, k), false)
  {
    seq(n, k requires 0 <= k < n => (Name(w, r, k), false))
  }

  /** How the attempts so far fit the phase. */
  ghost predicate AttemptsFit(w: World, r: nat, a: seq<(string, bool)>)
    requires Proper(w) && r < |w.phases|
  {
    match w.phases[r]
    case Idle => a == []
    case Copying(_, _) => a == []
    case Linking(_, i) => i <= TRIES && a == Refused(w, r, i)
    case Returning(_, result) => ResultFits(w, r, result, a)
    case Done(result) => ResultFits(w, r, result, a)
  }

  ghost predicate ResultFits(w: World, r: nat, result: Option<nat>, a: seq<(string, bool)>)
    requires r < |w.requests|
  {
    match result
    case Some(i) => i < TRIES && a == Refused(w, r, i) + [(Name(w, r, i), true)]
    case None => |a| <= TRIES && a == Refused(w, r, |a|)
  }

  /** The candidates are tried in order, and the one an upload gets is the first whose attempt found it free;
      an upload without a result has found free none of those it tried. */
  lemma {:induction false} FirstFreeIsTaken(w: World, steps: seq<Step>, r: nat)
    requires Fresh(w) && Possible(w, steps) && r < |w.phases|
    ensures |Run(w, steps).phases| == |w.phases| && AttemptsFit(Run(w, steps), r, Attempts(w, steps, r))
    decreases |steps|
  {
    hide AttemptsFit, Next, Enabled;
    if steps == [] {
      NoAttempts(w, r);
    } else {
      var before, s := steps[..|steps| - 1], steps[|steps| - 1];
      FirstFreeIsTaken(w, before, r);
      SamePhases(Run(w, before), s);
      StepFits(Run(w, before), s, r, Attempts(w, before, r));
      assert Attempts(w, before, r) + [] == Attempts(w, before, r);
    }
  }

  lemma NoAttempts(w: World, r: nat)
    requires Proper(w) && r < |w.phases| && w.phases[r].Idle?
    ensures AttemptsFit(w, r, [])
  {
  }

  lemma StepFits(w: World, s: Step, r: nat, a: seq<(string, bool)>)
    requires Proper(w) && Enabled(w, s) && r < |w.phases| && AttemptsFit(w, r, a)
    ensures |Next(w, s).phases| == |w.phases|
    ensures s != TryLink(r) ==> AttemptsFit(Next(w, s), r, a)
    ensures s == TryLink(r) ==>
              w.phases[r].Linking?
              && AttemptsFit(Next(w, s), r, a + [(Name(w, r, w.phases[r].i), Name(w, r, w.phases[r].i) !in w.dir)])
  {
    hide Name;
    SameRefused(w, Next(w, s), r, |a|);
    if s == TryLink(r) {
      TryFits(w, s, r, a);
    } else if !s.Arrive? && s.r == r {
      assert Next(w, s).phases[r].Linking? ==> a == Refused(w, r, 0);
    } else {
      assert Next(w, s).phases[r] == w.phases[r];
      if HasResult(w.phases[r]) {
        SameRefused(w, Next(w, s), r, w.phases[r].result.value);
      }
    }
  }

  lemma SameRefused(w: World, w': World, r: nat, n: nat)
    requires r < |w.requests| && w'.requests == w.requests
    ensures Refused(w, r, n) == Refused(w', r, n)
    ensures forall k: nat :: Name(w, r, k) == Name(w', r, k)
  {
  }

  lemma TryFits(w: World, s: Step, r: nat, a: seq<(string, bool)>)
    requires Proper(w) && s == TryLink(r) && Enabled(w, s) && AttemptsFit(w, r, a)
    ensures AttemptsFit(Next(w, s), r, a + [(Name(w, r, w.phases[r].i), Name(w, r, w.phases[r].i) !in w.dir)])
  {
    hide Name;
    var i := w.phases[r].i;
    SameRefused(w, Next(w, s), r, i);
    SameRefused(w, Next(w, s), r, i + 1);
    assert Refused(w, r, i + 1) == Refused(w, r, i) + [(Name(w, r, i), false)];
  }

  predicate AllBy(r: nat, steps: seq<Step>) {
    forall s | s in steps :: !s.Arrive? && s.r == r
  }

  // ---------- One upload from start to end ----------

  class Directory {
    /** The directory, and how far the uploads into it have come. */
    var world: World

    constructor (world: World)
      ensures this.world == world
    {
      this.world := world;
    }

    method Perform(r: nat, s: Step, ghost start: World, ghost steps: seq<Step>) returns (ghost steps': seq<Step>)
      requires Proper(start) && Possible(start, steps) && world == Run(start, steps) && Enabled(world, s)
      requires AllBy(r, steps) && AllBy(r, [s])
      modifies this
      ensures AllBy(r, steps')
      ensures steps' == steps + [s] && Possible(start, steps') && world == Run(start, steps') == Next(old(world), s)
    {
      world := Next(world, s);
      steps' := steps + [s];
      assert steps'[..|steps'| - 1] == steps;
    }

    /** An upload that is alone while it runs: its steps are a run of the system. The temporary file, whose
        name is new, is gone in the end. */
    method SaveUniqueUpload(r: nat, temp: string) returns (name: Option<string>, ghost steps: seq<Step>)
      requires Proper(world) && r < |world.phases| && world.phases[r].Idle? && temp !in world.dir
      modifies this
      ensures Proper(old(world)) && Possible(old(world), steps) && world == Run(old(world), steps)
      ensures AllBy(r, steps)
      ensures var request := old(world).requests[r];
              var i := FirstFree(old(world).dir.Keys + {temp}, request.name, GoSplit(request.name), 0);
              if i < TRIES then
                && name == Some(Name(old(world), r, i))
                && world.dir == old(world).dir[name.value := Entry(request.bytes, Final(r))]
              else name == None && world.dir == old(world).dir
    {
      hide Possible, Run, GoSplit, Candidate, Enabled, Next, Amid, AllBy, FirstFree;
      ghost var start := world;
      ghost var taken := start.dir.Keys + {temp};
      var request := world.requests[r];
      steps := Begin(start, r, temp);
      FirstFreeFrom(taken, request.name, GoSplit(request.name), 0);
      var i := 0;
      while i < TRIES
        invariant 0 <= i <= TRIES && world == Amid(start, r, temp, Linking(temp, i), request.bytes)
        invariant FirstFree(taken, request.name, GoSplit(request.name), i) ==
            FirstFree(taken, request.name, GoSplit(request.name), 0)
        invariant Possible(start, steps) && world == Run(start, steps) && AllBy(r, steps)
      {
        FirstFreeFrom(taken, request.name, GoSplit(request.name), i);
        name, steps := Try(start, r, temp, i, steps);
        if name.Some? {
          return;
        }
        i := i + 1;
      }
      FirstFreeFrom(taken, request.name, GoSplit(request.name), TRIES);
      steps := GiveUp(start, r, temp, i, steps);
      return None, steps;
    }

    /** The temporary file is created, filled and closed. */
    method Begin(ghost start: World, r: nat, temp: string) returns (ghost steps: seq<Step>)
      requires world == start && Proper(start) && r < |start.phases| && start.phases[r].Idle? && temp !in start.dir
      modifies this
      ensures Possible(start, steps) && world == Run(start, steps) && AllBy(r, steps)
      ensures world == Amid(start, r, temp, Linking(temp, 0), start.requests[r].bytes)
    {
      hide Possible, Run, Enabled, Next, Amid, AllBy;
      var n := |world.requests[r].bytes|;
      Nothing(start, r, temp);
      Prepared(start, r, temp);
      steps := Perform(r, Create(r, temp), start, []);
      steps := Perform(r, Copy(r, n), start, steps);
      steps := Perform(r, Close(r), start, steps);
    }

    /** One round of the loop: a link attempt, and the end of the upload if it succeeds. */
    method Try(ghost start: World, r: nat, temp: string, i: nat, ghost steps: seq<Step>)
      returns (name: Option<string>, ghost steps': seq<Step>)
      requires Proper(start) && r < |start.phases| && temp !in start.dir && i < TRIES
      requires Possible(start, steps) && world == Run(start, steps) && AllBy(r, steps)
      requires world == Amid(start, r, temp, Linking(temp, i), start.requests[r].bytes)
      modifies this
      ensures Possible(start, steps') && world == Run(start, steps') && AllBy(r, steps')
      ensures var candidate := Name(start, r, i);
              if candidate in start.dir.Keys + {temp} then
                name == None && world == Amid(start, r, temp, Linking(temp, i + 1), start.requests[r].bytes)
              else
                && name == Some(candidate)
                && world.dir == start.dir[candidate := Entry(start.requests[r].bytes, Final(r))]
    {
      hide Possible, Run, GoSplit, Candidate, Enabled, Next, Amid, AllBy;
      Tried(start, r, temp, i);
      Nothing(start, r, temp);
      var candidate := Name(world, r, i);
      name := if candidate in world.dir then None else Some(candidate);
      steps' := Perform(r, TryLink(r), start, steps);
      if name.Some? {
        steps' := Perform(r, Remove(r), start, steps');
      }
    }

    method GiveUp(ghost start: World, r: nat, temp: string, i: nat, ghost steps: seq<Step>)
        returns (ghost steps': seq<Step>)
      requires Proper(start) && r < |start.phases| && temp !in start.dir
      requires Possible(start, steps) && world == Run(start, steps) && AllBy(r, steps)
      requires world == Amid(start, r, temp, Linking(temp, i), start.requests[r].bytes)
      modifies this
      ensures Possible(start, steps') && world == Run(start, steps') && AllBy(r, steps')
      ensures world.dir == start.dir
    {
      hide Possible, Run, Enabled, Next, Amid, AllBy;
      GivenUp(start, r, temp, i);
      Nothing(start, r, temp);
      steps' := Perform(r, Break(r), start, steps);
      steps' := Perform(r, Remove(r), start, steps');
    }
  }

  lemma FirstFreeFrom(taken: set<string>, name: string, split: Split, i: nat)
    requires i <= TRIES
    ensures i == TRIES ==> FirstFree(taken, name, split, i) == TRIES
    ensures i < TRIES && Candidate(name, split, i) !in taken ==> FirstFree(taken, name, split, i) == i
    ensures i < TRIES && Candidate(name, split, i) in taken ==>
              FirstFree(taken, name, split, i) == FirstFree(taken, name, split, i + 1)
  {
  }

  /** In the middle of an upload that runs alone. */
  ghost function Amid(w: World, r: nat, temp: string, phase: Phase, bytes: string): World
    requires r < |w.phases|
  {
    w.(phases := w.phases[r := phase], dir := w.dir[temp := Entry(bytes, Temp(r))])
  }

  lemma Prepared(w: World, r: nat, temp: string)
    requires Proper(w) && r < |w.phases| && w.phases[r].Idle? && temp !in w.dir
    ensures var bytes := w.requests[r].bytes;
            var a := Amid(w, r, temp, Copying(temp, 0), "");
            var b := Amid(w, r, temp, Copying(temp, |bytes|), bytes);
            var c := Amid(w, r, temp, Linking(temp, 0), bytes);
            && Enabled(w, Create(r, temp)) && Next(w, Create(r, temp)) == a
            && Enabled(a, Copy(r, |bytes|)) && Next(a, Copy(r, |bytes|)) == b
            && Enabled(b, Close(r)) && Next(b, Close(r)) == c
  {
    CopyMoves(w, r, temp);
    var b := Amid(w, r, temp, Copying(temp, |w.requests[r].bytes|), w.requests[r].bytes);
    assert b.phases[r := Linking(temp, 0)] == w.phases[r := Linking(temp, 0)];
  }

  lemma CopyMoves(w: World, r: nat, temp: string)
    requires Proper(w) && r < |w.phases|
    ensures var bytes := w.requests[r].bytes;
            var a := Amid(w, r, temp, Copying(temp, 0), "");
            Enabled(a, Copy(r, |bytes|)) && Next(a, Copy(r, |bytes|)) == Amid(w, r, temp, Copying(temp, |bytes|), bytes)
  {
    var bytes := w.requests[r].bytes;
    assert bytes[..0 + |bytes|] == bytes;
    var a := Amid(w, r, temp, Copying(temp, 0), "");
    assert a.phases[r := Copying(temp, |bytes|)] == w.phases[r := Copying(temp, |bytes|)];
    assert a.dir[temp := Entry(bytes, Temp(r))] == w.dir[temp := Entry(bytes, Temp(r))];
  }

  /** A candidate that is taken leads to the next one; otherwise the upload ends there. */
  lemma Tried(w: World, r: nat, temp: string, i: nat)
    requires Proper(w) && r < |w.phases| && temp !in w.dir && i < TRIES
    ensures var bytes := w.requests[r].bytes;
            var a, name := Amid(w, r, temp, Linking(temp, i), bytes), Name(w, r, i);
            && Proper(a) && a.requests == w.requests && r < |a.phases|
            && Enabled(a, TryLink(r)) && a.dir.Keys == w.dir.Keys + {temp}
            && (name in a.dir ==> Next(a, TryLink(r)) == Amid(w, r, temp, Linking(temp, i + 1), bytes))
            && (name !in a.dir ==>
                  && Enabled(Next(a, TryLink(r)), Remove(r))
                  && Next(Next(a, TryLink(r)), Remove(r)).dir == w.dir[name := Entry(bytes, Final(r))])
  {
    hide Name;
    var a := Amid(w, r, temp, Linking(temp, i), w.requests[r].bytes);
    SameNames(a, TryLink(r), r);
    assert Name(a, r, i) == Name(w, r, i) by { SameRefused(w, a, r, i); }
    assert a.phases[r := Linking(temp, i + 1)] == w.phases[r := Linking(temp, i + 1)];
    if Name(w, r, i) !in a.dir {
      LinkedAndRemoved(w.dir, temp, Name(w, r, i), Entry(w.requests[r].bytes, Temp(r)),
                       Entry(w.requests[r].bytes, Final(r)));
    }
  }

  lemma LinkedAndRemoved(dir: map<string, Entry>, temp: string, name: string, e: Entry, e': Entry)
    requires temp !in dir && name != temp
    ensures dir[temp := e][name := e'] - {temp} == dir[name := e']
  {
  }

  lemma GivenUp(w: World, r: nat, temp: string, i: nat)
    requires Proper(w) && r < |w.phases| && temp !in w.dir
    ensures var a := Amid(w, r, temp, Linking(temp, i), w.requests[r].bytes);
            && Proper(a) && Enabled(a, Break(r)) && Enabled(Next(a, Break(r)), Remove(r))
            && Next(Next(a, Break(r)), Remove(r)).dir == w.dir
  {
    assert w.dir[temp := Entry(w.requests[r].bytes, Temp(r))] - {temp} == w.dir;
  }

  lemma Nothing(w: World, r: nat, temp: string)
    requires Proper(w)
    ensures Possible(w, []) && Run(w, []) == w && AllBy(r, [])
    ensures forall s: Step | s in {Create(r, temp), Close(r), TryLink(r), Break(r), Remove(r)} :: AllBy(r, [s])
    ensures forall n: nat :: AllBy(r, [Copy(r, n)])
  {
  }
}

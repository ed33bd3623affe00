/** File names that are tried one after the other until one is free. */
module UniqueNames {
  import opened Basics
  import opened Numbers

  const TRIES: nat := 10000

  /** A name cut in two, for a number to go in between. */
  datatype Split = Split(stem: string, ext: string)

  /** The position of the last dot; `None` if there is none. */
  function LastDot(name: string): (r: Option<nat>)
    ensures r.Some? ==> r.value < |name| && name[r.value] == '.' && '.' !in name[r.value + 1..]
    ensures r.None? ==> '.' !in name
    decreases |name|
  {
    if name == "" then None
    else if name[|name| - 1] == '.' then Some(|name| - 1)
    else
      var r := LastDot(name[..|name| - 1]);
      assert name == name[..|name| - 1] + [name[|name| - 1]];
      assert r.Some? ==> name[r.value + 1..] == name[..|name| - 1][r.value + 1..] + [name[|name| - 1]];
      r
  }

  /** `std::filesystem::path`: a dot at the very start does not start an extension. */
  function PathSplit(name: string): (r: Split)
    ensures r.stem + r.ext == name && '.' !in r.ext[if r.ext == "" then 0 else 1..]
    ensures r.ext != "" ==> r.ext[0] == '.' && r.stem != ""
    ensures r.ext == "" <==> forall i :: 0 < i < |name| ==> name[i] != '.'
  {
    match LastDot(name)
    case None => Split(name, "")
    case Some(k) => if k == 0 then Split(name, "") else Split(name[..k], name[k..])
  }

  /** Go's `filepath.Ext`: the last dot starts the extension wherever it is. */
  function GoSplit(name: string): (r: Split)
    ensures r.stem + r.ext == name && '.' !in r.ext[if r.ext == "" then 0 else 1..]
    ensures r.ext == "" <==> '.' !in name
    ensures r.ext != "" ==> r.ext[0] == '.'
  {
    match LastDot(name)
    case None => Split(name, "")
    case Some(k) => Split(name[..k], name[k..])
  }

  /** The name itself, then the name with a number before its extension. */
  function Candidate(name: string, split: Split, i: nat): string {
    if i == 0 then name else split.stem + (" (" + (Decimal(i) + (")" + split.ext)))
  }

  /** `k` is the position of the last dot. */
  predicate LastDotAt(name: string, k: nat) {
    k < |name| && name[k] == '.' && forall i :: k < i < |name| ==> name[i] != '.'
  }

  lemma SplitAt(name: string, split: Split, k: nat)
    requires split.stem + split.ext == name && LastDotAt(name, k)
    requires split.ext != "" && split.ext[0] == '.' && '.' !in split.ext[1..]
    ensures split == Split(name[..k], name[k..])
  {
    var n := |split.stem|;
    assert name[n] == '.' && name[..n] == split.stem && name[n..] == split.ext;
    forall i | n < i < |name| ensures name[i] != '.' {
      assert split.ext[1..][i - n - 1] == name[i];
    }
  }

  /** For a received file: the number goes before the extension, which starts at the last dot, unless that is
      the first character. */
  lemma PathCandidate(name: string, i: nat)
    requires i > 0
    ensures forall k: nat | k > 0 && LastDotAt(name, k) ::
              Candidate(name, PathSplit(name), i) == name[..k] + " (" + Decimal(i) + ")" + name[k..]
    ensures (forall k :: 0 < k < |name| ==> name[k] != '.') ==>
              Candidate(name, PathSplit(name), i) == name + " (" + Decimal(i) + ")"
  {
    hide Decimal;
    var split := PathSplit(name);
    CandidateText(name, split, i);
    forall k: nat | k > 0 && LastDotAt(name, k) ensures split == Split(name[..k], name[k..]) {
      SplitAt(name, split, k);
    }
    if split.ext == "" {
      assert split.stem + "" == split.stem;
      assert name + " (" + Decimal(i) + ")" + "" == name + " (" + Decimal(i) + ")";
    }
    hide PathSplit, Candidate;
  }

  /** For an upload: the extension starts at the last dot, wherever that is. */
  lemma GoCandidate(name: string, i: nat)
    requires i > 0
    ensures forall k: nat | LastDotAt(name, k) ::
              Candidate(name, GoSplit(name), i) == name[..k] + " (" + Decimal(i) + ")" + name[k..]
    ensures '.' !in name ==> Candidate(name, GoSplit(name), i) == name + " (" + Decimal(i) + ")"
  {
    hide Decimal;
    var split := GoSplit(name);
    CandidateText(name, split, i);
    forall k: nat | LastDotAt(name, k) ensures split == Split(name[..k], name[k..]) {
      SplitAt(name, split, k);
    }
    if split.ext == "" {
      assert split.stem + "" == split.stem;
      assert name + " (" + Decimal(i) + ")" + "" == name + " (" + Decimal(i) + ")";
    }
    hide GoSplit, Candidate;
  }

  lemma CandidateText(name: string, split: Split, i: nat)
    ensures i == 0 ==> Candidate(name, split, i) == name
    ensures i > 0 ==> Candidate(name, split, i) == split.stem + " (" + Decimal(i) + ")" + split.ext
  {
    Associate(split.stem + " (" + Decimal(i), ")", split.ext);
    Associate(split.stem + " (", Decimal(i), ")" + split.ext);
    Associate(split.stem, " (", Decimal(i) + (")" + split.ext));
  }

  /** The candidates differ. */
  lemma CandidatesDiffer(name: string, split: Split, i: nat, j: nat)
    requires name == split.stem + split.ext && Candidate(name, split, i) == Candidate(name, split, j)
    ensures i == j
  {
    hide Decimal, Natural, AllDigits;
    DecimalReads(i);
    DecimalReads(j);
    if i > 0 && j > 0 {
      var a, b := Decimal(i) + (")" + split.ext), Decimal(j) + (")" + split.ext);
      SameTail(split.stem, " (" + a, " (" + b);
      SameTail(" (", a, b);
      SameHead(Decimal(i), Decimal(j), ")" + split.ext);
    }
  }

  lemma SameTail(a: string, b: string, c: string)
    requires a + b == a + c
    ensures b == c
  {
    assert (a + b)[|a|..] == b && (a + c)[|a|..] == c;
  }

  lemma SameHead(a: string, b: string, c: string)
    requires a + c == b + c
    ensures a == b
  {
    assert |a| == |b|;
    assert (a + c)[..|a|] == a && (b + c)[..|b|] == b;
  }

  /** The first free candidate at or after the i-th; `TRIES` if all are taken. */
  function FirstFree(taken: set<string>, name: string, split: Split, i: nat): (r: nat)
    requires i <= TRIES
    ensures i <= r <= TRIES && (r < TRIES ==> Candidate(name, split, r) !in taken)
    ensures forall k :: i <= k < r ==> Candidate(name, split, k) in taken
    decreases TRIES - i
  {
    if i == TRIES || Candidate(name, split, i) !in taken then i else FirstFree(taken, name, split, i + 1)
  }

  /** Each candidate that is taken takes up a name of its own, so a directory with fewer than `TRIES` names
      has a free one. */
  lemma {:induction false} FewNamesLeaveOneFree(taken: set<string>, name: string, split: Split, n: nat)
    requires name == split.stem + split.ext && n <= TRIES
    requires forall k :: 0 <= k < n ==> Candidate(name, split, k) in taken
    ensures |taken| >= n
    decreases n
  {
    hide Candidate;
    if n > 0 {
      var c := Candidate(name, split, n - 1);
      forall k | 0 <= k < n - 1 ensures Candidate(name, split, k) in taken - {c} {
        if Candidate(name, split, k) == c {
          CandidatesDiffer(name, split, k, n - 1);
        }
      }
      FewNamesLeaveOneFree(taken - {c}, name, split, n - 1);
    }
  }

  /** A directory with fewer than 10000 names always has room for one more. */
  lemma RoomForOne(taken: set<string>, name: string, split: Split)
    requires name == split.stem + split.ext && |taken| < 10000
    ensures FirstFree(taken, name, split, 0) < TRIES
  {
    hide Candidate;
    if FirstFree(taken, name, split, 0) == TRIES {
      FewNamesLeaveOneFree(taken, name, split, TRIES);
    }
  }
}

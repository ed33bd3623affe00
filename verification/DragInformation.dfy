/** The list of dragged files as text: one line with the base name and one with the size for each file. */
module DragInformation {
  import opened Basics
  import opened Numbers

  datatype File = File(name: string, size: nat)

  const SIZE_LIMIT: nat := 0x1_0000_0000_0000_0000
  const COUNT_LIMIT: nat := 0x1_0000_0000

  /** The part of a path behind its last slash. */
  function BaseName(path: string): (r: string)
    ensures '/' !in r && |r| <= |path| && r == path[|path| - |r|..]
    ensures |r| < |path| ==> path[|path| - |r| - 1] == '/'
    decreases |path|
  {
    if path == "" || path[|path| - 1] == '/' then "" else BaseName(path[..|path| - 1]) + [path[|path| - 1]]
  }

  lemma {:induction false} BaseNameOfPlain(name: string)
    requires '/' !in name
    ensures BaseName(name) == name
    decreases |name|
  {
    if name != "" {
      assert name[|name| - 1] in name;
      BaseNameOfPlain(name[..|name| - 1]);
    }
  }

  /** `std::stoull`: the digits at the start; a minus sign wraps around; anything else is an exception. */
  function Stoull(t: string): (r: Option<nat>)
    ensures r.Some? ==> r.value < SIZE_LIMIT
  {
    match Scan(t)
    case None => None
    case Some(m) =>
      if m.magnitude >= SIZE_LIMIT then None
      else if m.negative && m.magnitude > 0 then Some(SIZE_LIMIT - m.magnitude)
      else Some(m.magnitude)
  }

  lemma StoullOfDecimal(n: nat)
    requires n < SIZE_LIMIT
    ensures Stoull(Decimal(n)) == Some(n)
  {
    ScanPrinted(n, "");
    assert Decimal(n) + "" == Decimal(n);
  }

  /** No digits, or a number too large, is an exception; a minus sign gives what is missing to 2^64; what comes
      after the digits does not matter. */
  lemma StoullForms(n: nat, rest: string)
    requires rest != "" ==> !IsDigit(rest[0])
    ensures Stoull(Decimal(n) + rest) == if n < 0x1_0000_0000_0000_0000 then Some(n) else None
    ensures 0 < n < 0x1_0000_0000_0000_0000 ==> Stoull("-" + Decimal(n) + rest) == Some(0x1_0000_0000_0000_0000 - n)
    ensures rest == "" || (!IsSpace(rest[0]) && rest[0] != '+' && rest[0] != '-') ==> Stoull(rest) == None
  {
    hide Natural, Decimal, Scanned;
    ScanPrinted(n, rest);
    ScanNegative(n, rest);
  }

  lemma ScanNegative(n: nat, rest: string)
    requires rest != "" ==> !IsDigit(rest[0])
    ensures Scan("-" + Decimal(n) + rest) == Some(Number(true, n, 1 + |Decimal(n)|))
  {
    var d := Decimal(n);
    DecimalReads(n);
    hide Natural, Decimal;
    var s, e := "-" + d + rest, 1 + |d|;
    assert s[1..e] == d;
    ScannedScans(s, 0, 1, Number(true, n, e));
  }

  // ---------- The printer ----------

  /** The files as they are announced: by base name, without those that have none. */
  function Entries(files: seq<File>): seq<File>
    decreases |files|
  {
    if files == [] then []
    else
      var base := BaseName(files[0].name);
      (if base == "" then [] else [File(base, files[0].size)]) + Entries(files[1..])
  }

  function Line(text: string): string {
    text + "\n"
  }

  function Text(entries: seq<File>): string
    decreases |entries|
  {
    if entries == [] then ""
    else Line(entries[0].name) + (Line(Decimal(entries[0].size)) + Text(entries[1..]))
  }

  /** The counter has 32 bits. */
  function Wrap(n: nat): nat {
    n % COUNT_LIMIT
  }

  method SetupDragInfo(files: seq<File>) returns (count: nat, output: string)
    ensures output == Text(Entries(files)) && count == Wrap(|Entries(files)|)
  {
    hide BaseName, Decimal, Line, Wrap, Text, Entries;
    NoEntries();
    output := "";
    count := 0;
    var i := 0;
    assert files[0..] == files;
    while i < |files|
      invariant 0 <= i <= |files|
      invariant output + Text(Entries(files[i..])) == Text(Entries(files))
      invariant Wrap(count + |Entries(files[i..])|) == Wrap(|Entries(files)|) && 0 <= count && Wrap(count) == count
    {
      var base := BaseName(files[i].name);
      EntriesFirst(files, i);
      if base != "" {
        ghost var rest := Entries(files[i + 1..]);
        Printed(output, File(base, files[i].size), rest);
        output := output + Line(base);
        output := output + Line(Decimal(files[i].size));
        CountOn(count, |rest|);
        count := Wrap(count + 1);
      } else {
        assert [] + Entries(files[i + 1..]) == Entries(files[i + 1..]);
      }
      i := i + 1;
    }
    assert files[i..] == [];
  }

  lemma NoEntries()
    ensures Entries([]) == [] && Text([]) == "" && Wrap(0) == 0
  {
  }

  lemma Printed(output: string, e: File, rest: seq<File>)
    ensures ((output + Line(e.name)) + Line(Decimal(e.size))) + Text(rest) == output + Text([e] + rest)
    ensures |[e] + rest| == |rest| + 1
  {
    var name, size := Line(e.name), Line(Decimal(e.size));
    TextFirst(e, rest);
    Associate(output, name, size + Text(rest));
    Associate(output + name, size, Text(rest));
  }

  lemma CountOn(count: nat, rest: nat)
    ensures Wrap(Wrap(count + 1) + rest) == Wrap(count + (rest + 1)) && Wrap(Wrap(count + 1)) == Wrap(count + 1)
  {
  }

  lemma EntriesFirst(files: seq<File>, i: nat)
    requires i < |files|
    ensures var base := BaseName(files[i].name);
            Entries(files[i..]) == (if base == "" then [] else [File(base, files[i].size)]) + Entries(files[i + 1..])
  {
    assert files[i..][1..] == files[i + 1..];
  }

  lemma TextFirst(e: File, rest: seq<File>)
    ensures Text([e] + rest) == Line(e.name) + (Line(Decimal(e.size)) + Text(rest))
  {
  }

  // ---------- The parser ----------

  /** The first position of a newline at or after `p`; the end of the text if there is none. */
  function Find(data: string, p: nat): (e: nat)
    requires p <= |data|
    ensures p <= e <= |data| && (e < |data| ==> data[e] == '\n') && forall k :: p <= k < e ==> data[k] != '\n'
    decreases |data| - p
  {
    if p == |data| || data[p] == '\n' then p else Find(data, p + 1)
  }

  /** The lines of a text that are complete. */
  function Lines(data: string): seq<string>
    decreases |data|
  {
    var e := Find(data, 0);
    if e == |data| then [] else [data[..e]] + Lines(data[e + 1..])
  }

  /** A name that stays inside the directory it is put in. */
  predicate Plain(name: string) {
    name != "" && name != "." && name != ".." && '/' !in name
  }

  /** What two lines announce. */
  function Accepted(name: string, size: string): seq<File> {
    if Stoull(size).None? || !Plain(BaseName(name)) then [] else [File(BaseName(name), Stoull(size).value)]
  }

  /** What a text announces: its lines in pairs, at most as many pairs as there should be files. */
  function Announced(lines: seq<string>, n: nat): seq<File>
    decreases |lines|
  {
    if n == 0 || |lines| < 2 then [] else Accepted(lines[0], lines[1]) + Announced(lines[2..], n - 1)
  }

  method ParseDragInfo(fileNum: nat, data: string) returns (files: seq<File>)
    ensures files == Announced(Lines(data), fileNum)
  {
    hide Find, Lines, Announced, Accepted, BaseName, Stoull, Ahead;
    files := [];
    var pos := 0;
    var i := 0;
    AheadAtStart(data, fileNum);
    while i < fileNum
      invariant 0 <= i <= fileNum && 0 <= pos <= |data|
      invariant files + Ahead(data, pos, fileNum - i) == Announced(Lines(data), fileNum)
    {
      var nameEnd := Find(data, pos);
      PairAt(files, data, pos, fileNum - i);
      if nameEnd == |data| {
        return;
      }
      var name := data[pos..nameEnd];
      pos := nameEnd + 1;
      var sizeEnd := Find(data, pos);
      if sizeEnd == |data| {
        return;
      }
      var sizeText := data[pos..sizeEnd];
      pos := sizeEnd + 1;
      i := i + 1;
      var filesize := Stoull(sizeText);
      var base := BaseName(name);
      NothingAdded(files, name, sizeText);
      if filesize.None? {
        continue;
      }
      if base == "" || base == "." || base == ".." {
        continue;
      }
      files := files + [File(base, filesize.value)];
    }
    NoneAhead(files, data, pos);
  }

  lemma NothingAdded(files: seq<File>, name: string, size: string)
    ensures files + Accepted(name, size) ==
              if Stoull(size).None? || BaseName(name) == "" || BaseName(name) == "." || BaseName(name) == ".."
              then files
              else files + [File(BaseName(name), Stoull(size).value)]
  {
  }

  /** What the lines at `p` announce. */
  ghost function Ahead(data: string, p: nat, n: nat): seq<File>
    requires p <= |data|
  {
    Announced(Lines(data[p..]), n)
  }

  lemma AheadAtStart(data: string, n: nat)
    ensures [] + Ahead(data, 0, n) == Announced(Lines(data), n)
  {
    hide Announced, Lines;
    assert data[0..] == data;
  }

  lemma NoneAhead(files: seq<File>, data: string, p: nat)
    requires p <= |data|
    ensures files + Ahead(data, p, 0) == files
  {
    NoneLeft(files, Lines(data[p..]));
  }

  lemma PairAt(files: seq<File>, data: string, p: nat, n: nat)
    requires p <= |data| && n > 0
    ensures var e := Find(data, p);
            if e == |data| || Find(data, e + 1) == |data| then files + Ahead(data, p, n) == files
            else
              var f := Find(data, e + 1);
              files + Ahead(data, p, n) == (files + Accepted(data[p..e], data[e + 1..f])) + Ahead(data, f + 1, n - 1)
  {
    hide Find, Lines, Announced, Accepted;
    var e := Find(data, p);
    LineAt(data, p);
    if e < |data| {
      LineAt(data, e + 1);
      var f := Find(data, e + 1);
      if f < |data| {
        TwoLines(data[p..e], data[e + 1..f], Lines(data[f + 1..]), n);
        Associate(files, Accepted(data[p..e], data[e + 1..f]), Announced(Lines(data[f + 1..]), n - 1));
      } else {
        NoneLeft(files, Lines(data[p..]));
      }
    } else {
      NoneLeft(files, Lines(data[p..]));
    }
  }

  lemma LineAt(data: string, p: nat)
    requires p <= |data|
    ensures Find(data, p) == |data| ==> Lines(data[p..]) == []
    ensures Find(data, p) < |data| ==> Lines(data[p..]) == [data[p..Find(data, p)]] + Lines(data[Find(data, p) + 1..])
  {
    hide Find;
    var t, e := data[p..], Find(data, p);
    var f := Find(t, 0);
    if e < |data| {
      assert data[e] == t[e - p];
    }
    if f < |t| {
      assert t[f] == data[p + f];
    }
    assert f == e - p;
    if e < |data| {
      assert t[f + 1..] == data[e + 1..] && t[..f] == data[p..e];
    }
  }

  lemma NoneLeft(files: seq<File>, lines: seq<string>)
    ensures Announced(lines, 0) == [] && files + [] == files
    ensures |lines| < 2 ==> forall n: nat :: Announced(lines, n) == []
  {
  }

  lemma TwoLines(name: string, size: string, rest: seq<string>, n: nat)
    requires n > 0
    ensures Announced([name] + ([size] + rest), n) == Accepted(name, size) + Announced(rest, n - 1)
  {
    var lines := [name] + ([size] + rest);
    assert lines[2..] == rest;
  }

  // ---------- Printer and parser together ----------

  predicate OneLine(text: string) {
    '\n' !in text
  }

  lemma {:induction false} LinesOneLine(data: string, i: nat)
    requires i < |Lines(data)|
    ensures OneLine(Lines(data)[i])
    decreases |data|
  {
    var e := Find(data, 0);
    if i > 0 {
      LinesOneLine(data[e + 1..], i - 1);
    }
  }

  predicate AllSafe(files: seq<File>) {
    forall f | f in files :: Plain(f.name) && OneLine(f.name) && f.size < SIZE_LIMIT
  }

  lemma AllSafeConcat(a: seq<File>, b: seq<File>)
    requires AllSafe(a) && AllSafe(b)
    ensures AllSafe(a + b)
  {
  }

  lemma NoFiles()
    ensures AllSafe([])
  {
  }

  lemma AcceptedIsSafe(name: string, size: string)
    requires OneLine(name)
    ensures AllSafe(Accepted(name, size)) && |Accepted(name, size)| <= 1
  {
    hide Stoull, Plain, BaseName, OneLine;
    BaseNameOneLine(name);
  }

  /** Whatever the text, no more files come out than were announced, and all have plain names of one line. */
  lemma {:induction false} AnnouncedArePlain(lines: seq<string>, n: nat)
    requires forall i :: 0 <= i < |lines| ==> OneLine(lines[i])
    ensures |Announced(lines, n)| <= n
    ensures AllSafe(Announced(lines, n))
    decreases |lines|
  {
    hide OneLine, AllSafe, Accepted;
    if n > 0 && |lines| >= 2 {
      AnnouncedArePlain(lines[2..], n - 1);
      AcceptedIsSafe(lines[0], lines[1]);
      AllSafeConcat(Accepted(lines[0], lines[1]), Announced(lines[2..], n - 1));
    } else {
      NoFiles();
    }
  }

  lemma BaseNameOneLine(name: string)
    requires OneLine(name)
    ensures OneLine(BaseName(name))
  {
  }

  lemma ParsedArePlain(data: string, n: nat)
    ensures |Announced(Lines(data), n)| <= n
    ensures AllSafe(Announced(Lines(data), n))
  {
    hide Announced;
    forall i | 0 <= i < |Lines(data)| ensures OneLine(Lines(data)[i]) {
      LinesOneLine(data, i);
    }
    AnnouncedArePlain(Lines(data), n);
  }

  /** The entries that may be received: not "." and not "..". */
  function Receivable(entries: seq<File>): seq<File>
    decreases |entries|
  {
    if entries == [] then []
    else (if Plain(entries[0].name) then [entries[0]] else []) + Receivable(entries[1..])
  }

  lemma LinesOfLine(text: string, rest: string)
    requires OneLine(text)
    ensures Lines(Line(text) + rest) == [text] + Lines(rest)
  {
    hide Find;
    var data := Line(text) + rest;
    forall k | 0 <= k < |text| ensures data[k] != '\n' {
      assert data[k] == text[k] && text[k] in text;
    }
    assert data[|text|] == '\n';
    assert Find(data, 0) == |text|;
    assert data[..|text|] == text && data[|text| + 1..] == rest;
  }

  /** As many entries are read back as are asked for. */
  lemma {:induction false} TextReadsSome(entries: seq<File>, n: nat)
    requires n <= |entries| && forall e | e in entries :: OneLine(e.name) && '/' !in e.name && e.size < SIZE_LIMIT
    ensures Announced(Lines(Text(entries)), n) == Receivable(entries[..n])
    decreases |entries|
  {
    hide Find, Lines, BaseName, Stoull, Decimal, Announced, Line;
    if n == 0 {
      NoneLeft([], Lines(Text(entries)));
    } else {
      var e := entries[0];
      DecimalOneLine(e.size);
      LinesOfLine(e.name, Line(Decimal(e.size)) + Text(entries[1..]));
      LinesOfLine(Decimal(e.size), Text(entries[1..]));
      TwoLines(e.name, Decimal(e.size), Lines(Text(entries[1..])), n);
      BaseNameOfPlain(e.name);
      StoullOfDecimal(e.size);
      TextReadsSome(entries[1..], n - 1);
      assert entries[..n][1..] == entries[1..][..n - 1];
    }
  }

  lemma TextReadsBack(entries: seq<File>)
    requires forall e | e in entries :: OneLine(e.name) && '/' !in e.name && e.size < SIZE_LIMIT
    ensures Announced(Lines(Text(entries)), |entries|) == Receivable(entries)
  {
    hide Lines, Announced, Text, Receivable;
    TextReadsSome(entries, |entries|);
    assert entries[..|entries|] == entries;
  }

  lemma {:induction false} ReceivableConcat(a: seq<File>, b: seq<File>)
    ensures Receivable(a + b) == Receivable(a) + Receivable(b)
    decreases |a|
  {
    if a == [] {
      assert a + b == b;
    } else {
      assert (a + b)[1..] == a[1..] + b;
      ReceivableConcat(a[1..], b);
      Associate(if Plain(a[0].name) then [a[0]] else [], Receivable(a[1..]), Receivable(b));
    }
  }

  lemma DecimalOneLine(n: nat)
    ensures OneLine(Decimal(n))
  {
    DecimalReads(n);
  }

  lemma {:induction false} EntriesAreBaseNames(files: seq<File>)
    requires forall f | f in files :: f.size < SIZE_LIMIT
    ensures forall e | e in Entries(files) :: e.name != "" && '/' !in e.name && e.size < SIZE_LIMIT
    decreases |files|
  {
    hide BaseName;
    if files != [] {
      EntriesAreBaseNames(files[1..]);
    }
  }

  /** What is printed for a list of files is read back as their base names and sizes in order, except "."
      and "..", exactly if no base name contains a newline and the 32-bit count leaves out none to be received. */
  lemma RoundTrip(files: seq<File>)
    requires forall f | f in files :: f.size < SIZE_LIMIT
    ensures var entries := Entries(files);
            var count := Wrap(|entries|);
            && count <= |entries|
            && (Announced(Lines(Text(entries)), count) == Receivable(entries)
                <==> (forall e | e in entries :: OneLine(e.name)) && Receivable(entries[count..]) == [])
  {
    hide Announced, Lines, Text, Entries, Receivable;
    var entries := Entries(files);
    var count := Wrap(|entries|);
    EntriesAreBaseNames(files);
    if forall e | e in entries :: OneLine(e.name) {
      TextReadsSome(entries, count);
      assert entries == entries[..count] + entries[count..];
      ReceivableConcat(entries[..count], entries[count..]);
    } else {
      var e :| e in entries && !OneLine(e.name);
      StaysReceivable(entries, e);
      ParsedArePlain(Text(entries), count);
    }
  }

  /** 2^32 files are announced as none. */
  lemma TooManyFiles(files: seq<File>)
    requires |files| == 0x1_0000_0000 && forall i :: 0 <= i < |files| ==> files[i] == File("a", 0)
    ensures Entries(files) == files && Receivable(files) == files
    ensures Announced(Lines(Text(files)), Wrap(|files|)) == []
  {
    NamedFiles(files);
    hide Lines, Text, Entries, Receivable;
    NoneLeft([], Lines(Text(files)));
  }

  lemma {:induction false} NamedFiles(files: seq<File>)
    requires forall i :: 0 <= i < |files| ==> files[i] == File("a", 0)
    ensures Entries(files) == files && Receivable(files) == files
    decreases |files|
  {
    hide BaseName, Plain;
    if files != [] {
      NamedA();
      NamedFiles(files[1..]);
      assert files == [files[0]] + files[1..];
    }
  }

  lemma NamedA()
    ensures BaseName("a") == "a" && Plain("a")
  {
    BaseNameOfPlain("a");
  }

  lemma {:induction false} StaysReceivable(entries: seq<File>, e: File)
    requires e in entries && Plain(e.name)
    ensures e in Receivable(entries)
    decreases |entries|
  {
    if entries[0] != e {
      StaysReceivable(entries[1..], e);
    }
  }

  /** The text of a list, line by line, and which files are on it. */
  lemma TextForms(e: File, files: seq<File>, f: File)
    ensures Text([]) == "" && Text([e] + files) == e.name + "\n" + (Decimal(e.size) + "\n" + Text(files))
    ensures Entries([]) == []
    ensures var base := BaseName(f.name);
            Entries([f] + files) == (if base == "" then [] else [File(base, f.size)]) + Entries(files)
  {
    hide Decimal, BaseName;
    assert ([e] + files)[1..] == files && ([f] + files)[1..] == files;
    Associate(Line(Decimal(e.size)), "", Text(files));
    Associate(e.name, "\n", Decimal(e.size) + "\n" + Text(files));
  }

  /** What two lines announce, and that a pair that announces nothing is passed over. */
  lemma PairForms(name: string, size: string, rest: seq<string>, n: nat)
    requires n > 0
    ensures var base := BaseName(name);
            Announced([name, size] + rest, n) ==
              (if Stoull(size).None? || base in {"", ".", ".."} then [] else [File(base, Stoull(size).value)])
              + Announced(rest, n - 1)
  {
    hide BaseName, Stoull, Announced;
    TwoLines(name, size, rest, n);
    assert [name, size] + rest == [name] + ([size] + rest);
  }
}

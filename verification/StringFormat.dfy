/** Positional formatting: `%{n}` stands for the n-th argument and `%%` for a percent sign. */
module StringFormat {
  import opened Basics
  import opened Numbers

  const LONG_MAX: nat := 0x7FFF_FFFF_FFFF_FFFF

  /** The text of a C string: everything up to its terminator. */
  predicate CString(t: string) {
    forall i :: 0 <= i < |t| ==> t[i] != '\0'
  }

  /** The character a C string pointer points to: the terminator behind the text. */
  function At(t: string, i: nat): char
    requires i <= |t|
  {
    if i < |t| then t[i] else '\0'
  }

  datatype Long = Long(value: int, end: nat, error: bool)

  /** `strtol` in base 10, where `long` has 64 bits. */
  function Strtol(t: string): (r: Long)
    ensures r.end <= |t|
  {
    match Scan(t)
    case None => Long(0, 0, false)
    case Some(m) =>
      if m.negative then Long(-(m.magnitude as int), m.end, m.magnitude > LONG_MAX + 1)
      else Long(m.magnitude, m.end, m.magnitude > LONG_MAX)
  }

  // ---------- What a format means ----------

  datatype Placeholder = Placeholder(width: nat, index: nat)

  /** What may stand between the braces: nothing, which means 0, or a number that is not negative. */
  ghost predicate IndexText(t: string, n: nat) {
    || (t == "" && n == 0)
    || (n <= LONG_MAX && exists a: nat, b: nat, negative: bool ::
          Scanned(t, a, b, Number(negative, n, |t|)) && (negative ==> n == 0))
  }

  /** The text starts with this placeholder. */
  ghost predicate Starts(t: string, p: Placeholder) {
    || (p == Placeholder(2, 0) && |t| >= 2 && t[..2] == "%%")
    || (3 <= p.width <= |t| && t[..2] == "%{" && t[p.width - 1] == '}' && IndexText(t[2..p.width - 1], p.index))
  }

  /** The placeholder the text starts with. */
  function First(t: string): (r: Option<Placeholder>)
    ensures r.Some? ==> 2 <= r.value.width <= |t|
  {
    if |t| < 2 || t[0] != '%' then None
    else if t[1] == '%' then Some(Placeholder(2, 0))
    else if t[1] != '{' then None
    else
      var i := Strtol(t[2..]);
      if i.error || i.value < 0 || At(t, i.end + 2) != '}' then None
      else Some(Placeholder(i.end + 3, i.value))
  }

  function Value(args: seq<string>, index: nat): string
    requires index <= |args|
  {
    if index == 0 then "%" else args[index - 1]
  }

  /** One pass over the format: a placeholder is replaced, any other character is copied. */
  function Render(t: string, args: seq<string>): string
    requires Enough(t, args)
    decreases |t|
  {
    if t == "" then ""
    else match First(t)
      case Some(p) => Value(args, p.index) + Render(t[p.width..], args)
      case None => [t[0]] + Render(t[1..], args)
  }

  /** The same, but only the first `n` placeholders are replaced. */
  function RenderSome(t: string, args: seq<string>, n: nat): string
    requires Enough(t, args)
    decreases |t|
  {
    if t == "" || n == 0 then t
    else match First(t)
      case Some(p) => Value(args, p.index) + RenderSome(t[p.width..], args, n - 1)
      case None => [t[0]] + RenderSome(t[1..], args, n)
  }

  /** What a number becomes when it is cast to a 32-bit `int`, as far as a loop counts up to it. */
  function Passes(n: nat): (k: nat)
    ensures k <= n && (n < 0x8000_0000 ==> k == n)
  {
    var low := n % 0x1_0000_0000;
    if low < 0x8000_0000 then low else 0
  }

  /** The cast takes the 32-bit number that is the same modulo 2^32; a loop up to a negative one does nothing. */
  lemma CastForms(n: nat, i: int)
    requires -0x8000_0000 <= i < 0x8000_0000 && (n - i) % 0x1_0000_0000 == 0
    ensures Passes(n) == if i < 0 then 0 else i
  {
  }

  /** There is an argument for every placeholder. */
  predicate Enough(t: string, args: seq<string>)
    decreases |t|
  {
    t == "" ||
    match First(t)
    case Some(p) => p.index <= |args| && Enough(t[p.width..], args)
    case None => Enough(t[1..], args)
  }

  datatype Span = Span(pos: nat, width: nat, index: nat)

  /** The placeholders of a text that stands at position `at`. */
  function Spans(t: string, at: nat): seq<Span>
    decreases |t|
  {
    if t == "" then []
    else match First(t)
      case Some(p) => [Span(at, p.width, p.index)] + Spans(t[p.width..], at + p.width)
      case None => Spans(t[1..], at + 1)
  }

  lemma ScannedCut(s: string, e: nat, a: nat, b: nat, m: Number)
    requires m.end == e <= |s| && (e < |s| ==> !IsDigit(s[e]))
    ensures Scanned(s[..e], a, b, m) <==> Scanned(s, a, b, m)
  {
    hide Natural, IsSpace, IsDigit;
    if a <= b < e {
      assert s[..e][b..e] == s[b..e];
    }
  }

  /** The scan finds a placeholder exactly where the text starts with one. */
  lemma FirstExact(t: string, p: Placeholder)
    ensures First(t) == Some(p) <==> Starts(t, p)
  {
    hide Scan, Scanned, IndexText;
    if |t| >= 3 && t[0] == '%' && t[1] == '{' {
      if Starts(t, p) {
        StartsFirst(t, p);
      }
      if First(t) == Some(p) {
        FirstStarts(t, p);
      }
    }
  }

  lemma FirstStarts(t: string, p: Placeholder)
    requires |t| >= 3 && t[..2] == "%{" && First(t) == Some(p)
    ensures Starts(t, p)
  {
    hide Scanned, Scan;
    var s := t[2..];
    var e := p.width - 3;
    assert t[2..p.width - 1] == s[..e];
    if Scan(s).Some? {
      var m := Scan(s).value;
      ScanScanned(s, m);
      var a: nat, b: nat :| Scanned(s, a, b, m);
      ScannedCut(s, e, a, b, m);
    }
  }

  lemma StartsFirst(t: string, p: Placeholder)
    requires |t| >= 3 && t[..2] == "%{" && Starts(t, p)
    ensures First(t) == Some(p)
  {
    hide Scanned, Natural;
    var s := t[2..];
    var e := p.width - 3;
    assert t[2..p.width - 1] == s[..e];
    assert s[e] == '}';
    if e == 0 {
      NoDigits(s, p.index);
    } else {
      var a: nat, b: nat, negative: bool :| Scanned(s[..e], a, b, Number(negative, p.index, e))
          && (negative ==> p.index == 0);
      ScannedCut(s, e, a, b, Number(negative, p.index, e));
      ScannedScans(s, a, b, Number(negative, p.index, e));
    }
  }

  lemma NoDigits(s: string, n: nat)
    requires s != "" && s[0] == '}' && IndexText("", n)
    ensures Scan(s) == None && n == 0
  {
  }

  // ---------- Locating the placeholders ----------

  function Zip(pos: seq<nat>, width: seq<nat>, index: seq<nat>): (r: seq<Span>)
    requires |pos| == |width| == |index|
    ensures |r| == |pos| && forall i :: 0 <= i < |r| ==> r[i] == Span(pos[i], width[i], index[i])
  {
    seq(|pos|, i requires 0 <= i < |pos| => Span(pos[i], width[i], index[i]))
  }

  lemma ZipPush(pos: seq<nat>, width: seq<nat>, index: seq<nat>, s: Span, rest: seq<Span>)
    requires |pos| == |width| == |index|
    ensures Zip(pos + [s.pos], width + [s.width], index + [s.index]) + rest == Zip(pos, width, index) + ([s] + rest)
  {
  }

  lemma ScanSkips(s: string)
    ensures forall i :: 0 <= i < Strtol(s).end ==> s[i] != '%'
  {
    hide Natural;
  }

  /** Text without a placeholder may be skipped. */
  lemma {:induction false} SpansSkipTo(fmt: string, p: nat, q: nat)
    requires p < q <= |fmt| && First(fmt[p..]) == None && forall i :: p < i < q ==> fmt[i] != '%'
    ensures Spans(fmt[p..], p) == Spans(fmt[q..], q)
    decreases q - p
  {
    hide Strtol, Scan;
    assert fmt[p..][1..] == fmt[p + 1..];
    if p + 1 < q {
      assert fmt[p + 1..][0] != '%';
      SpansSkipTo(fmt, p + 1, q);
    }
  }

  lemma SpansFound(fmt: string, p: nat, w: Placeholder)
    requires p < |fmt| && First(fmt[p..]) == Some(w)
    ensures Spans(fmt[p..], p) == [Span(p, w.width, w.index)] + Spans(fmt[p + w.width..], p + w.width)
  {
    hide First;
    assert fmt[p..][w.width..] == fmt[p + w.width..];
  }

  lemma FirstAt(fmt: string, p: nat)
    requires p < |fmt|
    ensures (fmt[p] != '%' || p + 1 == |fmt|) ==> First(fmt[p..]) == None
    ensures p + 1 < |fmt| && fmt[p] == '%' ==>
              && (fmt[p + 1] == '%' ==> First(fmt[p..]) == Some(Placeholder(2, 0)))
              && (fmt[p + 1] != '%' && fmt[p + 1] != '{' ==> First(fmt[p..]) == None)
    ensures p + 1 < |fmt| && fmt[p] == '%' && fmt[p + 1] == '{' ==>
              var i := Strtol(fmt[p + 2..]);
              First(fmt[p..]) ==
                if i.error || i.value < 0 || At(fmt, p + 2 + i.end) != '}' then None
                else Some(Placeholder(i.end + 3, i.value))
  {
    hide Strtol;
    if p + 1 < |fmt| {
      assert fmt[p..][2..] == fmt[p + 2..];
    }
  }

  /** The first phase: where the placeholders are, how wide, and which argument each one asks for. */
  method Locate(fmt: string) returns (pos: seq<nat>, width: seq<nat>, index: seq<nat>, maxIndex: nat)
    requires CString(fmt)
    ensures |pos| == |width| == |index| && Zip(pos, width, index) == Spans(fmt, 0)
    ensures (forall i :: 0 <= i < |index| ==> index[i] <= maxIndex) && (maxIndex == 0 || maxIndex in index)
  {
    hide Spans, Zip, Scan, Natural, Strtol, First;
    pos, width, index, maxIndex := [], [], [], 0;
    var scan := 0;
    assert fmt[0..] == fmt && Zip(pos, width, index) == [];
    while At(fmt, scan) != '\0'
      invariant 0 <= scan <= |fmt| && |pos| == |width| == |index|
      invariant Zip(pos, width, index) + Spans(fmt[scan..], scan) == Spans(fmt, 0)
      invariant (forall i :: 0 <= i < |index| ==> index[i] <= maxIndex) && (maxIndex == 0 || maxIndex in index)
      decreases |fmt| - scan
    {
      ghost var start := scan;
      FirstAt(fmt, start);
      if fmt[scan] == '%' {
        scan := scan + 1;
        if At(fmt, scan) == '\0' {
          SpansSkipTo(fmt, start, scan);
          break;
        } else if fmt[scan] == '%' {
          SpansFound(fmt, start, Placeholder(2, 0));
          ZipPush(pos, width, index, Span(start, 2, 0), Spans(fmt[start + 2..], start + 2));
          index, pos, width := index + [0], pos + [scan - 1], width + [2];
        } else if fmt[scan] == '{' {
          var i := Strtol(fmt[scan + 1..]);
          var end := scan + 1 + i.end;
          ScanSkips(fmt[scan + 1..]);
          if i.error || i.value < 0 || At(fmt, end) != '}' {
            SpansSkipTo(fmt, start, end);
            scan := end - 1;
          } else {
            SpansFound(fmt, start, Placeholder(i.end + 3, i.value));
            ZipPush(pos, width, index, Span(start, i.end + 3, i.value), Spans(fmt[end + 1..], end + 1));
            index, pos, width := index + [i.value], pos + [scan - 1], width + [end - scan + 2];
            if i.value > maxIndex {
              maxIndex := i.value;
            }
            scan := end;
          }
        } else {
          SpansSkipTo(fmt, start, scan + 1);
        }
      } else {
        SpansSkipTo(fmt, start, scan + 1);
      }
      scan := scan + 1;
    }
    assert fmt[|fmt|..] == "";
    Empty(|fmt|, []);
  }

  lemma Empty(at: nat, args: seq<string>)
    ensures Spans("", at) == [] && UpTo([], |args|) && Enough("", args) && Render("", args) == ""
  {
  }

  // ---------- Substituting ----------

  /** Text up to the first placeholder is copied. */
  ghost predicate Copies(t: string, at: nat, args: seq<string>, n: nat, k: nat)
    requires Enough(t, args)
  {
    && k <= |t| && Enough(t[k..], args) && Spans(t, at) == Spans(t[k..], at + k)
    && RenderSome(t, args, n) == t[..k] + RenderSome(t[k..], args, n)
  }

  lemma {:induction false} CopyToNext(t: string, at: nat, args: seq<string>, n: nat) returns (k: nat)
    requires Enough(t, args)
    ensures Copies(t, at, args, n, k) && (k == |t| || First(t[k..]).Some?)
    decreases |t|
  {
    hide First, Copies;
    if t != "" && First(t) == None {
      var k' := CopyToNext(t[1..], at + 1, args, n);
      k := k' + 1;
      CopyOneMore(t, at, args, n, k);
    } else {
      k := 0;
      CopyNothing(t, at, args, n);
    }
  }

  lemma CopyNothing(t: string, at: nat, args: seq<string>, n: nat)
    requires Enough(t, args)
    ensures Copies(t, at, args, n, 0) && t[0..] == t
  {
    hide First, Spans, RenderSome, Enough;
  }

  lemma CopyOneMore(t: string, at: nat, args: seq<string>, n: nat, k: nat)
    requires 0 < k && t != "" && First(t) == None && Enough(t, args) && Copies(t[1..], at + 1, args, n, k - 1)
    ensures Copies(t, at, args, n, k) && k <= |t| && t[1..][k - 1..] == t[k..]
  {
    NoneFirst(t, at, args, n);
    hide First, Spans, Enough, RenderSome;
    DropAfterFirst(t, k);
    CopyOne(t, k, RenderSome(t[k..], args, n));
  }

  lemma DropAfterFirst(t: string, e: nat)
    requires 0 < e <= |t|
    ensures t[1..][e - 1..] == t[e..]
  {
  }

  lemma NoneFirst(t: string, at: nat, args: seq<string>, n: nat)
    requires t != "" && First(t) == None && Enough(t, args)
    ensures Enough(t[1..], args) && Spans(t, at) == Spans(t[1..], at + 1)
    ensures RenderSome(t, args, n) == [t[0]] + RenderSome(t[1..], args, n)
  {
    hide First;
    assert t == [t[0]] + t[1..];
  }

  lemma CopyOne(t: string, k: nat, rest: string)
    requires 0 < k <= |t|
    ensures [t[0]] + (t[1..][..k - 1] + rest) == t[..k] + rest
  {
    assert t[..k] == [t[0]] + t[1..][..k - 1];
    Associate([t[0]], t[1..][..k - 1], rest);
  }

  lemma Substitution(fmt: string, src: nat, args: seq<string>, n: nat)
    requires src <= |fmt| && Enough(fmt[src..], args) && Spans(fmt[src..], src) != [] && n > 0
    ensures var spans := Spans(fmt[src..], src);
            var pos, next := spans[0].pos, spans[0].pos + spans[0].width;
            && src <= pos && next <= |fmt| && spans[0].index <= |args|
            && Enough(fmt[pos..], args) && Enough(fmt[next..], args) && Spans(fmt[next..], next) == spans[1..]
            && RenderSome(fmt[src..], args, n) == fmt[src..pos] + RenderSome(fmt[pos..], args, n)
            && RenderSome(fmt[pos..], args, n) == Value(args, spans[0].index) + RenderSome(fmt[next..], args, n - 1)
  {
    hide First, Spans, RenderSome, Enough, Value;
    var k := CopyToNext(fmt[src..], src, args, n);
    DropTwice(fmt, src, k);
    Empty(src + k, args);
    var pos := src + k;
    FoundFirst(fmt[pos..], pos, args, n);
    DropTwice(fmt, pos, First(fmt[pos..]).value.width);
    hide Copies;
  }

  lemma FoundFirst(t: string, at: nat, args: seq<string>, n: nat)
    requires t != "" && First(t).Some? && Enough(t, args) && n > 0
    ensures var p := First(t).value;
            && p.index <= |args| && Enough(t[p.width..], args)
            && Spans(t, at) == [Span(at, p.width, p.index)] + Spans(t[p.width..], at + p.width)
            && RenderSome(t, args, n) == Value(args, p.index) + RenderSome(t[p.width..], args, n - 1)
  {
    hide First;
  }

  lemma DropTwice(t: string, a: nat, k: nat)
    requires a + k <= |t|
    ensures t[a..][k..] == t[a + k..] && t[a..][..k] == t[a..a + k]
  {
  }

  lemma NoneReplaced(t: string, args: seq<string>)
    requires Enough(t, args)
    ensures RenderSome(t, args, 0) == t
  {
  }

  /** What `vformat` returns: the one-pass rendering, but of no more placeholders than an `int` can count. */
  function Format(fmt: string, args: seq<string>): string
    requires Enough(fmt, args)
  {
    RenderSome(fmt, args, Passes(|Spans(fmt, 0)|))
  }

  /** Both phases. */
  method Vformat(fmt: string, args: seq<string>) returns (result: string)
    requires CString(fmt) && Enough(fmt, args)
    ensures result == Format(fmt, args)
  {
    hide Enough, RenderSome, Spans, First, Passes;
    var pos, width, index, maxIndex := Locate(fmt);
    EnoughForAll(fmt, 0, args);
    if maxIndex != 0 {
      var i :| 0 <= i < |index| && index[i] == maxIndex;
      assert Zip(pos, width, index)[i].index == maxIndex;
    }
    var value := ["%"] + args[..maxIndex];
    var n := Passes(|pos|);
    result := "";
    var src := 0;
    var i := 0;
    assert fmt[0..] == fmt;
    while i < n
      invariant 0 <= i <= n && 0 <= src <= |fmt|
      invariant Spans(fmt[src..], src) == Zip(pos, width, index)[i..]
      invariant Enough(fmt[src..], args)
      invariant result + RenderSome(fmt[src..], args, n - i) == RenderSome(fmt, args, n)
    {
      var next := pos[i] + width[i];
      Substitution(fmt, src, args, n - i);
      assert value[index[i]] == Value(args, index[i]);
      Associate(result, fmt[src..pos[i]], RenderSome(fmt[pos[i]..], args, n - i));
      Associate(result + fmt[src..pos[i]], Value(args, index[i]), RenderSome(fmt[next..], args, n - i - 1));
      result := result + fmt[src..pos[i]];
      result := result + value[index[i]];
      src := next;
      i := i + 1;
    }
    NoneReplaced(fmt[src..], args);
    result := result + fmt[src..];
  }

  /** The text behind the first `n` placeholders. */
  function Behind(t: string, n: nat): string
    decreases |t|
  {
    if t == "" || n == 0 then t
    else match First(t)
      case Some(p) => Behind(t[p.width..], n - 1)
      case None => Behind(t[1..], n)
  }

  /** Replacing some is replacing all exactly if there is nothing to be replaced in what is behind them, or
      if what is put there is what stood there. */
  lemma {:induction false} SomeExactly(t: string, args: seq<string>, n: nat)
    requires Enough(t, args)
    ensures Enough(Behind(t, n), args)
    ensures RenderSome(t, args, n) == Render(t, args) <==> Render(Behind(t, n), args) == Behind(t, n)
    decreases |t|
  {
    hide First;
    if t != "" && n > 0 {
      match First(t)
      case Some(p) =>
        SomeExactly(t[p.width..], args, n - 1);
        InFront(Value(args, p.index), RenderSome(t[p.width..], args, n - 1), Render(t[p.width..], args));
      case None =>
        SomeExactly(t[1..], args, n);
        InFront([t[0]], RenderSome(t[1..], args, n), Render(t[1..], args));
    }
  }

  lemma InFront(a: string, b: string, c: string)
    ensures a + b == a + c <==> b == c
  {
    if a + b == a + c {
      assert b == (a + b)[|a|..] && c == (a + c)[|a|..];
    }
  }

  lemma {:induction false} NothingBehind(t: string, at: nat, args: seq<string>, n: nat)
    requires Enough(t, args) && n >= |Spans(t, at)|
    ensures Enough(Behind(t, n), args) && Render(Behind(t, n), args) == Behind(t, n)
    decreases |t|
  {
    hide First;
    if t != "" {
      match First(t)
      case Some(p) => NothingBehind(t[p.width..], at + p.width, args, n - 1);
      case None =>
        NothingBehind(t[1..], at + 1, args, n);
        assert [t[0]] + t[1..] == t;
    }
  }

  /** `vformat` is the one-pass rendering exactly if none of the placeholders that the `int` leaves out makes a
      difference; in particular for every format with fewer than 2^31 placeholders. */
  lemma FormatExactly(fmt: string, args: seq<string>)
    requires Enough(fmt, args)
    ensures var rest := Behind(fmt, Passes(|Spans(fmt, 0)|));
            Enough(rest, args) && (Format(fmt, args) == Render(fmt, args) <==> Render(rest, args) == rest)
    ensures |Spans(fmt, 0)| < 0x8000_0000 ==> Format(fmt, args) == Render(fmt, args)
  {
    hide Spans, Render, RenderSome, Behind, Enough, Passes;
    var n := Passes(|Spans(fmt, 0)|);
    SomeExactly(fmt, args, n);
    if |Spans(fmt, 0)| < 0x8000_0000 {
      NothingBehind(fmt, 0, args, n);
    }
  }

  /** A witness: 2^31 doubled percent signs come out as they are. */
  lemma TooManyPlaceholders(fmt: string)
    requires |fmt| == 2 * 0x8000_0000 && forall i :: 0 <= i < |fmt| ==> fmt[i] == '%'
    ensures Enough(fmt, []) && Format(fmt, []) == fmt && |Render(fmt, [])| == 0x8000_0000
  {
    Percents(fmt, 0, 0x8000_0000);
    hide Spans, Render, Enough;
    NoneReplaced(fmt, []);
  }

  lemma {:induction false} Percents(t: string, at: nat, n: nat)
    requires |t| == 2 * n && forall i :: 0 <= i < |t| ==> t[i] == '%'
    ensures Enough(t, []) && |Spans(t, at)| == n && |Render(t, [])| == n
    decreases n
  {
    if n > 0 {
      assert First(t) == Some(Placeholder(2, 0));
      Percents(t[2..], at + 2, n - 1);
    }
  }

  predicate UpTo(spans: seq<Span>, n: nat) {
    forall i :: 0 <= i < |spans| ==> spans[i].index <= n
  }

  lemma UpToFirst(s: Span, rest: seq<Span>, n: nat)
    ensures UpTo([s] + rest, n) <==> s.index <= n && UpTo(rest, n)
  {
    if UpTo([s] + rest, n) {
      assert ([s] + rest)[0] == s;
      assert forall i :: 0 <= i < |rest| ==> rest[i] == ([s] + rest)[i + 1];
    }
  }

  /** There are enough arguments exactly when no recorded index exceeds their number. */
  lemma {:induction false} EnoughForAll(t: string, at: nat, args: seq<string>)
    ensures Enough(t, args) <==> UpTo(Spans(t, at), |args|)
    decreases |t|
  {
    hide First, UpTo;
    Empty(0, args);
    if t != "" {
      match First(t)
      case None => EnoughForAll(t[1..], at + 1, args);
      case Some(p) =>
        EnoughForAll(t[p.width..], at + p.width, args);
        UpToFirst(Span(at, p.width, p.index), Spans(t[p.width..], at + p.width), |args|);
    }
  }

  /** The recorded spans are exactly the placeholders of the format, increasing, disjoint and inside it. */
  lemma {:induction false} SpansDisjoint(t: string, at: nat, i: nat)
    requires i < |Spans(t, at)|
    ensures var s := Spans(t, at);
            && at <= s[i].pos && s[i].pos + s[i].width - at <= |t|
            && Starts(t[s[i].pos - at..], Placeholder(s[i].width, s[i].index))
            && (i + 1 < |s| ==> s[i].pos + s[i].width <= s[i + 1].pos)
    decreases |t|
  {
    hide First, Starts;
    match First(t)
    case None =>
      SpansDisjoint(t[1..], at + 1, i);
      assert t[1..][Spans(t, at)[i].pos - at - 1..] == t[Spans(t, at)[i].pos - at..];
    case Some(p) =>
      FirstExact(t, p);
      var rest := Spans(t[p.width..], at + p.width);
      if i > 0 {
        SpansDisjoint(t[p.width..], at + p.width, i - 1);
        assert Spans(t, at)[i] == rest[i - 1];
        assert t[p.width..][rest[i - 1].pos - at - p.width..] == t[rest[i - 1].pos - at..];
      } else {
        assert t[0..] == t;
        if rest != [] {
          SpansDisjoint(t[p.width..], at + p.width, 0);
        }
      }
  }

  // ---------- Printing a template ----------

  /** A template: texts and numbered arguments. */
  datatype Part = Text(text: string) | Argument(n: nat)

  function Escaped(text: string): string {
    if text == "" then "" else (if text[0] == '%' then "%%" else [text[0]]) + Escaped(text[1..])
  }

  function Printed(parts: seq<Part>): string
    decreases |parts|
  {
    if parts == [] then ""
    else match parts[0]
      case Text(text) => Escaped(text) + Printed(parts[1..])
      case Argument(n) => ("%{" + Decimal(n) + "}") + Printed(parts[1..])
  }

  function Filled(parts: seq<Part>, args: seq<string>): string
    requires forall i :: 0 <= i < |parts| && parts[i].Argument? ==> parts[i].n <= |args|
    decreases |parts|
  {
    if parts == [] then ""
    else match parts[0]
      case Text(text) => text + Filled(parts[1..], args)
      case Argument(n) => (if n == 0 then "%" else args[n - 1]) + Filled(parts[1..], args)
  }

  lemma {:induction false} RenderEscaped(text: string, rest: string, args: seq<string>)
    requires Enough(rest, args)
    ensures Enough(Escaped(text) + rest, args) && Render(Escaped(text) + rest, args) == text + Render(rest, args)
    decreases |text|
  {
    hide Enough, Render;
    if text == "" {
      assert Escaped(text) + rest == rest;
    } else {
      RenderEscaped(text[1..], rest, args);
      var tail := Escaped(text[1..]) + rest;
      RenderHead(text[0], tail, args);
      Associate(if text[0] == '%' then "%%" else [text[0]], Escaped(text[1..]), rest);
      assert text == [text[0]] + text[1..];
      Associate([text[0]], text[1..], Render(rest, args));
    }
  }

  lemma RenderHead(c: char, tail: string, args: seq<string>)
    requires Enough(tail, args)
    ensures var t := (if c == '%' then "%%" else [c]) + tail;
            Enough(t, args) && Render(t, args) == [c] + Render(tail, args)
  {
    hide Strtol;
    var t := (if c == '%' then "%%" else [c]) + tail;
    assert t[if c == '%' then 2 else 1..] == tail;
  }

  lemma FirstOfArgument(n: nat, rest: string)
    requires n <= LONG_MAX
    ensures var t := "%{" + Decimal(n) + "}" + rest;
            First(t) == Some(Placeholder(|Decimal(n)| + 3, n)) && t[|Decimal(n)| + 3..] == rest
  {
    hide Decimal, Scan, Natural;
    var d := Decimal(n);
    var t := "%{" + d + "}" + rest;
    ScanPrinted(n, "}" + rest);
    assert t[2..] == d + ("}" + rest);
  }

  lemma RenderArgument(n: nat, rest: string, args: seq<string>)
    requires Enough(rest, args) && n <= LONG_MAX && n <= |args|
    ensures var t := "%{" + Decimal(n) + "}" + rest;
            Enough(t, args) && Render(t, args) == (if n == 0 then "%" else args[n - 1]) + Render(rest, args)
  {
    hide Decimal, First;
    FirstOfArgument(n, rest);
  }

  /** Formatting undoes printing: whatever the texts contain, each part comes out as itself or as its argument. */
  lemma {:induction false} PrintedFormats(parts: seq<Part>, args: seq<string>)
    requires forall i :: 0 <= i < |parts| && parts[i].Argument? ==> parts[i].n <= LONG_MAX && parts[i].n <= |args|
    ensures Enough(Printed(parts), args) && Render(Printed(parts), args) == Filled(parts, args)
    decreases |parts|
  {
    hide Enough, Render;
    if parts == [] {
      Empty(0, args);
    } else {
      PrintedFormats(parts[1..], args);
      match parts[0]
      case Text(text) => RenderEscaped(text, Printed(parts[1..]), args);
      case Argument(n) => RenderArgument(n, Printed(parts[1..]), args);
    }
  }

  /** `%{n}` is the n-th argument, counted from one. */
  lemma NthArgument(n: nat, args: seq<string>)
    requires 1 <= n <= |args| && n <= 0x7FFF_FFFF_FFFF_FFFF
    ensures var t := "%{" + Decimal(n) + "}"; Enough(t, args) && Format(t, args) == args[n - 1]
  {
    hide Enough, Render, Decimal, Format, Spans;
    var t := "%{" + Decimal(n) + "}";
    Empty(0, args);
    RenderArgument(n, "", args);
    assert t + "" == t && args[n - 1] + "" == args[n - 1];
    FormatExactly(t, args);
    OneSpan(n);
  }

  lemma OneSpan(n: nat)
    requires n <= LONG_MAX
    ensures |Spans("%{" + Decimal(n) + "}", 0)| == 1
  {
    hide Decimal, First;
    var t := "%{" + Decimal(n) + "}";
    FirstOfArgument(n, "");
    assert t + "" == t;
  }

  /** Between the braces: white space and a plus sign are allowed, zero may be negative, and any other negative
      number or one that does not fit a long makes no placeholder. */
  lemma IndexForms(n: nat, rest: string)
    ensures n > 0x7FFF_FFFF_FFFF_FFFF ==> First("%{" + (Decimal(n) + ("}" + rest))) == None
    ensures First("%{" + (("-" + Decimal(n)) + ("}" + rest))) == if n == 0 then Some(Placeholder(5, 0)) else None
    ensures n <= 0x7FFF_FFFF_FFFF_FFFF ==>
              First("%{" + ((" +" + Decimal(n)) + ("}" + rest))) == Some(Placeholder(|Decimal(n)| + 5, n))
  {
    hide Natural, Decimal, Scanned, Scan, First;
    DecimalReads(n);
    var d, tail := Decimal(n), "}" + rest;
    ScanPrinted(n, tail);
    SignedScans(d, n, tail);
    Between(d, tail, Number(false, n, |d|));
    Between("-" + d, tail, Number(true, n, |d| + 1));
    Between(" +" + d, tail, Number(false, n, |d| + 2));
    if n == 0 {
      ZeroIsPrinted();
    }
  }

  lemma Between(number: string, tail: string, m: Number)
    requires tail != "" && tail[0] == '}' && Scan(number + tail) == Some(m) && m.end == |number|
    ensures First("%{" + (number + tail)) ==
              if m.magnitude > LONG_MAX || (m.negative && m.magnitude > 0) then None
              else Some(Placeholder(|number| + 3, m.magnitude))
  {
    hide Scan;
    var t := "%{" + (number + tail);
    assert t[2..] == number + tail;
    assert t[|number| + 2] == (number + tail)[|number|] == '}';
  }

  lemma SignedScans(d: string, n: nat, tail: string)
    requires d != "" && AllDigits(d) && Natural(d) == n && tail != "" && tail[0] == '}'
    ensures Scan(("-" + d) + tail) == Some(Number(true, n, |d| + 1))
    ensures Scan((" +" + d) + tail) == Some(Number(false, n, |d| + 2))
  {
    hide Natural, Decimal;
    var s, t := ("-" + d) + tail, (" +" + d) + tail;
    assert s[1..|d| + 1] == d && t[2..|d| + 2] == d;
    ScannedScans(s, 0, 1, Number(true, n, |d| + 1));
    ScannedScans(t, 1, 2, Number(false, n, |d| + 2));
  }

  /** All three ways to write a percent sign. */
  lemma PercentSigns(args: seq<string>)
    ensures forall t | t in {"%%", "%{0}", "%{}"} :: Enough(t, args) && Format(t, args) == "%"
  {
    hide Enough, Render, Format, Spans, Scan, Natural;
    forall t | t in {"%%", "%{0}", "%{}"} ensures Enough(t, args) && Format(t, args) == "%" {
      OnePercent(t, args);
      FewSpans(t, 0);
      FormatExactly(t, args);
    }
  }

  lemma OnePercent(t: string, args: seq<string>)
    requires t in {"%%", "%{0}", "%{}"}
    ensures Enough(t, args) && Render(t, args) == "%"
  {
    hide Natural, Decimal;
    Empty(0, args);
    if t == "%{}" {
      assert t[2..] == "}" && Scan("}") == None;
      assert t[3..] == "" && First(t) == Some(Placeholder(3, 0));
    } else if t == "%{0}" {
      ZeroIsPrinted();
      RenderArgument(0, "", args);
      assert "%{" + Decimal(0) + "}" + "" == t && "%" + "" == "%";
    } else {
      assert t[2..] == "";
    }
  }

  lemma ZeroIsPrinted()
    ensures Decimal(0) == "0"
  {
    DecimalCanonical(0);
  }

  /** There are no more placeholders than characters. */
  lemma {:induction false} FewSpans(t: string, at: nat)
    ensures |Spans(t, at)| <= |t|
    decreases |t|
  {
    hide First;
    if t != "" {
      match First(t)
      case None => FewSpans(t[1..], at + 1);
      case Some(p) => FewSpans(t[p.width..], at + p.width);
    }
  }

}

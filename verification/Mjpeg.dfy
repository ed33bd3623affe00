/** The screen pipe: cutting a byte stream into JPEG images, and carrying them as length-prefixed frames. */
module Mjpeg {
  import opened Basics

  type Byte = x: int | 0 <= x < 256

  type Bytes = seq<Byte>

  const CHUNK: nat := 256 * 1024
  const MAX_FRAME: nat := 0x100_0000
  const SOI: Byte := 0xD8
  const EOI: Byte := 0xD9

  // ---------- Segmentation ----------

  predicate MarkerAt(s: Bytes, code: Byte, q: int) {
    0 <= q && q + 1 < |s| && s[q] == 0xFF && s[q + 1] == code
  }

  /** The first marker at or after `p`; the end of the stream if there is none. */
  function FindMarker(s: Bytes, code: Byte, p: nat): (q: nat)
    requires p <= |s|
    ensures p <= q <= |s| && (q == |s| || MarkerAt(s, code, q))
    ensures forall k :: p <= k < q ==> !MarkerAt(s, code, k)
    decreases |s| - p
  {
    if p == |s| || MarkerAt(s, code, p) then p else FindMarker(s, code, p + 1)
  }

  lemma FirstMarker(s: Bytes, code: Byte, p: nat, q: nat)
    requires p <= q && MarkerAt(s, code, q) && forall k :: p <= k < q ==> !MarkerAt(s, code, k)
    ensures FindMarker(s, code, p) == q
  {
    hide FindMarker;
    assert !(q < FindMarker(s, code, p));
  }

  /** The images of a stream: the next start marker, then the first end marker behind it, and so on. */
  function Frames(s: Bytes, p: nat): seq<Bytes>
    requires p <= |s|
    decreases |s| - p
  {
    var soi := FindMarker(s, SOI, p);
    if soi == |s| then []
    else
      var eoi := FindMarker(s, EOI, soi + 2);
      if eoi == |s| then [] else [s[soi..eoi + 2]] + Frames(s, eoi + 2)
  }

  /** An image: a start marker, and one end marker behind it, at the very end. */
  predicate Image(f: Bytes) {
    |f| >= 4 && MarkerAt(f, SOI, 0) && FindMarker(f, EOI, 2) == |f| - 2
  }

  function Flat(parts: seq<Bytes>): Bytes
    decreases |parts|
  {
    if parts == [] then [] else parts[0] + Flat(parts[1..])
  }

  lemma {:induction false} FlatConcat(a: seq<Bytes>, b: seq<Bytes>)
    ensures Flat(a + b) == Flat(a) + Flat(b)
    decreases |a|
  {
    if a == [] {
      assert a + b == b;
    } else {
      assert (a + b)[1..] == a[1..] + b;
      FlatConcat(a[1..], b);
      Associate(a[0], Flat(a[1..]), Flat(b));
    }
  }

  /** A marker is found at the same place when the text around it is cut away. */
  lemma FindInside(s: Bytes, a: nat, f: Bytes, code: Byte, p: nat)
    requires a + |f| <= |s| && s[a..a + |f|] == f && p <= |f|
    requires FindMarker(f, code, p) < |f|
    ensures FindMarker(s, code, a + p) == a + FindMarker(f, code, p)
  {
    hide FindMarker;
    var q := FindMarker(f, code, p);
    assert f[q] == s[a + q] && f[q + 1] == s[a + q + 1];
    forall k | a + p <= k < a + q ensures !MarkerAt(s, code, k) {
      assert f[k - a] == s[k] && f[k - a + 1] == s[k + 1];
      assert !MarkerAt(f, code, k - a);
    }
    FirstMarker(s, code, a + p, a + q);
  }

  /** The other way round: what is found in the stream is found in the piece that was cut out. */
  lemma FindOutside(s: Bytes, a: nat, f: Bytes, code: Byte, p: nat)
    requires a + |f| <= |s| && s[a..a + |f|] == f && p <= |f|
    requires FindMarker(s, code, a + p) + 2 == a + |f|
    ensures FindMarker(f, code, p) == |f| - 2
  {
    hide FindMarker;
    var q := FindMarker(s, code, a + p);
    assert f[q - a] == s[q] && f[q - a + 1] == s[q + 1];
    forall k | p <= k < q - a ensures !MarkerAt(f, code, k) {
      assert f[k] == s[a + k] && f[k + 1] == s[a + k + 1];
      assert !MarkerAt(s, code, a + k);
    }
    FirstMarker(f, code, p, q - a);
  }

  lemma NextFrame(s: Bytes, p: nat, soi: nat, eoi: nat)
    requires p <= |s| && FindMarker(s, SOI, p) == soi && soi + 2 <= |s| && FindMarker(s, EOI, soi + 2) == eoi
    requires eoi < |s|
    ensures Frames(s, p) == [s[soi..eoi + 2]] + Frames(s, eoi + 2)
  {
    hide FindMarker;
  }

  lemma NoFrame(s: Bytes, p: nat)
    requires p <= |s|
    requires FindMarker(s, SOI, p) == |s| || FindMarker(s, EOI, FindMarker(s, SOI, p) + 2) == |s|
    ensures Frames(s, p) == []
  {
    hide FindMarker;
  }

  /** Everything that is cut out is an image. */
  lemma {:induction false} FramesAreImages(s: Bytes, p: nat)
    requires p <= |s|
    ensures forall i :: 0 <= i < |Frames(s, p)| ==> Image(Frames(s, p)[i])
    decreases |s| - p
  {
    hide FindMarker, Frames, Image;
    var soi := FindMarker(s, SOI, p);
    if soi == |s| || FindMarker(s, EOI, soi + 2) == |s| {
      NoFrame(s, p);
    } else {
      var eoi := FindMarker(s, EOI, soi + 2);
      NextFrame(s, p, soi, eoi);
      CutIsImage(s, soi, eoi);
      FramesAreImages(s, eoi + 2);
    }
  }

  /** The markers, byte by byte. */
  lemma ImageForms(f: Bytes)
    requires Image(f)
    ensures f[..2] == [0xFF, 0xD8] && f[|f| - 2..] == [0xFF, 0xD9]
    ensures forall k :: 2 <= k < |f| - 2 ==> !(f[k] == 0xFF && f[k + 1] == 0xD9)
  {
    hide FindMarker;
    forall k | 2 <= k < |f| - 2 ensures !(f[k] == 0xFF && f[k + 1] == 0xD9) {
      assert !MarkerAt(f, EOI, k);
    }
  }

  lemma CutIsImage(s: Bytes, soi: nat, eoi: nat)
    requires MarkerAt(s, SOI, soi) && FindMarker(s, EOI, soi + 2) == eoi && eoi < |s|
    ensures Image(s[soi..eoi + 2])
  {
    hide FindMarker;
    FindOutside(s, soi, s[soi..eoi + 2], EOI, 2);
  }

  /** A stream of images is cut into exactly these images. */
  lemma {:induction false} ImagesAreSplit(s: Bytes, p: nat, images: seq<Bytes>)
    requires forall i :: 0 <= i < |images| ==> Image(images[i])
    requires p <= |s| && s[p..] == Flat(images)
    ensures Frames(s, p) == images
    decreases |images|
  {
    hide FindMarker, Frames;
    if images == [] {
      NoFrame(s, p);
    } else {
      var f := images[0];
      Behind(s, p, f, Flat(images[1..]));
      FoundAtOnce(s, p, f);
      FindInside(s, p, f, EOI, 2);
      NextFrame(s, p, p, p + |f| - 2);
      hide Image, Flat;
      ImagesAreSplit(s, p + |f|, images[1..]);
    }
  }

  lemma Behind(s: Bytes, p: nat, f: Bytes, rest: Bytes)
    requires p <= |s| && s[p..] == f + rest
    ensures p + |f| <= |s| && s[p..p + |f|] == f && s[p + |f|..] == rest
  {
    assert s[p..][..|f|] == f && s[p..][|f|..] == rest;
  }

  lemma FoundAtOnce(s: Bytes, p: nat, f: Bytes)
    requires Image(f) && p + |f| <= |s| && s[p..p + |f|] == f
    ensures FindMarker(s, SOI, p) == p
  {
    assert f[0] == s[p] && f[1] == s[p + 1];
    FirstMarker(s, SOI, p, p);
  }

  // ---------- Framing ----------

  /** 32 bits, most significant byte first. */
  function Header(n: nat): (h: Bytes)
    requires n < 0x1_0000_0000
    ensures |h| == 4
  {
    var a, b := n / 0x100, n / 0x1_0000;
    [b / 0x100, b % 0x100, a % 0x100, n % 0x100]
  }

  function Length(h: Bytes): (n: nat)
    requires |h| == 4
    ensures n < 0x1_0000_0000
  {
    ((h[0] as int * 0x100 + h[1]) * 0x100 + h[2]) * 0x100 + h[3]
  }

  /** Most significant byte first. */
  lemma LengthForms(h: Bytes)
    requires |h| == 4
    ensures Length(h) == h[0] as int * 0x100_0000 + h[1] as int * 0x1_0000 + h[2] as int * 0x100 + h[3] as int
  {
  }

  lemma LengthOfHeader(n: nat)
    requires n < 0x1_0000_0000
    ensures Length(Header(n)) == n
  {
  }

  lemma HeaderOfLength(h: Bytes)
    requires |h| == 4
    ensures Header(Length(h)) == h
  {
    var b := h[0] as int * 0x100 + h[1];
    var a := b * 0x100 + h[2];
    var n := a * 0x100 + h[3];
    assert n / 0x100 == a && a / 0x100 == b && n / 0x1_0000 == b;
  }

  /** The payload in slices, each as long as a slice may be except the last. */
  function Slices(payload: Bytes): (r: seq<Bytes>)
    ensures forall i :: 0 <= i < |r| ==> 0 < |r[i]| <= 256 * 1024
    ensures forall i :: 0 <= i < |r| - 1 ==> |r[i]| == 256 * 1024
    ensures Flat(r) == payload
    decreases |payload|
  {
    if payload == [] then []
    else if |payload| <= CHUNK then
      assert [payload][1..] == [];
      [payload]
    else [payload[..CHUNK]] + Slices(payload[CHUNK..])
  }

  predicate AllFit(frames: seq<Bytes>) {
    forall i :: 0 <= i < |frames| ==> Fits(frames[i])
  }

  /** What crosses the tunnel for some frames. */
  function Wire(frames: seq<Bytes>): Bytes
    requires AllFit(frames)
    decreases |frames|
  {
    if frames == [] then []
    else
      assert Fits(frames[0]);
      Header(|frames[0]|) + frames[0] + Wire(frames[1..])
  }

  predicate Fits(f: Bytes) {
    |f| <= MAX_FRAME
  }

  function FrameWrites(f: Bytes): seq<Bytes>
    requires Fits(f)
  {
    [Header(|f|)] + Slices(f)
  }

  /** The frames before the first one that is too long. */
  function Fitting(frames: seq<Bytes>): (r: seq<Bytes>)
    ensures AllFit(r)
    ensures r <= frames && (r == frames || !Fits(frames[|r|]))
    decreases |frames|
  {
    if frames == [] || !Fits(frames[0]) then [] else [frames[0]] + Fitting(frames[1..])
  }

  /** The tunnel's writing end: the writes so far. */
  class Tunnel {
    var writes: seq<Bytes>

    ghost predicate Safe()
      reads this
    {
      forall i :: 0 <= i < |writes| ==> |writes[i]| <= CHUNK
    }

    constructor ()
      ensures writes == []
    {
      writes := [];
    }
  }

  /** Writes one frame, in pieces that the tunnel can carry; a frame that is too long writes nothing. */
  method WriteFrame(w: Tunnel, payload: Bytes) returns (ok: bool)
    requires w.Safe()
    modifies w
    ensures w.Safe() && ok == Fits(payload) && (ok <==> |payload| <= 16 * 1024 * 1024)
    ensures w.writes == if ok then old(w.writes) + FrameWrites(payload) else old(w.writes)
  {
    hide Slices, Flat, Header;
    if |payload| > MAX_FRAME {
      return false;
    }
    Associate(w.writes, [Header(|payload|)], Slices(payload));
    w.writes := w.writes + [Header(|payload|)];
    ghost var start := w.writes;
    var off := 0;
    assert payload[0..] == payload;
    while off < |payload|
      invariant 0 <= off <= |payload| && w.Safe()
      invariant w.writes + Slices(payload[off..]) == start + Slices(payload)
    {
      var end := off + CHUNK;
      if end > |payload| {
        end := |payload|;
      }
      assert payload[off..][end - off..] == payload[end..];
      assert payload[off..][..end - off] == payload[off..end];
      SlicesFirst(payload[off..], end - off);
      Associate(w.writes, [payload[off..end]], Slices(payload[end..]));
      w.writes := w.writes + [payload[off..end]];
      off := end;
    }
    SlicesFirst(payload[off..], 0);
    return true;
  }

  lemma SlicesFirst(payload: Bytes, n: nat)
    requires n == if |payload| <= CHUNK then |payload| else CHUNK
    ensures Slices(payload) == if n == 0 then [] else [payload[..n]] + Slices(payload[n..])
  {
  }

  /** The writes of some frames. */
  function Writes(frames: seq<Bytes>): seq<Bytes>
    requires AllFit(frames)
    decreases |frames|
  {
    if frames == [] then [] else FrameWrites(frames[0]) + Writes(frames[1..])
  }

  lemma {:induction false} WritesPush(frames: seq<Bytes>, f: Bytes)
    requires Fits(f) && AllFit(frames)
    ensures Writes(frames + [f]) == Writes(frames) + FrameWrites(f)
    decreases |frames|
  {
    hide FrameWrites, Fits;
    if frames == [] {
      assert [f][1..] == [] && frames + [f] == [f];
    } else {
      WritesPush(frames[1..], f);
      assert (frames + [f])[1..] == frames[1..] + [f];
      Associate(FrameWrites(frames[0]), Writes(frames[1..]), FrameWrites(f));
    }
  }

  /** The bytes of the writes are the bytes of the frames, each behind its length. */
  lemma {:induction false} FlatWrites(frames: seq<Bytes>)
    requires AllFit(frames)
    ensures Flat(Writes(frames)) == Wire(frames)
    decreases |frames|
  {
    hide Header, Slices;
    if frames != [] {
      FlatFrameWrites(frames[0]);
      FlatConcat(FrameWrites(frames[0]), Writes(frames[1..]));
      FlatWrites(frames[1..]);
      hide FrameWrites;
    }
  }

  lemma FlatFrameWrites(f: Bytes)
    requires Fits(f)
    ensures Flat(FrameWrites(f)) == Header(|f|) + f
  {
    hide Header, Slices;
    assert FrameWrites(f)[1..] == Slices(f);
  }

  lemma {:induction false} FittingStops(done: seq<Bytes>, rest: seq<Bytes>)
    requires AllFit(done)
    ensures rest == [] || !Fits(rest[0]) ==> Fitting(done + rest) == done
    decreases |done|
  {
    if done != [] {
      FittingStops(done[1..], rest);
      assert (done + rest)[1..] == done[1..] + rest;
    } else {
      assert done + rest == rest;
    }
  }

  /** Between images: no start marker lies completely in `s[start..i]`. */
  ghost predicate Between(s: Bytes, start: nat, i: nat, prev: Byte) {
    && start <= i <= |s| && prev == (if i == start then 0 else s[i - 1])
    && forall k :: start <= k < i - 1 ==> !MarkerAt(s, SOI, k)
  }

  /** Inside an image that starts at `soi`: no end marker lies completely in `s[soi + 2..i]`. */
  ghost predicate Inside(s: Bytes, start: nat, soi: nat, i: nat, buf: Bytes, prev: Byte) {
    && start <= soi && soi + 2 <= i <= |s| && FindMarker(s, SOI, start) == soi
    && buf == s[soi..i] && prev == s[i - 1]
    && forall k :: soi + 2 <= k < i - 1 ==> !MarkerAt(s, EOI, k)
  }

  lemma BetweenStep(s: Bytes, start: nat, i: nat, prev: Byte)
    requires Between(s, start, i, prev) && i < |s|
    ensures if prev == 0xFF && s[i] == SOI then i > 0 && Inside(s, start, i - 1, i + 1, [0xFF, 0xD8], s[i])
            else Between(s, start, i + 1, s[i])
  {
    hide FindMarker;
    if prev == 0xFF && s[i] == SOI {
      FirstMarker(s, SOI, start, i - 1);
    }
  }

  lemma InsideStep(s: Bytes, start: nat, soi: nat, i: nat, buf: Bytes, prev: Byte)
    requires Inside(s, start, soi, i, buf, prev) && i < |s|
    ensures prev == 0xFF && s[i] == EOI ==> Frames(s, start) == [buf + [s[i]]] + Frames(s, i + 1)
    ensures !(prev == 0xFF && s[i] == EOI) ==> Inside(s, start, soi, i + 1, buf + [s[i]], s[i])
  {
    hide FindMarker, Frames;
    assert buf + [s[i]] == s[soi..i + 1];
    if prev == 0xFF && s[i] == EOI {
      FirstMarker(s, EOI, soi + 2, i - 1);
      NextFrame(s, start, soi, i - 1);
    }
  }

  lemma StreamEnds(s: Bytes, start: nat, soi: nat, buf: Bytes, prev: Byte)
    requires Between(s, start, |s|, prev) || Inside(s, start, soi, |s|, buf, prev)
    ensures start <= |s| && Frames(s, start) == []
  {
    hide FindMarker;
    if Between(s, start, |s|, prev) {
      assert FindMarker(s, SOI, start) == |s|;
    } else {
      assert FindMarker(s, EOI, soi + 2) == |s|;
    }
    NoFrame(s, start);
  }

  lemma Completed(before: seq<Bytes>, done: seq<Bytes>, f: Bytes, rest: seq<Bytes>)
    requires AllFit(done)
    ensures Fits(f) ==> (before + Writes(done)) + FrameWrites(f) == before + Writes(done + [f])
    ensures (done + [f]) + rest == done + ([f] + rest)
    ensures !Fits(f) ==> Fitting(done + ([f] + rest)) == done
    ensures Fits(f) ==> AllFit(done + [f])
    ensures Fitting(done + []) == done == done + []
  {
    hide Fits, FrameWrites, Writes, Fitting;
    if Fits(f) {
      WritesPush(done, f);
      Associate(before, Writes(done), FrameWrites(f));
    }
    FittingStops(done, [f] + rest);
    FittingStops(done, []);
    Associate(done, [f], rest);
  }

  /** Cuts the stream and writes each image as it is completed; stops at the first one that is too long. */
  method SplitMJPEG(s: Bytes, w: Tunnel) returns (ok: bool)
    requires w.Safe()
    modifies w
    ensures w.Safe() && w.writes == old(w.writes) + Writes(Fitting(Frames(s, 0)))
    ensures ok == (Fitting(Frames(s, 0)) == Frames(s, 0))
  {
    hide FindMarker, Frames, Slices, Fitting, FrameWrites, Flat, AllFit, Between, Inside, Writes;
    var buf: Bytes := [];
    var inFrame := false;
    var prev: Byte := 0;
    ghost var start, soi := 0, 0;
    ghost var done: seq<Bytes> := [];
    StreamStarts(s, 0, w.writes);
    var i := 0;
    while i < |s|
      invariant 0 <= start <= i <= |s| && 0 <= soi && w.Safe()
      invariant AllFit(done)
      invariant w.writes == old(w.writes) + Writes(done)
      invariant done + Frames(s, start) == Frames(s, 0)
      invariant if inFrame then Inside(s, start, soi, i, buf, prev) else Between(s, start, i, prev)
    {
      var b := s[i];
      if !inFrame {
        BetweenStep(s, start, i, prev);
        if prev == 0xFF && b == 0xD8 {
          inFrame := true;
          soi := i - 1;
          buf := [0xFF, 0xD8];
        }
        prev := b;
      } else {
        InsideStep(s, start, soi, i, buf, prev);
        buf := buf + [b];
        if prev == 0xFF && b == 0xD9 {
          Completed(old(w.writes), done, buf, Frames(s, i + 1));
          var written := WriteFrame(w, buf);
          if !written {
            return false;
          }
          done := done + [buf];
          StreamStarts(s, i + 1, w.writes);
          start := i + 1;
          inFrame := false;
          buf := [];
          prev := 0;
        } else {
          prev := b;
        }
      }
      i := i + 1;
    }
    StreamEnds(s, start, soi, buf, prev);
    Completed(old(w.writes), done, [], []);
    return true;
  }

  lemma StreamStarts(s: Bytes, p: nat, writes: seq<Bytes>)
    requires p <= |s|
    ensures AllFit([]) && Between(s, p, p, 0) && [] + Frames(s, 0) == Frames(s, 0) && writes + Writes([]) == writes
  {
  }

  // ---------- The reading end ----------

  /** A reader of a stream, and where it stands. */
  class Reader {
    const data: Bytes
    var pos: nat

    ghost predicate Valid()
      reads this
    {
      pos <= |data|
    }

    constructor (data: Bytes)
      ensures Valid() && this.data == data && pos == 0
    {
      this.data := data;
      pos := 0;
    }

    /** `io.ReadFull`: exactly `n` bytes; running dry before the first one is told apart from running dry later. */
    method ReadFull(n: nat) returns (r: Chunk)
      requires Valid() && n > 0
      modifies this
      ensures Valid() && pos == if old(pos) + n <= |data| then old(pos) + n else |data|
      ensures r == if old(pos) + n <= |data| then Got(data[old(pos)..old(pos) + n])
                   else if old(pos) == |data| then Failed(Eof) else Failed(UnexpectedEof)
    {
      if pos + n <= |data| {
        r := Got(data[pos..pos + n]);
        pos := pos + n;
      } else {
        r := Failed(if pos == |data| then Eof else UnexpectedEof);
        pos := |data|;
      }
    }
  }

  datatype Trouble = Eof | UnexpectedEof | EmptyFrame | TooLong

  datatype Chunk = Got(bytes: Bytes) | Failed(trouble: Trouble)

  /** What may be read back: neither empty nor too long. */
  predicate Carried(f: Bytes) {
    0 < |f| <= MAX_FRAME
  }

  predicate AllCarried(frames: seq<Bytes>) {
    AllFit(frames) && forall i :: 0 <= i < |frames| ==> Carried(frames[i])
  }

  predicate StartsWithFrame(s: Bytes) {
    |s| >= 4 && 0 < Length(s[..4]) <= MAX_FRAME && |s| >= 4 + Length(s[..4])
  }

  /** A stream that ends before a frame, or right behind a good header, counts as ended cleanly. */
  predicate EndsCleanly(s: Bytes) {
    s == [] || (|s| == 4 && 0 < Length(s) <= MAX_FRAME)
  }

  function TroubleOf(s: Bytes): Trouble
    requires !StartsWithFrame(s)
  {
    if EndsCleanly(s) then Eof
    else if |s| < 4 then UnexpectedEof
    else if Length(s[..4]) == 0 then EmptyFrame
    else if Length(s[..4]) > MAX_FRAME then TooLong
    else UnexpectedEof
  }

  /** What is wrong with a stream that does not start with a frame. */
  lemma TroubleForms(s: Bytes)
    requires !StartsWithFrame(s)
    ensures TroubleOf(s) == Eof <==> s == [] || (|s| == 4 && 0 < Length(s) <= 16 * 1024 * 1024)
    ensures TroubleOf(s) == EmptyFrame <==> |s| >= 4 && s[..4] == [0, 0, 0, 0]
    ensures TroubleOf(s) == TooLong <==> |s| >= 4 && Length(s[..4]) > 16 * 1024 * 1024
  {
    if |s| >= 4 {
      assert |s| == 4 ==> s[..4] == s;
      LengthForms(s[..4]);
    }
  }

  method ReadFrame(r: Reader) returns (c: Chunk)
    requires r.Valid()
    modifies r
    ensures r.Valid()
    ensures var s := r.data[old(r.pos)..];
            if StartsWithFrame(s) then
              && c.Got? && Carried(c.bytes) && r.pos == old(r.pos) + 4 + |c.bytes|
              && s == Header(|c.bytes|) + c.bytes + r.data[r.pos..]
            else c == Failed(TroubleOf(s))
  {
    ghost var start := r.pos;
    ghost var s := r.data[start..];
    c := r.ReadFull(4);
    if c.Failed? {
      return;
    }
    assert c.bytes == s[..4];
    assert |s| == 4 ==> s[..4] == s;
    var n := Length(c.bytes);
    HeaderOfLength(c.bytes);
    if n == 0 {
      return Failed(EmptyFrame);
    }
    if n > MAX_FRAME {
      return Failed(TooLong);
    }
    c := r.ReadFull(n);
    if c.Got? {
      ThreeParts(s, n);
      assert s[4..4 + n] == c.bytes && s[4 + n..] == r.data[r.pos..];
    }
  }

  lemma ThreeParts(s: Bytes, n: nat)
    requires 4 + n <= |s|
    ensures s == s[..4] + s[4..4 + n] + s[4 + n..]
  {
  }

  /** What the viewer makes of a stream: the frames at its start, one after the other, up to where no
      complete frame follows; and whether that counts as a clean end. */
  ghost predicate Read(s: Bytes, frames: seq<Bytes>, clean: bool) {
    && AllCarried(frames)
    && Wire(frames) <= s
    && var rest := s[|Wire(frames)|..];
    !StartsWithFrame(rest) && clean == EndsCleanly(rest)
  }

  method ReadScreenFrames(r: Reader) returns (frames: seq<Bytes>, clean: bool)
    requires r.Valid()
    modifies r
    ensures Read(old(r.data[r.pos..]), frames, clean)
  {
    hide AllFit, AllCarried, Wire, Header, StartsWithFrame, TroubleOf, Read;
    frames := [];
    ghost var s := r.data[r.pos..];
    NothingYet(s);
    while true
      invariant r.Valid() && AllCarried(frames) && AllFit(frames)
      invariant s == Wire(frames) + r.data[r.pos..]
      decreases |r.data| - r.pos
    {
      ghost var rest := r.data[r.pos..];
      var c := ReadFrame(r);
      if c.Failed? {
        NoMore(frames, rest);
        return frames, c.trouble == Eof;
      }
      OneMore(frames, c.bytes, r.data[r.pos..]);
      frames := frames + [c.bytes];
    }
  }

  lemma NothingYet(s: Bytes)
    ensures AllCarried([]) && AllFit([]) && s == Wire([]) + s
  {
  }

  lemma OneMore(frames: seq<Bytes>, f: Bytes, rest: Bytes)
    requires AllCarried(frames) && Carried(f)
    ensures AllCarried(frames + [f]) && AllFit(frames) && AllFit(frames + [f])
    ensures Wire(frames) + (Header(|f|) + f + rest) == Wire(frames + [f]) + rest
  {
    WirePush(frames, f);
    Associate(Wire(frames), Header(|f|) + f, rest);
  }

  lemma NoMore(frames: seq<Bytes>, rest: Bytes)
    requires AllCarried(frames) && !StartsWithFrame(rest)
    ensures AllFit(frames) && Read(Wire(frames) + rest, frames, TroubleOf(rest) == Eof)
  {
    hide Wire, StartsWithFrame;
    assert (Wire(frames) + rest)[|Wire(frames)|..] == rest;
  }

  lemma {:induction false} WirePush(frames: seq<Bytes>, f: Bytes)
    requires Fits(f) && AllFit(frames)
    ensures Wire(frames + [f]) == Wire(frames) + (Header(|f|) + f)
    decreases |frames|
  {
    hide Header;
    if frames == [] {
      assert [f][1..] == [] && frames + [f] == [f];
    } else {
      WirePush(frames[1..], f);
      assert (frames + [f])[1..] == frames[1..] + [f];
      Associate(Header(|frames[0]|) + frames[0], Wire(frames[1..]), Header(|f|) + f);
    }
  }

  // ---------- From end to end ----------

  lemma StartsWith(s: Bytes, f: Bytes, tail: Bytes)
    requires Carried(f) && s == Header(|f|) + f + tail
    ensures StartsWithFrame(s) && Length(s[..4]) == |f| && s[4..4 + |f|] == f && s[4 + |f|..] == tail
  {
    LengthOfHeader(|f|);
    assert s[..4] == Header(|f|);
    hide Header, Length;
  }

  lemma ReadRest(s: Bytes, frames: seq<Bytes>, clean: bool)
    requires Read(s, frames, clean) && frames != []
    ensures var f := frames[0];
            Carried(f) && Header(|f|) + f <= s && Read(s[4 + |f|..], frames[1..], clean)
  {
    hide Header, StartsWithFrame, EndsCleanly;
    var f := frames[0];
    Associate(Header(|f|) + f, Wire(frames[1..]), s[|Wire(frames)|..]);
    assert s == Wire(frames) + s[|Wire(frames)|..];
    var tail := Wire(frames[1..]) + s[|Wire(frames)|..];
    assert s == Header(|f|) + f + tail;
    assert s[4 + |f|..] == tail;
    assert tail[|Wire(frames[1..])|..] == s[|Wire(frames)|..];
  }

  lemma ReadNothing(s: Bytes, frames: seq<Bytes>, clean: bool)
    requires Read(s, frames, clean)
    ensures StartsWithFrame(s) <==> frames != []
    ensures frames == [] ==> clean == EndsCleanly(s)
  {
    hide Header, StartsWithFrame, EndsCleanly, Length, Read;
    if frames != [] {
      ReadRest(s, frames, clean);
      var f := frames[0];
      assert s == Header(|f|) + f + s[4 + |f|..];
      StartsWith(s, f, s[4 + |f|..]);
    } else {
      ReadNone(s, clean);
    }
  }

  lemma ReadNone(s: Bytes, clean: bool)
    requires Read(s, [], clean)
    ensures !StartsWithFrame(s) && clean == EndsCleanly(s)
  {
    assert s[0..] == s;
  }

  /** The viewer reads back what was written and nothing else, whatever incomplete frame follows. */
  lemma {:induction false} ReadsBack(frames: seq<Bytes>, rest: Bytes, got: seq<Bytes>, clean: bool)
    requires AllCarried(frames)
    requires !StartsWithFrame(rest) && Read(Wire(frames) + rest, got, clean)
    ensures got == frames && clean == EndsCleanly(rest)
    decreases |frames|
  {
    hide Header, StartsWithFrame, EndsCleanly, Length, Read;
    var s := Wire(frames) + rest;
    ReadNothing(s, got, clean);
    if frames == [] {
      assert s == rest;
    } else {
      var f, tail := frames[0], Wire(frames[1..]) + rest;
      Associate(Header(|f|) + f, Wire(frames[1..]), rest);
      SameFirst(s, f, tail, got, clean);
      ReadsBack(frames[1..], rest, got[1..], clean);
    }
  }

  lemma SameFirst(s: Bytes, f: Bytes, tail: Bytes, got: seq<Bytes>, clean: bool)
    requires Carried(f) && s == Header(|f|) + f + tail && Read(s, got, clean)
    ensures got != [] && got[0] == f && Read(tail, got[1..], clean)
  {
    hide Header, StartsWithFrame, Length, Read;
    StartsWith(s, f, tail);
    ReadNothing(s, got, clean);
    ReadRest(s, got, clean);
    assert s == Header(|got[0]|) + got[0] + s[4 + |got[0]|..];
    StartsWith(s, got[0], s[4 + |got[0]|..]);
  }

  /** When the stream is cut anywhere, the viewer gets the frames that were complete. It takes the cut for a
      clean end exactly when it falls on a frame boundary or right behind a header. */
  lemma {:induction false} CutStream(frames: seq<Bytes>, n: nat, got: seq<Bytes>, clean: bool)
    requires AllCarried(frames)
    requires n <= |Wire(frames)| && Read(Wire(frames)[..n], got, clean)
    ensures got <= frames && |Wire(got)| <= n
    ensures |got| < |frames| ==> n < |Wire(got)| + 4 + |frames[|got|]|
    ensures clean <==> n == |Wire(got)| || n == |Wire(got)| + 4
    decreases |frames|
  {
    hide Header, StartsWithFrame, Length, Read, EndsCleanly;
    var s := Wire(frames)[..n];
    ReadNothing(s, got, clean);
    if frames == [] {
      Stuck(s);
    } else {
      var f := frames[0];
      if n < 4 + |f| {
        assert s == (Header(|f|) + f)[..n];
        CutInFrame(f, n);
      } else {
        var tail := Wire(frames[1..])[..n - 4 - |f|];
        assert s == Header(|f|) + f + tail;
        SameFirst(s, f, tail, got, clean);
        CutStream(frames[1..], n - 4 - |f|, got[1..], clean);
      }
    }
  }

  /** Earlier frames take up less of the wire. */
  lemma {:induction false} WireGrows(frames: seq<Bytes>, i: nat, j: nat)
    requires AllFit(frames) && i < j <= |frames|
    ensures AllFit(frames[..i]) && AllFit(frames[..j])
    ensures |Wire(frames[..i])| + 4 + |frames[i]| <= |Wire(frames[..j])|
    decreases j
  {
    hide Header, Wire;
    var front, last := frames[..j - 1], frames[j - 1];
    assert frames[..j] == front + [last] && Fits(last);
    WirePush(front, last);
    if i < j - 1 {
      WireGrows(frames, i, j - 1);
    }
  }

  /** The cut falls on a frame boundary, or right behind the header of a frame. */
  ghost predicate CutCleanly(frames: seq<Bytes>, n: nat, k: nat)
    requires AllFit(frames)
  {
    && k <= |frames| && AllFit(frames[..k])
    && (n == |Wire(frames[..k])| || (k < |frames| && n == |Wire(frames[..k])| + 4))
  }

  /** Cut anywhere, a stream counts as cleanly ended exactly if it is cut on a frame boundary or right behind
      a header. */
  lemma CutStreamExactly(frames: seq<Bytes>, n: nat, got: seq<Bytes>, clean: bool)
    requires AllCarried(frames) && n <= |Wire(frames)| && Read(Wire(frames)[..n], got, clean)
    ensures clean <==> exists k: nat :: CutCleanly(frames, n, k)
  {
    hide Header, Wire, Read;
    CutStream(frames, n, got, clean);
    var j := |got|;
    assert frames[..j] == got && frames[..|frames|] == frames;
    if clean {
      assert CutCleanly(frames, n, j);
    }
    if k: nat :| CutCleanly(frames, n, k) {
      if k < j {
        WireGrows(frames, k, j);
        assert Carried(frames[k]);
      } else if j < k {
        WireGrows(frames, j, k);
      }
    }
  }

  lemma Stuck(s: Bytes)
    requires s == []
    ensures !StartsWithFrame(s) && EndsCleanly(s)
  {
  }

  lemma CutInFrame(f: Bytes, n: nat)
    requires Carried(f) && n < 4 + |f|
    ensures var s := (Header(|f|) + f)[..n];
            !StartsWithFrame(s) && (EndsCleanly(s) <==> n == 0 || n == 4)
  {
    LengthOfHeader(|f|);
    var s := (Header(|f|) + f)[..n];
    if n >= 4 {
      assert s[..4] == Header(|f|);
      assert n == 4 ==> s == s[..4];
    }
    hide Header, Length;
  }

  /** For every stream: what the viewer reads from what `SplitMJPEG` wrote is the images before the first
      one that is too long, each intact and in order, and a clean end. */
  lemma PipeDelivers(s: Bytes, got: seq<Bytes>, clean: bool)
    requires Read(Flat(Writes(Fitting(Frames(s, 0)))), got, clean)
    ensures got == Fitting(Frames(s, 0)) && clean
    ensures forall i :: 0 <= i < |got| ==> Image(got[i])
  {
    hide Frames, Read, Flat, Writes, Wire, Fitting, Image, FindMarker;
    var frames := Fitting(Frames(s, 0));
    FramesAreImages(s, 0);
    forall i | 0 <= i < |frames| ensures Carried(frames[i]) && Image(frames[i]) {
      assert frames[i] == Frames(s, 0)[i];
      ImageNotEmpty(frames[i]);
    }
    FlatWrites(frames);
    assert Wire(frames) + [] == Wire(frames);
    Stuck([]);
    ReadsBack(frames, [], got, clean);
  }

  lemma ImageNotEmpty(f: Bytes)
    requires Image(f)
    ensures |f| > 0
  {
  }

  /** A stream of images that fit arrives as these images. */
  lemma ImagesArrive(images: seq<Bytes>, got: seq<Bytes>, clean: bool)
    requires forall i :: 0 <= i < |images| ==> Image(images[i]) && Fits(images[i])
    requires Read(Flat(Writes(Fitting(Frames(Flat(images), 0)))), got, clean)
    ensures got == images && clean
  {
    hide Frames, Read, Writes, Image, Flat;
    ImagesAreSplit(Flat(images), 0, images);
    FittingStops(images, []);
    assert images + [] == images;
    PipeDelivers(Flat(images), got, clean);
  }
}

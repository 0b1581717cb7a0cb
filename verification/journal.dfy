/** The journal line writer: bytes arrive in arbitrary pieces and leave as bounded frames. */
module Journal {

  newtype byte = x: int | 0 <= x < 256

  const LF: byte := 10
  const CR: byte := 13

  // MaxLine of the writer: 60 << 10.
  const MAX_LINE: nat := 61440

  /** One call of emit: the bytes it was given and whether a line feed ended them. */
  datatype Frame = Frame(raw: seq<byte>, lineEnd: bool)

  /** The fallback output, which writes a prefix before every line, if there is one. */
  datatype Sink = NoSink | Sink(prefix: seq<byte>)

  /** A message the journal took, the bytes written to the fallback instead, or neither. */
  datatype Delivery = Native(message: seq<byte>) | Fallback(bytes: seq<byte>) | Lost

  /** The one-byte-at-a-time framer that the writer refines. */
  datatype Framer = Framer(frames: seq<Frame>, buf: seq<byte>)

  function Feed(f: Framer, b: byte): Framer {
    if |f.buf| == MAX_LINE then
      if b == LF then Framer(f.frames + [Frame(f.buf, true)], [])
      else Framer(f.frames + [Frame(f.buf, false)], [b])
    else if b == LF then
      Framer(f.frames + [Frame(f.buf, true)], [])
    else
      Framer(f.frames, f.buf + [b])
  }

  function FeedAll(f: Framer, p: seq<byte>): Framer {
    if p == [] then f else Feed(FeedAll(f, p[..|p| - 1]), p[|p| - 1])
  }

  /** A frame is short and free of line feeds; a frame not ended by one was cut because it was full. */
  ghost predicate FrameOk(f: Frame) {
    |f.raw| <= MAX_LINE && LF !in f.raw && (f.lineEnd || |f.raw| == MAX_LINE)
  }

  /** After a cut at a full frame the same line goes on, so what follows is not empty. */
  ghost predicate CutsContinue(frames: seq<Frame>) {
    forall i :: 0 <= i < |frames| ==> Continues(frames, i)
  }

  predicate Continues(frames: seq<Frame>, i: int)
    requires 0 <= i < |frames|
  {
    i == 0 || frames[i - 1].lineEnd || frames[i].raw != []
  }

  ghost predicate FramerOk(f: Framer) {
    && (forall i :: 0 <= i < |f.frames| ==> FrameOk(f.frames[i]))
    && |f.buf| <= MAX_LINE && LF !in f.buf
    && CutsContinue(f.frames)
    && (f.frames != [] && !f.frames[|f.frames| - 1].lineEnd ==> f.buf != [])
  }

  /** The input that a list of frames stands for. */
  function Rebuild(frames: seq<Frame>): seq<byte> {
    if frames == [] then []
    else
      var last := frames[|frames| - 1];
      Rebuild(frames[..|frames| - 1]) + last.raw + (if last.lineEnd then [LF] else [])
  }

  function Concat(pieces: seq<seq<byte>>): seq<byte> {
    if pieces == [] then [] else pieces[0] + Concat(pieces[1..])
  }

  lemma {:induction false} FeedAllConcat(f: Framer, p: seq<byte>, q: seq<byte>)
    ensures FeedAll(f, p + q) == FeedAll(FeedAll(f, p), q)
    decreases |q|
  {
    if q == [] {
      assert p + q == p;
    } else {
      assert (p + q)[..|p + q| - 1] == p + q[..|q| - 1];
      FeedAllConcat(f, p, q[..|q| - 1]);
    }
  }

  lemma FeedOne(f: Framer, b: byte)
    ensures FeedAll(f, [b]) == Feed(f, b)
  {
    assert [b][..0] == [];
    assert FeedAll(f, []) == f;
  }

  /** Bytes without a line feed that still fit are only buffered. */
  lemma {:induction false} FeedQuiet(f: Framer, p: seq<byte>)
    requires |f.buf| + |p| <= MAX_LINE && LF !in p
    ensures FeedAll(f, p) == Framer(f.frames, f.buf + p)
    decreases |p|
  {
    if p == [] {
      assert f.buf + p == f.buf;
    } else {
      var front := p[..|p| - 1];
      assert forall b :: b in front ==> b in p;
      FeedQuiet(f, front);
      assert p[|p| - 1] in p;
      assert f.buf + front + [p[|p| - 1]] == f.buf + p;
    }
  }

  lemma RebuildSnoc(frames: seq<Frame>, last: Frame)
    ensures Rebuild(frames + [last]) == Rebuild(frames) + last.raw + (if last.lineEnd then [LF] else [])
  {
    assert (frames + [last])[..|frames|] == frames;
  }

  lemma FeedKeepsRules(f: Framer, b: byte)
    requires FramerOk(f)
    ensures FramerOk(Feed(f, b))
  {
    var g := Feed(f, b);
    forall i | 0 <= i < |g.frames| ensures Continues(g.frames, i) {
      if i < |f.frames| {
        assert Continues(f.frames, i);
      }
    }
  }

  lemma FeedKeepsInput(f: Framer, b: byte)
    ensures Rebuild(Feed(f, b).frames) + Feed(f, b).buf == Rebuild(f.frames) + f.buf + [b]
  {
    if b == LF {
      RebuildSnoc(f.frames, Frame(f.buf, true));
    } else if |f.buf| == MAX_LINE {
      RebuildSnoc(f.frames, Frame(f.buf, false));
    }
  }

  /** Framing loses and invents nothing, and keeps every frame bounded. */
  lemma {:induction false} FramesRebuildInput(f: Framer, p: seq<byte>)
    requires FramerOk(f)
    ensures FramerOk(FeedAll(f, p))
    ensures Rebuild(FeedAll(f, p).frames) + FeedAll(f, p).buf == Rebuild(f.frames) + f.buf + p
    decreases |p|
  {
    if p == [] {
      assert f.buf + p == f.buf;
      assert Rebuild(f.frames) + f.buf + p == Rebuild(f.frames) + f.buf;
    } else {
      var front := p[..|p| - 1];
      FramesRebuildInput(f, front);
      FeedKeepsRules(FeedAll(f, front), p[|p| - 1]);
      FeedKeepsInput(FeedAll(f, front), p[|p| - 1]);
      assert Rebuild(f.frames) + f.buf + front + [p[|p| - 1]] == Rebuild(f.frames) + f.buf + p;
    }
  }

  lemma FrontObeysRules(a: seq<Frame>, x: seq<byte>)
    requires FramerOk(Framer(a, x)) && a != []
    ensures FramerOk(Framer(a[..|a| - 1], a[|a| - 1].raw))
  {
    assert FrameOk(a[|a| - 1]) && Continues(a, |a| - 1);
    var front := a[..|a| - 1];
    forall i | 0 <= i < |front| ensures Continues(front, i) {
      assert Continues(a, i);
    }
  }

  lemma RebuildLast(a: seq<Frame>, x: seq<byte>)
    requires a != []
    ensures var front, last := a[..|a| - 1], a[|a| - 1];
            Rebuild(a) + x == (Rebuild(front) + last.raw) + ((if last.lineEnd then [LF] else []) + x)
  {
  }

  /** Any rule-abiding frame list is what the framer produces for the input it stands for. */
  lemma {:induction false} CanonicalFromStart(a: seq<Frame>, x: seq<byte>)
    requires FramerOk(Framer(a, x))
    ensures FeedAll(Framer([], []), Rebuild(a) + x) == Framer(a, x)
    decreases |a|
  {
    var start := Framer([], []);
    if a == [] {
      assert Rebuild(a) + x == x;
      FeedQuiet(start, x);
      assert [] + x == x;
    } else {
      var front, last := a[..|a| - 1], a[|a| - 1];
      FrontObeysRules(a, x);
      assert FrameOk(last);
      CanonicalFromStart(front, last.raw);
      var text, tail := Rebuild(front) + last.raw, (if last.lineEnd then [LF] else []) + x;
      assert front + [last] == a;
      RebuildLast(a, x);
      FeedAllConcat(start, text, tail);
      AfterFrame(Framer(front, last.raw), last.lineEnd, x);
    }
  }

  /** Framing is canonical: the framer's result is the only rule-abiding framing of its input. */
  lemma FramingIsCanonical(p: seq<byte>, f: Framer)
    ensures FramerOk(f) && Rebuild(f.frames) + f.buf == p <==> f == FeedAll(Framer([], []), p)
  {
    FramesRebuildInput(Framer([], []), p);
    assert Rebuild([]) + [] + p == p;
    if FramerOk(f) && Rebuild(f.frames) + f.buf == p {
      CanonicalFromStart(f.frames, f.buf);
    }
  }

  lemma AfterFrame(f: Framer, lineEnd: bool, x: seq<byte>)
    requires |f.buf| <= MAX_LINE && |x| <= MAX_LINE && LF !in x
    requires !lineEnd ==> |f.buf| == MAX_LINE && x != []
    ensures FeedAll(f, (if lineEnd then [LF] else []) + x) == Framer(f.frames + [Frame(f.buf, lineEnd)], x)
  {
    assert [] + x == x;
    FeedQuiet(Framer(f.frames + [Frame(f.buf, lineEnd)], []), x);
    if lineEnd {
      FeedAllConcat(f, [LF], x);
      FeedOne(f, LF);
    } else {
      FeedCut(f, x);
    }
  }

  // Trailing carriage returns are dropped from a native message, bytes.TrimRight(line, "\r").
  function TrimCR(line: seq<byte>): (r: seq<byte>)
    ensures r <= line && (r == [] || r[|r| - 1] != CR)
    ensures forall i :: |r| <= i < |line| ==> line[i] == CR
  {
    if line != [] && line[|line| - 1] == CR then TrimCR(line[..|line| - 1]) else line
  }

  function Message(f: Frame): seq<byte> {
    if f.lineEnd then TrimCR(f.raw) else f.raw
  }

  /** What the frames turn into, given which send calls the journal accepts. */
  function Deliveries(frames: seq<Frame>, accepts: nat -> bool, sink: Sink): seq<Delivery> {
    if frames == [] then []
    else
      var before := Deliveries(frames[..|frames| - 1], accepts, sink);
      var f := frames[|frames| - 1];
      if Message(f) == [] then before else before + [Outcome(f, accepts(|before|), sink)]
  }

  /** What becomes of one non-blank frame: the trimmed message, or the untrimmed bytes when sending failed. */
  function Outcome(f: Frame, accepted: bool, sink: Sink): Delivery {
    if accepted then Native(Message(f)) else if sink.Sink? then Fallback(sink.prefix + f.raw + [LF]) else Lost
  }

  lemma DeliveriesSnoc(frames: seq<Frame>, f: Frame, accepts: nat -> bool, sink: Sink)
    ensures var before := Deliveries(frames, accepts, sink);
            Deliveries(frames + [f], accepts, sink) ==
            if Message(f) == [] then before else before + [Outcome(f, accepts(|before|), sink)]
  {
    assert (frames + [f])[..|frames|] == frames;
  }

  function NonBlank(frames: seq<Frame>): seq<Frame> {
    if frames == [] then []
    else
      var f := frames[|frames| - 1];
      NonBlank(frames[..|frames| - 1]) + (if Message(f) == [] then [] else [f])
  }

  /** Every non-blank frame is sent once, in order, and falls back untrimmed exactly when its send failed. */
  lemma {:induction false} DeliveredInOrder(frames: seq<Frame>, accepts: nat -> bool, sink: Sink)
    ensures var d, n := Deliveries(frames, accepts, sink), NonBlank(frames);
            |d| == |n| && forall i :: 0 <= i < |d| ==> d[i] == Outcome(n[i], accepts(i), sink)
    decreases |frames|
  {
    if frames == [] {
    } else {
      DeliveredInOrder(frames[..|frames| - 1], accepts, sink);
    }
  }

  /** A full buffer is cut by the next byte unless that byte ends the line. */
  lemma FeedCut(f: Framer, rest: seq<byte>)
    requires |f.buf| == MAX_LINE && rest != [] && rest[0] != LF
    ensures FeedAll(f, rest) == FeedAll(Framer(f.frames + [Frame(f.buf, false)], []), rest)
  {
    var g := Framer(f.frames + [Frame(f.buf, false)], []);
    assert rest == [rest[0]] + rest[1..];
    FeedAllConcat(f, [rest[0]], rest[1..]);
    FeedAllConcat(g, [rest[0]], rest[1..]);
    FeedOne(f, rest[0]);
    FeedOne(g, rest[0]);
  }

  /** A line feed within reach ends the line, buffered part included. */
  lemma FeedLine(f: Framer, rest: seq<byte>, i: nat)
    requires i < |rest| && rest[i] == LF && LF !in rest[..i] && |f.buf| + i <= MAX_LINE
    ensures FeedAll(f, rest) == FeedAll(Framer(f.frames + [Frame(f.buf + rest[..i], true)], []), rest[i + 1..])
  {
    SplitAt(rest, i);
    FeedQuietly(f, rest[..i], [LF] + rest[i + 1..]);
    FeedEnd(Framer(f.frames, f.buf + rest[..i]), rest[i + 1..]);
  }

  lemma SplitAt(rest: seq<byte>, i: nat)
    requires i < |rest| && rest[i] == LF
    ensures rest == rest[..i] + ([LF] + rest[i + 1..])
  {
  }

  lemma FeedQuietly(f: Framer, quiet: seq<byte>, after: seq<byte>)
    requires LF !in quiet && |f.buf| + |quiet| <= MAX_LINE
    ensures FeedAll(f, quiet + after) == FeedAll(Framer(f.frames, f.buf + quiet), after)
  {
    FeedAllConcat(f, quiet, after);
    FeedQuiet(f, quiet);
  }

  lemma FeedEnd(f: Framer, after: seq<byte>)
    requires |f.buf| <= MAX_LINE
    ensures FeedAll(f, [LF] + after) == FeedAll(Framer(f.frames + [Frame(f.buf, true)], []), after)
  {
    FeedAllConcat(f, [LF], after);
    FeedOne(f, LF);
  }

  lemma FeedFull(f: Framer, p: seq<byte>)
    requires |f.buf| == MAX_LINE && p != []
    ensures FeedAll(f, p) ==
            FeedAll(Framer(f.frames + [Frame(f.buf, p[0] == LF)], []), if p[0] == LF then p[1..] else p)
  {
    if p[0] == LF {
      FeedLine(f, p, 0);
      assert f.buf + p[..0] == f.buf;
    } else {
      FeedCut(f, p);
    }
  }

  method IndexByte(p: seq<byte>, b: byte) returns (i: nat)
    ensures i <= |p| && b !in p[..i] && (i < |p| ==> p[i] == b)
  {
    i := 0;
    while i < |p| && p[i] != b
      invariant i <= |p| && b !in p[..i]
    {
      i := i + 1;
    }
  }

  datatype WriteError = NoError | ClosedPipe

  /** One independently buffered output stream. */
  class Writer {
    const accepts: nat -> bool  // outcome of the i-th call of send
    const sink: Sink
    var buf: seq<byte>
    var cap: nat
    var closed: bool
    var deliveries: seq<Delivery>
    ghost var frames: seq<Frame>

    ghost predicate Delivered()
      reads this`frames, this`deliveries
    {
      deliveries == Deliveries(frames, accepts, sink)
    }

    ghost predicate Valid()
      reads this
    {
      && Delivered()
      && |buf| <= cap <= MAX_LINE
      && (closed ==> buf == [] && cap == 0)
    }

    ghost function View(): Framer
      reads this
    {
      Framer(frames, buf)
    }

    constructor (accepts: nat -> bool, sink: Sink)
      ensures Valid() && !closed && View() == Framer([], []) && cap == 0
      ensures this.accepts == accepts && this.sink == sink
    {
      this.accepts, this.sink := accepts, sink;
      buf, cap, closed, deliveries, frames := [], 0, false, [], [];
    }

    method Write(p: seq<byte>) returns (n: nat, err: WriteError)
      requires Valid()
      modifies this
      ensures Valid() && closed == old(closed)
      ensures closed ==> err == ClosedPipe && n == 0 && View() == old(View()) && deliveries == old(deliveries)
      ensures !closed ==> err == NoError && n == |p| && View() == FeedAll(old(View()), p)
    {
      if closed {
        return 0, ClosedPipe;
      }
      var rest := p;
      while rest != []
        invariant Valid() && !closed
        invariant FeedAll(old(View()), p) == FeedAll(View(), rest)
        decreases |rest|, |buf|
      {
        if |buf| == MAX_LINE {
          FeedFull(View(), rest);
          var lineEnd := rest[0] == LF;
          FlushFull(lineEnd);
          if lineEnd {
            rest := rest[1..];
          }
        } else {
          rest := TakeChunk(rest);
        }
      }
      return |p|, NoError;
    }

    /** A full frame waits for the byte that tells a line end from a forced cut. */
    method FlushFull(lineEnd: bool)
      requires Valid() && !closed && |buf| == MAX_LINE
      modifies this
      ensures Valid() && !closed && View() == Framer(old(frames) + [Frame(old(buf), lineEnd)], [])
    {
      Emit(buf, lineEnd);
      buf := [];
    }

    /** Consume up to the next line feed, the end of the input or a full buffer. */
    method TakeChunk(p: seq<byte>) returns (rest: seq<byte>)
      requires Valid() && !closed && |buf| < MAX_LINE && p != []
      modifies this
      ensures Valid() && !closed && |rest| < |p|
      ensures FeedAll(old(View()), p) == FeedAll(View(), rest)
    {
      var limit := if |p| < MAX_LINE - |buf| then |p| else MAX_LINE - |buf|;
      var chunk := p[..limit];
      var i := IndexByte(chunk, LF);
      if i < |chunk| {
        assert chunk[..i] == p[..i];
        FeedLine(View(), p, i);
        EndLine(chunk[..i]);
        rest := p[i + 1..];
      } else {
        assert p == chunk + p[limit..] && chunk[..i] == chunk;
        FeedAllConcat(View(), chunk, p[limit..]);
        FeedQuiet(View(), chunk);
        Append(chunk);
        rest := p[limit..];
      }
    }

    /** Emits the line the buffer and part make up; a line that is all in part is not copied into the buffer. */
    method EndLine(part: seq<byte>)
      requires Valid() && !closed && |buf| + |part| <= MAX_LINE
      modifies this
      ensures Valid() && !closed && View() == Framer(old(frames) + [Frame(old(buf) + part, true)], [])
    {
      if buf == [] {
        assert buf + part == part;
        Emit(part, true);
      } else {
        Append(part);
        Emit(buf, true);
        buf := [];
      }
    }

    method Append(p: seq<byte>)
      requires Valid() && !closed && |buf| + |p| <= MAX_LINE
      modifies this`buf, this`cap
      ensures Valid() && buf == old(buf) + p
      ensures old(cap) <= cap && (cap == old(cap) <==> |old(buf)| + |p| <= old(cap))
    {
      var need := |buf| + |p|;
      if need > cap {
        var size := if 256 < 2 * cap then 2 * cap else 256;
        size := if size < need then need else size;
        size := if MAX_LINE < size then MAX_LINE else size;
        cap := size;
      }
      buf := buf + p;
    }

    method Emit(line: seq<byte>, lineEnd: bool)
      requires Delivered()
      modifies this`frames, this`deliveries
      ensures Delivered() && frames == old(frames) + [Frame(line, lineEnd)]
    {
      DeliveriesSnoc(frames, Frame(line, lineEnd), accepts, sink);
      frames := frames + [Frame(line, lineEnd)];
      var message := if lineEnd then TrimCR(line) else line;
      if message == [] {
        return;
      }
      var outcome := Lost;
      if accepts(|deliveries|) {
        outcome := Native(message);
      } else if sink.Sink? {
        outcome := Fallback(sink.prefix + line + [LF]);
      }
      deliveries := deliveries + [outcome];
    }

    method Close()
      requires Valid()
      modifies this
      ensures Valid() && closed && buf == [] && cap == 0
      ensures frames == if old(closed) then old(frames) else old(frames) + [Frame(old(buf), false)]
      ensures old(closed) ==> deliveries == old(deliveries)
    {
      if !closed {
        Emit(buf, false);
        buf, cap, closed := [], 0, true;
      }
    }
  }

  lemma ConcatFrom(pieces: seq<seq<byte>>, i: nat)
    requires i < |pieces|
    ensures Concat(pieces[i..]) == pieces[i] + Concat(pieces[i + 1..])
  {
    assert pieces[i..][1..] == pieces[i + 1..];
  }

  /** However the input is cut into writes, the frames are those of the whole input, and they rebuild it. */
  method WriteInPieces(pieces: seq<seq<byte>>, accepts: nat -> bool, sink: Sink)
    returns (w: Writer)
    ensures fresh(w) && w.Valid() && w.closed
    ensures var whole := FeedAll(Framer([], []), Concat(pieces));
            w.frames == whole.frames + [Frame(whole.buf, false)] && FramerOk(whole)
    ensures Rebuild(w.frames) == Concat(pieces)
    ensures w.deliveries == Deliveries(w.frames, accepts, sink)
  {
    w := new Writer(accepts, sink);
    ghost var start := w.View();
    for i := 0 to |pieces|
      invariant fresh(w) && w.Valid() && !w.closed
      invariant FeedAll(start, Concat(pieces)) == FeedAll(w.View(), Concat(pieces[i..]))
    {
      ConcatFrom(pieces, i);
      FeedAllConcat(w.View(), pieces[i], Concat(pieces[i + 1..]));
      var _, _ := w.Write(pieces[i]);
    }
    assert pieces[|pieces|..] == [];
    ghost var whole := w.View();
    w.Close();
    ClosedRebuilds(Concat(pieces), whole);
  }

  /** The framed input and the last, unterminated frame that closing adds rebuild the input. */
  lemma ClosedRebuilds(p: seq<byte>, whole: Framer)
    requires whole == FeedAll(Framer([], []), p)
    ensures FramerOk(whole) && Rebuild(whole.frames + [Frame(whole.buf, false)]) == p
  {
    FramesRebuildInput(Framer([], []), p);
    RebuildSnoc(whole.frames, Frame(whole.buf, false));
    assert Rebuild([]) + [] + p == p;
    assert Rebuild(whole.frames) + whole.buf + [] == Rebuild(whole.frames) + whole.buf;
  }
}

/** Sparse sources and the two-cursor comparison that guards every reference rewrite. */
module Sparse {

  newtype byte = x: int | 0 <= x < 256

  /** One logical byte position: absent, or present with a value. */
  datatype Cell = Hole | Present(b: byte)

  datatype Kind = HoleRun | ZeroRun | DataRun | OtherRun

  datatype ReadResult = Bytes(data: seq<byte>) | ReadError

  /** A run a source reports; readAt takes an offset relative to the run and a length. */
  datatype Run = Run(offset: nat, end: nat, kind: Kind, readAt: (nat, nat) -> ReadResult)

  datatype RunResult = Got(run: Run) | NoRun | RunError

  datatype Commitment = NoCommitment | Commitment(size: nat, digest: nat)

  /** cells is the content; runAt is how the source happens to cut and serve it. */
  datatype Source = Source(cells: seq<Cell>, runAt: nat -> RunResult, commitment: Commitment)

  const BUDGET: nat := 65536

  predicate WellCut(run: Run, offset: nat, size: nat) {
    run.offset == offset && offset < run.end <= size && run.kind != OtherRun
  }

  /** The run's kind and every complete read of it agree with the content. */
  ghost predicate Truthful(run: Run, cells: seq<Cell>)
    requires run.offset <= run.end <= |cells|
  {
    && (run.kind == HoleRun ==> forall i :: run.offset <= i < run.end ==> cells[i] == Hole)
    && (run.kind == ZeroRun ==> forall i :: run.offset <= i < run.end ==> cells[i] == Present(0))
    && (run.kind == DataRun ==>
          && (forall i :: run.offset <= i < run.end ==> cells[i].Present?)
          && (forall at: nat, n: nat ::
                run.offset + at + n <= run.end && run.readAt(at, n).Bytes? && |run.readAt(at, n).data| == n ==>
                  forall k :: 0 <= k < n ==> cells[run.offset + at + k] == Present(run.readAt(at, n).data[k])))
  }

  /** A source that may fail but never lies. */
  ghost predicate Honest(s: Source) {
    forall o: nat :: o < |s.cells| && s.runAt(o).Got? && WellCut(s.runAt(o).run, o, |s.cells|) ==>
      Truthful(s.runAt(o).run, s.cells)
  }

  /** An honest source that never fails. */
  ghost predicate FaultFree(s: Source) {
    && Honest(s)
    && forall o: nat :: o < |s.cells| ==>
         && s.runAt(o).Got? && WellCut(s.runAt(o).run, o, |s.cells|)
         && var run := s.runAt(o).run;
            forall at: nat, n: nat :: run.kind == DataRun && o + at + n <= run.end ==>
              run.readAt(at, n).Bytes? && |run.readAt(at, n).data| == n
  }

  predicate SameCommitment(a: Source, b: Source) {
    && a.commitment.Commitment? && b.commitment.Commitment?
    && a.commitment.size == |a.cells| && b.commitment.size == |b.cells|
    && a.commitment.digest == b.commitment.digest
  }

  /** The digest behind a commitment identifies the content. */
  ghost predicate CommitmentsSound(a: Source, b: Source) {
    SameCommitment(a, b) ==> a.cells == b.cells
  }

  datatype Verdict =
    | Same
    | Cancelled
    | SizeDiffers
    | LayoutDiffers(at: nat)
    | BytesDiffer(at: nat)
    | InvalidRun
    | SourceFailed

  // Fill one comparison buffer from a run: zeros are synthesized, data is read and must be complete.
  method Fill(run: Run, at: nat, n: nat) returns (r: ReadResult)
    ensures run.kind == ZeroRun ==> r == Bytes(seq(n, _ => 0))
    ensures run.kind != ZeroRun ==>
              r == if run.readAt(at, n).Bytes? && |run.readAt(at, n).data| == n then run.readAt(at, n) else ReadError
  {
    if run.kind == ZeroRun {
      return Bytes(seq(n, _ => 0));
    }
    var got := run.readAt(at, n);
    if got.ReadError? || |got.data| != n {
      return ReadError;
    }
    return got;
  }

  lemma FilledIsContent(run: Run, cells: seq<Cell>, at: nat, n: nat, data: seq<byte>)
    requires run.offset + at + n <= run.end <= |cells| && run.kind in {ZeroRun, DataRun} && Truthful(run, cells)
    requires run.kind == ZeroRun ==> data == seq(n, _ => 0)
    requires run.kind == DataRun ==> run.readAt(at, n) == Bytes(data)
    requires |data| == n
    ensures forall k :: 0 <= k < n ==> cells[run.offset + at + k] == Present(data[k])
  {
  }

  /** Compare the part of two present runs both cover. */
  method ComparePresent(a: Source, b: Source, arun: Run, brun: Run, end: nat) returns (r: Verdict)
    requires |a.cells| == |b.cells| && arun.offset == brun.offset < end
    requires end <= arun.end <= |a.cells| && end <= brun.end <= |b.cells|
    requires arun.kind in {ZeroRun, DataRun} && brun.kind in {ZeroRun, DataRun}
    ensures r in {Same, SourceFailed} || (r.BytesDiffer? && arun.offset <= r.at < end)
    ensures Truthful(arun, a.cells) && Truthful(brun, b.cells) && r == Same ==>
              a.cells[arun.offset..end] == b.cells[arun.offset..end]
    ensures Truthful(arun, a.cells) && Truthful(brun, b.cells) && r.BytesDiffer? ==>
              && a.cells[arun.offset..r.at] == b.cells[arun.offset..r.at]
              && exists k :: r.at <= k < end && k < r.at + BUDGET && a.cells[k] != b.cells[k]
    ensures r == SourceFailed ==>
              exists at: nat, n: nat :: arun.offset + at + n <= end && (ReadFails(arun, at, n) || ReadFails(brun, at, n))
  {
    var at := arun.offset;
    while at < end
      invariant arun.offset <= at <= end
      invariant Truthful(arun, a.cells) && Truthful(brun, b.cells) ==>
                  a.cells[arun.offset..at] == b.cells[arun.offset..at]
    {
      var n := if BUDGET < end - at then BUDGET else end - at;
      var rel := at - arun.offset;
      var l := Fill(arun, rel, n);
      if l.ReadError? {
        assert ReadFails(arun, rel, n);
        return SourceFailed;
      }
      var m := Fill(brun, rel, n);
      if m.ReadError? {
        assert ReadFails(brun, rel, n);
        return SourceFailed;
      }
      if Truthful(arun, a.cells) && Truthful(brun, b.cells) {
        FilledIsContent(arun, a.cells, rel, n, l.data);
        FilledIsContent(brun, b.cells, rel, n, m.data);
        ChunkDecides(a.cells, b.cells, arun.offset, at, l.data, m.data);
      }
      if l.data != m.data {
        return BytesDiffer(at);
      }
      at := at + n;
    }
    return Same;
  }

  ghost predicate ReadFails(run: Run, at: nat, n: nat) {
    run.kind != ZeroRun && (run.readAt(at, n).ReadError? || |run.readAt(at, n).data| != n)
  }

  /** Equal buffers extend the agreement; different ones point at a differing cell. */
  lemma ChunkDecides(x: seq<Cell>, y: seq<Cell>, from: nat, at: nat, l: seq<byte>, m: seq<byte>)
    requires from <= at && at + |l| <= |x| == |y| && |l| == |m|
    requires x[from..at] == y[from..at]
    requires forall k :: 0 <= k < |l| ==> x[at + k] == Present(l[k])
    requires forall k :: 0 <= k < |l| ==> y[at + k] == Present(m[k])
    ensures l == m ==> x[from..at + |l|] == y[from..at + |l|]
    ensures l != m ==> exists k :: at <= k < at + |l| && x[k] != y[k]
  {
    if l == m {
      forall i | from <= i < at + |l| ensures x[i] == y[i] {
        if i < at {
          assert x[from..at][i - from] == y[from..at][i - from];
        } else {
          var k := i - at;
          assert x[at + k] == Present(l[k]);
        }
      }
    } else {
      var k :| 0 <= k < |l| && l[k] != m[k];
      assert x[at + k] != y[at + k];
    }
  }

  /** compareSparseStreams; cancelled(i) is what the i-th look at the context finds. */
  method CompareSparseStreams(left: Source, right: Source, cancelled: nat -> bool) returns (r: Verdict)
    ensures r == SizeDiffers <==> !cancelled(0) && |left.cells| != |right.cells|
    ensures Honest(left) && Honest(right) && CommitmentsSound(left, right) ==>
              && (r == Same ==> left.cells == right.cells)
              && (r.LayoutDiffers? ==>
                    && r.at < |left.cells| == |right.cells|
                    && left.cells[..r.at] == right.cells[..r.at]
                    && left.cells[r.at].Hole? != right.cells[r.at].Hole?)
              && (r.BytesDiffer? ==>
                    && r.at < |left.cells| == |right.cells|
                    && left.cells[..r.at] == right.cells[..r.at]
                    && exists k :: r.at <= k < |left.cells| && k < r.at + BUDGET && left.cells[k] != right.cells[k])
    ensures FaultFree(left) && FaultFree(right) && CommitmentsSound(left, right) && (forall i :: !cancelled(i)) ==>
              (r == Same <==> left.cells == right.cells)
    ensures FaultFree(left) && FaultFree(right) ==> r != SourceFailed && r != InvalidRun
  {
    if cancelled(0) {
      return Cancelled;
    }
    if |left.cells| != |right.cells| {
      return SizeDiffers;
    }
    if SameCommitment(left, right) {
      return Same;
    }
    var offset, looks := 0, 1;
    while offset < |left.cells|
      invariant offset <= |left.cells|
      invariant Honest(left) && Honest(right) ==> left.cells[..offset] == right.cells[..offset]
    {
      if cancelled(looks) {
        return Cancelled;
      }
      looks := looks + 1;
      var l, m := left.runAt(offset), right.runAt(offset);
      if l.RunError? || m.RunError? {
        return SourceFailed;
      }
      if !l.Got? || !m.Got? || !WellCut(l.run, offset, |left.cells|) || !WellCut(m.run, offset, |left.cells|) {
        return InvalidRun;
      }
      if (l.run.kind == HoleRun) != (m.run.kind == HoleRun) {
        return LayoutDiffers(offset);
      }
      var end := if l.run.end < m.run.end then l.run.end else m.run.end;
      if l.run.kind != HoleRun {
        var v := ComparePresent(left, right, l.run, m.run, end);
        if v != Same {
          if Honest(left) && Honest(right) && v.BytesDiffer? {
            Joined(left.cells, right.cells, offset, v.at);
          }
          return v;
        }
      }
      if Honest(left) && Honest(right) {
        Joined(left.cells, right.cells, offset, end);
      }
      offset := end;
    }
    assert left.cells[..offset] == left.cells && right.cells[..offset] == right.cells;
    return Same;
  }

  lemma Joined(x: seq<Cell>, y: seq<Cell>, mid: nat, end: nat)
    requires mid <= end <= |x| == |y| && x[..mid] == y[..mid] && x[mid..end] == y[mid..end]
    ensures x[..end] == y[..end]
  {
    assert x[..end] == x[..mid] + x[mid..end];
    assert y[..end] == y[..mid] + y[mid..end];
  }
}

/** The interval-gated capture / detect / write loop that both scripts run: read a frame,
    run the detector on it when at least `Interval` has passed since the last detection,
    append one log row per detected box, write the frame (annotated if detected, as read
    otherwise), and stop at the first failed read, at the first ESC key, or when a detected
    class code has no name. */
module AnnotateLoop {
  import opened Detections

  /** `interval = 1`: the seconds that must pass between two detections. Fixed for a run. */
  const Interval: real := 1.0

  /** What one run of the loop consumes from its collaborators. */
  datatype Feed<!F> = Feed(
    start: real,                // `last_detection_time = time.time()` before the loop
    frames: seq<F>,             // the frames `cap.read()` yields before it reports no frame
    clock: nat -> real,         // `time.time()` read in iteration k
    esc: nat -> bool,           // `cv2.waitKey(1) == 27` at the end of iteration k
    detect: F -> Prediction<F>, // `modelo.predict` followed by `plot()`
    names: map<int, string>)    // `modelo.names`

  /** The reason the loop ended. */
  datatype Stop = EndOfStream | Escape | UnknownClass(code: int)

  /** The interval gate: detection is due iff `now - last >= Interval`. */
  predicate Due(now: real, last: real) {
    now - last >= Interval
  }

  /** `last_detection_time` when iteration `k` begins: it moves to the iteration's clock
      reading when the gate fires and stays put otherwise. */
  function LastAt<F>(f: Feed<F>, k: nat): real
    decreases k
  {
    if k == 0 then f.start
    else
      var last := LastAt(f, k - 1);
      if Due(f.clock(k - 1), last) then f.clock(k - 1) else last
  }

  /** Iteration `k` runs the detector. */
  predicate Fires<F>(f: Feed<F>, k: nat) {
    Due(f.clock(k), LastAt(f, k))
  }

  function PredictionAt<F>(f: Feed<F>, k: nat): Prediction<F>
    requires k < |f.frames|
  {
    f.detect(f.frames[k])
  }

  /** Iteration `k` fires and one of its boxes has a class code missing from `names`:
      the lookup raises and the script dies inside the iteration. */
  predicate Crashes<F>(f: Feed<F>, k: nat)
    requires k < |f.frames|
  {
    Fires(f, k) && !AllNamed(f.names, PredictionAt(f, k).boxes)
  }

  /** Iteration `k` is the last one the loop runs. */
  predicate Halts<F>(f: Feed<F>, k: nat)
    requires k < |f.frames|
  {
    Crashes(f, k) || f.esc(k)
  }

  /** The frame iteration `k` writes. */
  function Shown<F>(f: Feed<F>, k: nat): F
    requires k < |f.frames|
  {
    if Fires(f, k) then PredictionAt(f, k).plotted else f.frames[k]
  }

  /** The rows iteration `k` appends. */
  function RowsAt<F>(f: Feed<F>, k: nat): seq<Row>
    requires k < |f.frames|
  {
    if Fires(f, k) then RowsFor(f.names, PredictionAt(f, k).boxes, f.clock(k)) else []
  }

  /** The detection list after the first `k` iterations. */
  function LogUpTo<F>(f: Feed<F>, k: nat): seq<Row>
    requires k <= |f.frames|
  {
    if k == 0 then [] else LogUpTo(f, k - 1) + RowsAt(f, k - 1)
  }

  /** How many frames the loop reads when it has already read `k` of them without halting. */
  function ReadsFrom<F>(f: Feed<F>, k: nat): (r: nat)
    requires k <= |f.frames|
    ensures k <= r <= |f.frames|
    decreases |f.frames| - k
  {
    if k == |f.frames| then k
    else if Halts(f, k) then k + 1
    else ReadsFrom(f, k + 1)
  }

  /** From `k` on, the loop reads up to and including the first halting iteration, or to
      the end of the stream when none halts. */
  lemma {:induction false} ReadsFromMeaning<F>(f: Feed<F>, k: nat)
    requires k <= |f.frames|
    ensures forall i :: k <= i < ReadsFrom(f, k) - 1 ==> !Halts(f, i)
    ensures ReadsFrom(f, k) == |f.frames| || (k < ReadsFrom(f, k) && Halts(f, ReadsFrom(f, k) - 1))
    decreases |f.frames| - k
  {
    if k < |f.frames| && !Halts(f, k) {
      ReadsFromMeaning(f, k + 1);
    }
  }

  /** How many frames the loop reads: up to the first halting iteration, or all of them. */
  function ReadCount<F>(f: Feed<F>): nat {
    ReadsFrom(f, 0)
  }

  /** The class code whose lookup fails in a crashing iteration. */
  function MissingCode<F>(f: Feed<F>, k: nat): int
    requires k < |f.frames| && Crashes(f, k)
  {
    var boxes := PredictionAt(f, k).boxes;
    RowsForSpec(f.names, boxes, f.clock(k));
    ClassIndex(boxes[|RowsFor(f.names, boxes, f.clock(k))|].cls)
  }

  /** Why the loop stops when it has already read `k` frames without halting: the first
      halting iteration from `k` on decides, and running out of frames ends the stream. */
  function StopFrom<F>(f: Feed<F>, k: nat): (s: Stop)
    requires k <= |f.frames|
    ensures s.UnknownClass? ==> k < ReadsFrom(f, k)
    decreases |f.frames| - k
  {
    if k == |f.frames| then EndOfStream
    else if Crashes(f, k) then UnknownClass(MissingCode(f, k))
    else if f.esc(k) then Escape
    else StopFrom(f, k + 1)
  }

  /** The stop reason is the one the last iteration read gives: a crash or ESC there,
      and the end of the stream otherwise. */
  lemma {:induction false} StopFromMeaning<F>(f: Feed<F>, k: nat)
    requires k <= |f.frames|
    ensures StopFrom(f, k).EndOfStream? ==> ReadsFrom(f, k) == |f.frames| && (k < |f.frames| ==> !Halts(f, |f.frames| - 1))
    ensures StopFrom(f, k).Escape? ==> k < ReadsFrom(f, k) && f.esc(ReadsFrom(f, k) - 1) && !Crashes(f, ReadsFrom(f, k) - 1)
    ensures StopFrom(f, k).UnknownClass? ==> k < ReadsFrom(f, k) && Crashes(f, ReadsFrom(f, k) - 1)
                                              && StopFrom(f, k).code == MissingCode(f, ReadsFrom(f, k) - 1)
    decreases |f.frames| - k
  {
    if k < |f.frames| && !Halts(f, k) {
      StopFromMeaning(f, k + 1);
    }
  }

  function StopOf<F>(f: Feed<F>): Stop {
    StopFrom(f, 0)
  }

  /** How many frames reach the writer: every frame read, except the one whose iteration died. */
  function Done<F>(f: Feed<F>): (n: nat)
    ensures n <= |f.frames|
  {
    if StopOf(f).UnknownClass? then ReadCount(f) - 1 else ReadCount(f)
  }

  /** The frames written by the first `k` iterations: one per iteration, in read order. */
  function ShownUpTo<F>(f: Feed<F>, k: nat): (w: seq<F>)
    requires k <= |f.frames|
    ensures |w| == k && forall i :: 0 <= i < k ==> w[i] == Shown(f, i)
  {
    if k == 0 then [] else ShownUpTo(f, k - 1) + [Shown(f, k - 1)]
  }

  /** The output video: one frame per completed iteration. */
  function Output<F>(f: Feed<F>): seq<F> {
    ShownUpTo(f, Done(f))
  }

  /** One pass of the loop body on frame `k`: run the gate; when it fires, call the
      detector (recording `k` in the ghost trace `calls`), append the rows and move
      `last_detection_time`; write the frame; check for ESC. `halt` says why the loop ends
      here, if it does: a class code whose lookup failed kills the pass before the frame is
      written and before `last_detection_time` moves. */
  method Iterate<F>(f: Feed<F>, k: nat, written: seq<F>, log: seq<Row>, last: real, ghost calls: seq<nat>)
    returns (written': seq<F>, log': seq<Row>, last': real, halt: Option<Stop>, ghost calls': seq<nat>)
    requires k < |f.frames| && last == LastAt(f, k)
    requires written == ShownUpTo(f, k) && log == LogUpTo(f, k) && calls == FiredUpTo(f, k)
    ensures calls' == calls + (if Fires(f, k) then [k] else []) == FiredUpTo(f, k + 1)
    ensures log' == log + RowsAt(f, k) == LogUpTo(f, k + 1)
    ensures written' == if Crashes(f, k) then written else written + [Shown(f, k)]
    ensures !Crashes(f, k) ==> written' == ShownUpTo(f, k + 1)
    ensures last' == if Crashes(f, k) then last else LastAt(f, k + 1)
    ensures halt == if Crashes(f, k) then Some(UnknownClass(MissingCode(f, k)))
                    else if f.esc(k) then Some(Escape) else None
  {
    var frame := f.frames[k];
    var now := f.clock(k);
    var img;
    if now - last >= Interval {
      calls' := calls + [k];
      var p := f.detect(frame);
      var missing;
      log', missing := AppendRows(log, f.names, p.boxes, now);
      if missing.Some? {
        return written, log', last, Some(UnknownClass(missing.value)), calls';
      }
      img, last' := p.plotted, now;
    } else {
      img, log', last', calls' := frame, log, last, calls;
    }
    written' := written + [img];
    halt := if f.esc(k) then Some(Escape) else None;
  }

  /** The loop's exit in iteration `k`, from its invariant that no earlier iteration has
      moved the read count or the stop reason (see `FirstHalt` for the plain statement). */
  lemma HaltsAt<F>(f: Feed<F>, k: nat)
    requires k < |f.frames| && Halts(f, k)
    requires ReadsFrom(f, k) == ReadCount(f) && StopFrom(f, k) == StopOf(f)
    ensures ReadCount(f) == k + 1
    ensures StopOf(f) == if Crashes(f, k) then UnknownClass(MissingCode(f, k)) else Escape
    ensures Done(f) == if Crashes(f, k) then k else k + 1
  {
  }

  /** The loop's exit at the end of the stream, from the same invariant (see `NoHalt`). */
  lemma RunsOut<F>(f: Feed<F>)
    requires ReadsFrom(f, |f.frames|) == ReadCount(f) && StopFrom(f, |f.frames|) == StopOf(f)
    ensures ReadCount(f) == |f.frames| && StopOf(f) == EndOfStream && Done(f) == |f.frames|
  {
  }

  /** Iterations that do not halt change nothing about where and why the loop stops. */
  lemma {:induction false} NoHaltBefore<F>(f: Feed<F>, j: nat, k: nat)
    requires j <= k <= |f.frames|
    requires forall i :: j <= i < k ==> !Halts(f, i)
    ensures ReadsFrom(f, j) == ReadsFrom(f, k) && StopFrom(f, j) == StopFrom(f, k)
    decreases k - j
  {
    if j < k {
      assert !Halts(f, j);
      NoHaltBefore(f, j + 1, k);
    }
  }

  /** When iteration `k` is the first that halts, the loop has read `k + 1` frames, stops
      for the reason iteration `k` gives, and has written the frame of iteration `k` unless
      that iteration died. */
  lemma FirstHalt<F>(f: Feed<F>, k: nat)
    requires k < |f.frames| && Halts(f, k)
    requires forall i :: 0 <= i < k ==> !Halts(f, i)
    ensures ReadCount(f) == k + 1
    ensures StopOf(f) == if Crashes(f, k) then UnknownClass(MissingCode(f, k)) else Escape
    ensures Done(f) == if Crashes(f, k) then k else k + 1
  {
    NoHaltBefore(f, 0, k);
    HaltsAt(f, k);
  }

  /** When no iteration halts, the loop reads and writes every frame and ends at the end
      of the stream. */
  lemma NoHalt<F>(f: Feed<F>)
    requires forall i :: 0 <= i < |f.frames| ==> !Halts(f, i)
    ensures ReadCount(f) == |f.frames| && StopOf(f) == EndOfStream && Done(f) == |f.frames|
  {
    NoHaltBefore(f, 0, |f.frames|);
    RunsOut(f);
  }

  /** The loop itself: the frames it writes, the rows it appends, the final
      `last_detection_time`, and why it stopped; `calls` lists the iterations whose frame
      went to the detector. */
  method Annotate<F>(f: Feed<F>) returns (written: seq<F>, log: seq<Row>, last: real, stop: Stop, ghost calls: seq<nat>)
    ensures calls == FiredUpTo(f, ReadCount(f))
    ensures stop == StopOf(f)
    ensures written == Output(f)
    ensures log == LogUpTo(f, ReadCount(f))
    ensures last == LastAt(f, |written|)
  {
    written, log, last, calls := [], [], f.start, [];
    var k := 0;
    while k < |f.frames|
      invariant k <= |f.frames|
      invariant ReadsFrom(f, k) == ReadCount(f)
      invariant StopFrom(f, k) == StopOf(f)
      invariant last == LastAt(f, k)
      invariant log == LogUpTo(f, k)
      invariant written == ShownUpTo(f, k)
      invariant calls == FiredUpTo(f, k)
    {
      var halt;
      written, log, last, halt, calls := Iterate(f, k, written, log, last, calls);
      if halt.Some? {
        HaltsAt(f, k);
        stop := halt.value;
        return;
      }
      k := k + 1;
    }
    RunsOut(f);
    stop := EndOfStream;
  }

  // ---------------------------------------------------------------------------
  // The interval gate

  /** `last_detection_time` never falls below its initial reading. */
  lemma {:induction false} LastAtLeastStart<F>(f: Feed<F>, k: nat)
    ensures LastAt(f, k) >= f.start
  {
    if k > 0 {
      LastAtLeastStart(f, k - 1);
    }
  }

  /** `last_detection_time` never moves backwards. */
  lemma {:induction false} LastMonotone<F>(f: Feed<F>, i: nat, j: nat)
    requires i <= j
    ensures LastAt(f, i) <= LastAt(f, j)
  {
    if i < j {
      LastMonotone(f, i, j - 1);
    }
  }

  /** `last_detection_time` is the clock reading of the latest firing so far ... */
  lemma {:induction false} LastIsLatestFiring<F>(f: Feed<F>, i: nat, k: nat)
    requires i < k && Fires(f, i)
    requires forall m :: i < m < k ==> !Fires(f, m)
    ensures LastAt(f, k) == f.clock(i)
  {
    if k > i + 1 {
      assert !Fires(f, k - 1);
      LastIsLatestFiring(f, i, k - 1);
    }
  }

  /** ... or its initial reading when nothing has fired yet. */
  lemma {:induction false} LastBeforeAnyFiring<F>(f: Feed<F>, k: nat)
    requires forall m :: 0 <= m < k ==> !Fires(f, m)
    ensures LastAt(f, k) == f.start
  {
    if k > 0 {
      assert !Fires(f, k - 1);
      LastBeforeAnyFiring(f, k - 1);
    }
  }

  /** No detection happens before `Interval` has passed since the loop started. */
  lemma FirstFiringWaits<F>(f: Feed<F>, i: nat)
    requires Fires(f, i)
    ensures f.clock(i) - f.start >= Interval
  {
    LastAtLeastStart(f, i);
  }

  /** Two detections are always at least `Interval` apart. */
  lemma FiringsApart<F>(f: Feed<F>, i: nat, j: nat)
    requires i < j && Fires(f, i) && Fires(f, j)
    ensures f.clock(j) - f.clock(i) >= Interval
  {
    assert LastAt(f, i + 1) == f.clock(i);
    LastMonotone(f, i + 1, j);
  }

  /** The iterations among the first `k` that fire, in order. */
  function FiredUpTo<F>(f: Feed<F>, k: nat): seq<nat> {
    if k == 0 then [] else FiredUpTo(f, k - 1) + (if Fires(f, k - 1) then [k - 1] else [])
  }

  /** The detector gets exactly the frames of the firing iterations, each once, in
      iteration order. */
  lemma {:induction false} FiredUpToSpec<F>(f: Feed<F>, k: nat)
    ensures forall i: nat :: i in FiredUpTo(f, k) <==> i < k && Fires(f, i)
    ensures forall a :: 0 <= a < |FiredUpTo(f, k)| ==> FiredUpTo(f, k)[a] < k
    ensures forall a, b :: 0 <= a < b < |FiredUpTo(f, k)| ==> FiredUpTo(f, k)[a] < FiredUpTo(f, k)[b]
  {
    if k > 0 {
      FiredUpToSpec(f, k - 1);
    }
  }

  /** The gate bounds the detection rate: `n` firings need `n * Interval` of clock time
      after the start. */
  lemma {:induction false} FiringBound<F>(f: Feed<F>, k: nat)
    ensures |FiredUpTo(f, k)| as real * Interval <= LastAt(f, k) - f.start
  {
    if k > 0 {
      FiringBound(f, k - 1);
    }
  }

  // ---------------------------------------------------------------------------
  // The detection list

  /** Rows are only ever appended: the list after `i` iterations is a prefix of the list
      after any later iteration. */
  lemma {:induction false} LogAppendOnly<F>(f: Feed<F>, i: nat, j: nat)
    requires i <= j <= |f.frames|
    ensures |LogUpTo(f, i)| <= |LogUpTo(f, j)| && LogUpTo(f, i) == LogUpTo(f, j)[..|LogUpTo(f, i)|]
  {
    if i < j {
      LogAppendOnly(f, i, j - 1);
    }
  }

  /** The rows' clock readings never decrease down the list, and none is later than the
      current `last_detection_time`. */
  lemma {:induction false} LogTimesOrdered<F>(f: Feed<F>, k: nat)
    requires k <= |f.frames|
    ensures forall a :: 0 <= a < |LogUpTo(f, k)| ==> LogUpTo(f, k)[a].at <= LastAt(f, k)
    ensures forall a, b :: 0 <= a <= b < |LogUpTo(f, k)| ==> LogUpTo(f, k)[a].at <= LogUpTo(f, k)[b].at
  {
    if k > 0 {
      LogTimesOrdered(f, k - 1);
      var old_ := LogUpTo(f, k - 1);
      var rows := RowsAt(f, k - 1);
      if Fires(f, k - 1) {
        RowsForSpec(f.names, PredictionAt(f, k - 1).boxes, f.clock(k - 1));
      }
      assert LogUpTo(f, k) == old_ + rows;
      forall a | 0 <= a < |rows| ensures rows[a].at == LastAt(f, k) {
      }
    }
  }

  /** With a clock that never gets `Interval` past the start, the gate never fires: every
      frame is written as read and the list stays empty, as in a plain recording. */
  lemma {:induction false} QuietGate<F>(f: Feed<F>, k: nat)
    requires forall i :: 0 <= i < k ==> f.clock(i) - f.start < Interval
    ensures LastAt(f, k) == f.start
    ensures forall i :: 0 <= i < k ==> !Fires(f, i)
    ensures k <= |f.frames| ==> LogUpTo(f, k) == []
  {
    if k > 0 {
      QuietGate(f, k - 1);
    }
  }
}

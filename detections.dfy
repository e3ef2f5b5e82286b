/** What the detector reports for one frame, and how each reported box becomes one row of
    the detection log (the list `detecoes` that is later handed to a DataFrame). */
module Detections {

  datatype Option<T> = None | Some(value: T)

  /** One detected box as the detector reports it: the class code is a float (`cls[0]`),
      then the confidence and the corners `xyxy[0]`. */
  datatype Box = Box(cls: real, conf: real, xmin: real, ymin: real, xmax: real, ymax: real)

  /** What one call of the detector yields: the frame with the boxes drawn on it (`plot()`)
      and the boxes, in the detector's order. The detector itself is a parameter of the loop. */
  datatype Prediction<F> = Prediction(plotted: F, boxes: seq<Box>)

  /** One log row. `at` is the clock reading of the iteration that produced it. */
  datatype Row = Row(className: string, confidence: real, at: real,
                     xmin: real, ymin: real, xmax: real, ymax: real)

  /** The seven column headers the log is exported under. */
  const Columns: seq<string> := ["Classe", "Confiança", "Data e Hora", "Xmin", "Ymin", "Xmax", "Ymax"]

  /** One cell of an exported row. */
  datatype Cell = Text(text: string) | Number(x: real) | Moment(t: real)

  /** Python's `int(x)` on a float: truncation toward zero. */
  function ClassIndex(cls: real): (i: int)
    ensures cls >= 0.0 ==> i as real <= cls < i as real + 1.0
    ensures cls < 0.0 ==> i as real - 1.0 < cls <= i as real
  {
    if cls >= 0.0 then cls.Floor else -((-cls).Floor)
  }

  /** The class of box `b` has a name in the model's `names` table. */
  predicate Named(names: map<int, string>, b: Box) {
    ClassIndex(b.cls) in names
  }

  predicate AllNamed(names: map<int, string>, boxes: seq<Box>) {
    forall j :: 0 <= j < |boxes| ==> Named(names, boxes[j])
  }

  /** The row recorded for box `b`, whose class is named, at clock reading `at`. */
  function RowOf(names: map<int, string>, b: Box, at: real): Row
    requires Named(names, b)
  {
    Row(names[ClassIndex(b.cls)], b.conf, at, b.xmin, b.ymin, b.xmax, b.ymax)
  }

  /** The rows one firing appends: one per box, in box order, up to the first box whose
      class has no name (where the lookup fails and the script stops). */
  function RowsFor(names: map<int, string>, boxes: seq<Box>, at: real): (rows: seq<Row>)
    ensures |rows| <= |boxes|
  {
    if boxes == [] || !Named(names, boxes[0]) then []
    else [RowOf(names, boxes[0], at)] + RowsFor(names, boxes[1..], at)
  }

  /** `RowsFor` is the longest prefix of the boxes whose classes are named, row for box:
      every box gives its row iff every class is named, and otherwise the box right after
      the rows is the first with an unnamed class. */
  lemma {:induction false} RowsForSpec(names: map<int, string>, boxes: seq<Box>, at: real)
    ensures var rows := RowsFor(names, boxes, at);
            && (forall j :: 0 <= j < |rows| ==> Named(names, boxes[j]) && rows[j] == RowOf(names, boxes[j], at))
            && (|rows| == |boxes| <==> AllNamed(names, boxes))
            && (|rows| < |boxes| ==> !Named(names, boxes[|rows|]))
  {
    if boxes != [] && Named(names, boxes[0]) {
      RowsForSpec(names, boxes[1..], at);
      if AllNamed(names, boxes) {
        assert AllNamed(names, boxes[1..]) by {
          forall j | 0 <= j < |boxes| - 1 ensures Named(names, boxes[1..][j]) {
            assert boxes[1..][j] == boxes[j + 1];
          }
        }
      }
    }
  }

  /** The inner `for result in results[0].boxes` loop: appends the row of every box to `log`,
      and stops at the first class code missing from `names` (the `KeyError`), which it
      reports. */
  method AppendRows(log: seq<Row>, names: map<int, string>, boxes: seq<Box>, at: real)
    returns (log': seq<Row>, missing: Option<int>)
    ensures log' == log + RowsFor(names, boxes, at)
    ensures missing.None? <==> AllNamed(names, boxes)
    ensures missing.Some? ==> |RowsFor(names, boxes, at)| < |boxes| && missing.value !in names
                              && missing.value == ClassIndex(boxes[|RowsFor(names, boxes, at)|].cls)
  {
    RowsForSpec(names, boxes, at);
    log' := log;
    var j := 0;
    while j < |boxes|
      invariant 0 <= j <= |boxes|
      invariant forall i :: 0 <= i < j ==> Named(names, boxes[i])
      invariant |log'| == |log| + j && log'[..|log|] == log
      invariant forall i :: 0 <= i < j ==> log'[|log| + i] == RowOf(names, boxes[i], at)
    {
      var code := ClassIndex(boxes[j].cls);
      if code !in names {
        missing := Some(code);
        assert |RowsFor(names, boxes, at)| == j;
        return;
      }
      log' := log' + [RowOf(names, boxes[j], at)];
      j := j + 1;
    }
    missing := None;
  }

  /** The list built for one row: `[label, confidence, timestamp, xmin, ymin, xmax, ymax]`. */
  function Cells(r: Row): (c: seq<Cell>)
    ensures |c| == |Columns|
  {
    [Text(r.className), Number(r.confidence), Moment(r.at), Number(r.xmin), Number(r.ymin), Number(r.xmax), Number(r.ymax)]
  }

  /** Reading a row back from its seven cells: the inverse of `Cells`. */
  function ParseRow(c: seq<Cell>): Option<Row> {
    if |c| == |Columns| && c[0].Text? && c[1].Number? && c[2].Moment?
       && c[3].Number? && c[4].Number? && c[5].Number? && c[6].Number?
    then Some(Row(c[0].text, c[1].x, c[2].t, c[3].x, c[4].x, c[5].x, c[6].x))
    else None
  }

  /** The row layout loses nothing: a row can be read back from its cells, and any
      well-formed list of seven cells is the layout of exactly one row. */
  lemma CellsRoundTrip(r: Row, c: seq<Cell>)
    ensures ParseRow(Cells(r)) == Some(r)
    ensures ParseRow(c) == Some(r) ==> Cells(r) == c
  {
  }

  /** The table handed to the export, row by row in log order, under `Columns`. */
  function Table(log: seq<Row>): (t: seq<seq<Cell>>)
    ensures |t| == |log|
    ensures forall k :: 0 <= k < |t| ==> |t[k]| == |Columns| && ParseRow(t[k]) == Some(log[k])
  {
    seq(|log|, k requires 0 <= k < |log| => Cells(log[k]))
  }
}

# Drone video detection scripts — a Dafny model

Two Python scripts run an object detector over video. `COD_processamento_video.py` asks for
a video file, checks that it exists and opens, and runs the **interval-gated detection
loop** over it. The loop reads a frame and checks the clock. If at least one second has
passed since the last detection, it sends the frame to the detector, appends one row per
detected box to the detection list and moves `last_detection_time`; otherwise it keeps the
frame as read. It writes the frame and stops at the end of the stream or on ESC. At the
end the list is exported as a seven-column table named after the run's timestamp.
`COD_voo_drone_ia.py` first asks for a mode (`webcam` or `drone`). In drone mode it starts
the MonaServer relay and opens `rtmp://<ip>:1935/`. It records the live feed untouched,
reopens that recording, runs the same gated loop over it, exports the table and finally
stops the relay.

The model:

- `text.dfy` (`Text`): Python's `str.strip()` with Python's whitespace set, and `lower()`.
- `detections.dfy` (`Detections`): boxes, the detector's prediction, log rows, the class
  name lookup `names[int(cls)]`, the per-box append loop and the table layout.
- `annotate_loop.dfy` (`AnnotateLoop`): the gated loop as a method, `Annotate`. It is proved
  against index-wise specification functions: `LastAt`, `Fires`, `Shown`, `LogUpTo`,
  `ReadsFrom`, `StopFrom` and `Output`. Lemmas cover the gate and the log.
- `media.dfy` (`Media`): capture sources, writers, the run's visible actions and the three
  timestamped file names.
- `process_video.dfy` (`ProcessVideo`): the file-processing script as one method.
- `drone_flight.dfy` (`DroneFlight`): mode selection, the stream URL, the recording pass,
  the relay guard and the drone script as methods.

Collaborators are parameters:

- Frames are a type parameter.
- The detector is a function from a frame to its annotated copy and its boxes.
- `time.time()` is a clock reading per iteration (`nat -> real`), plus a reading before the
  loop.
- ESC is a boolean per iteration.
- `modelo.names` is a map from class code to name.
- The user's replies, `os.path.exists`, `isOpened()` and the capture properties are fields
  of an environment record.
- Each script returns the list of its visible actions (model load, relay start, capture
  opens, writer creations, table export, relay termination) and how it ended.

A class code missing from `names` raises `KeyError` in the source. The model treats it as a
crash of the iteration:
- the rows of the earlier boxes have been appended;
- the frame is not written;
- no table is exported;
- the relay is not stopped.

The drone script does not terminate the relay when the capture fails to open
(COD_voo_drone_ia.py:42-44) or when the detection loop crashes; the model follows the code.

## Model

| member | source | states |
|---|---|---|
| Text.StripSlice | COD_processamento_video.py:10 | `strip()` keeps a slice of its input; only whitespace lies before and after it, and the slice neither starts nor ends with whitespace |
| Text.StripPadded | COD_voo_drone_ia.py:15 | any word framed by whitespace alone, and not starting or ending with whitespace, is exactly what `strip()` returns |
| Text.StripIdempotent | COD_voo_drone_ia.py:34 | stripping twice gives the same as stripping once |
| Text.TrimStartSlice | COD_processamento_video.py:10 | the leading cut is a run of whitespace, and all of it |
| Text.TrimEndSlice | COD_processamento_video.py:10 | the trailing cut is a run of whitespace, and all of it |
| Text.Lower | COD_voo_drone_ia.py:15 | `lower()` keeps the length and maps each character through its lower-case form |
| Detections.ClassIndex | COD_processamento_video.py:71 | `int()` of a float class code truncates toward zero, for both signs |
| Detections.RowsForSpec | COD_processamento_video.py:63-75 | one row per box in box order, up to the first box whose class has no name; all boxes give rows iff every class is named |
| Detections.AppendRows | COD_processamento_video.py:63-75 | the box loop appends exactly `RowsFor` after the existing rows, and reports the missing class code iff some box's class is unnamed |
| Detections.CellsRoundTrip | COD_processamento_video.py:75 | a row's seven cells `[name, confidence, time, xmin, ymin, xmax, ymax]` determine the row, and it can be read back from them |
| Detections.Table | COD_processamento_video.py:99 | the exported table has one seven-column line per log row, in log order, each reading back as its row |
| AnnotateLoop.ReadsFrom | COD_processamento_video.py:46-50 | the number of frames read lies between the frames already read and the stream's length |
| AnnotateLoop.ReadsFromMeaning | COD_processamento_video.py:46-91 | reading goes on through every non-halting iteration and stops right after the first halting one (ESC or crash), or at the end of the stream |
| AnnotateLoop.StopFrom | COD_processamento_video.py:71 | a crash is always in an iteration that was read |
| AnnotateLoop.StopFromMeaning | COD_processamento_video.py:49-50 | the stop reason is the one the last read iteration gives: ESC there, a crash there with the failing code, or the end of the stream with no halt |
| AnnotateLoop.ShownUpTo | COD_processamento_video.py:84 | one written frame per iteration, in read order, each being that iteration's shown frame |
| AnnotateLoop.Iterate | COD_processamento_video.py:47-91 | one pass: the detector is called (and the pass recorded in the trace) iff `now - last >= interval`; rows are appended only then, after the existing ones; the frame is written as read when the gate does not fire; `last` moves to `now` only on firing; a missing class stops the pass before the write and before `last` moves; ESC ends the loop after the write |
| AnnotateLoop.NoHaltBefore | COD_processamento_video.py:46-91 | iterations that neither crash nor see ESC leave the number of frames read and the stop reason unchanged |
| AnnotateLoop.FirstHalt | COD_processamento_video.py:89-91 | when iteration `k` is the first to halt, `k + 1` frames are read, the stop reason is `k`'s, and frame `k` is written unless `k` crashed |
| AnnotateLoop.NoHalt | COD_processamento_video.py:49-50 | when no iteration halts, every frame is read and written and the loop ends at the end of the stream |
| AnnotateLoop.Annotate | COD_processamento_video.py:39-91 | the loop writes exactly `Output` (every completed iteration's frame, in order), builds `LogUpTo` of the frames read, ends with `last_detection_time` at `LastAt`, stops for `StopOf`, and hands to the detector exactly the frames of the iterations in `FiredUpTo` |
| AnnotateLoop.LastAtLeastStart | COD_processamento_video.py:39 | `last_detection_time` never falls below its initial reading |
| AnnotateLoop.LastMonotone | COD_processamento_video.py:78 | `last_detection_time` never decreases |
| AnnotateLoop.LastIsLatestFiring | COD_processamento_video.py:55-78 | `last_detection_time` is the clock reading of the latest firing so far |
| AnnotateLoop.LastBeforeAnyFiring | COD_processamento_video.py:39 | before any firing `last_detection_time` is its initial reading |
| AnnotateLoop.FirstFiringWaits | COD_processamento_video.py:39-55 | no detection before `interval` has passed since the loop began |
| AnnotateLoop.FiringsApart | COD_processamento_video.py:55 | any two detections are at least `interval` apart on the clock |
| AnnotateLoop.FiredUpToSpec | COD_processamento_video.py:55-57 | the iterations `Annotate` hands to the detector are exactly the firing ones among those read, each once, in increasing order |
| AnnotateLoop.FiringBound | COD_processamento_video.py:40 | `n` detections need at least `n * interval` of clock time after the start |
| AnnotateLoop.LogAppendOnly | COD_processamento_video.py:43 | the log after `i` iterations is a prefix of the log after any later iteration |
| AnnotateLoop.LogTimesOrdered | COD_processamento_video.py:74-78 | row times never decrease down the log, and none is later than the latest firing's clock reading, which the model uses as the row time |
| AnnotateLoop.QuietGate | COD_processamento_video.py:55 | a clock that stays within `interval` of the start never fires the gate: `last` stays put and the log is empty |
| Media.NamesDetermineStamp | COD_voo_drone_ia.py:53-54 | each of the three file names determines the timestamp it was built from |
| Media.NamesDistinct | COD_voo_drone_ia.py:90-93 | the recording, its annotated copy and the table are three different files |
| ProcessVideo.Run | COD_processamento_video.py:9-105 | missing input: exit before anything is loaded; capture not opening: exit after the model load and open, before a writer; otherwise the writer is `captura_video_{stamp}.mp4`, the video is the loop's output, and the table is exported under the seven column headers unless the loop crashed |
| DroneFlight.NormalizeSpells | COD_voo_drone_ia.py:15 | the normalized reply equals a word iff the user typed it in any ASCII case with only whitespace around it |
| DroneFlight.SelectModeSpelling | COD_voo_drone_ia.py:15-39 | `webcam` and `drone`, in any ASCII case and framed by whitespace, select their modes; every other reply is refused |
| DroneFlight.StreamUrlRoundTrip | COD_voo_drone_ia.py:11-12 | the host can be read back from `rtmp://{host}:1935/`, which is the only URL of that shape naming it |
| DroneFlight.RecordFrom | COD_voo_drone_ia.py:63-78 | the recording pass reads through to the first frame followed by ESC, or to the end of the stream |
| DroneFlight.Record | COD_voo_drone_ia.py:63-78 | the recording pass writes every frame read, unchanged and in order |
| DroneFlight.QuietReadsAsRecording | COD_voo_drone_ia.py:63-78 | a detection loop that never fires reads the same frames as the recording pass and never crashes |
| DroneFlight.QuietLoopRecords | COD_voo_drone_ia.py:63-78 | the recording pass is the detection loop on a clock that never fires: same frames written, empty log, no crash |
| DroneFlight.RelayStoppedIffDrone | COD_voo_drone_ia.py:156-161 | once the mode prompt is passed, termination is attempted, once, iff the user typed `drone` (any ASCII case, whitespace around it); its failure is recorded and the script goes on |
| DroneFlight.Connect | COD_voo_drone_ia.py:15-44 | invalid reply or missing relay: nothing happens; otherwise the relay starts (drone only), the mode's source is opened, and the script goes on iff it opens |
| DroneFlight.RecordThenAnnotate | COD_voo_drone_ia.py:46-151 | the recording is the recording pass's output; the annotated copy is the loop's output on it as read back; the writers and the reopened file follow the timestamped names; the table is exported under the seven column headers unless the loop crashed |
| DroneFlight.Run | COD_voo_drone_ia.py:1-164 | the script's actions and exit for every path: invalid reply, missing relay, source not opening, crash, and finish with the table export and the relay stopped in drone mode |

## Left out

- Pixels, OpenCV capture and writer internals, `imshow`, `waitKey` timing and
  `destroyAllWindows`: frames are opaque values, and ESC is a boolean per iteration.
- The detector's internals (`YOLO`, `predict`, `plot`): an uninterpreted function.
- pandas and the Excel file: only the column headers and the table of cells handed to the
  export are modelled.
- `datetime.strftime`: the run timestamp is an opaque string. A row's "Data e Hora" is the
  iteration's clock reading. The source re-reads the wall clock for each box and formats it
  to seconds; that per-box reading and the formatting are left out.
- Floating-point rounding of `time.time()`: readings are exact reals.
- `int()` of the capture's width, height and frame rate: these are taken as integers.
- `subprocess.Popen`, `time.sleep(5)`, the relay's Windows path, `print` and `sys.exit`:
  the relay is a start/terminate pair of actions and the exits are the `Exit` values.
- The frames of the partly written video when a crash kills the script: the model reports
  only the frames written before the crash.
- The video codec: frames read back from the recording are given by a parameter
  `readBack`, and a failed reopen yields no frames (the source does not check it).
- Text.Lower: maps only ASCII letters. Python's `lower()` also lowers other letters. No
  non-ASCII character lowers to a letter of `webcam` or `drone` except `İ` (U+0130), which
  Python lowers to two characters starting with `i`, and the Kelvin sign (U+212A), which
  lowers to `k`. Neither letter appears in those words, so mode selection is unaffected.
- How many detections a real video yields depends on the detector's latency; the model
  bounds it (`FiringBound`) but does not predict it.

/** The record-then-annotate script: choose the webcam or the drone's RTMP stream (starting
    the relay server for the latter), record the live feed untouched, then run the
    interval-gated detection loop over the recording, export the log and stop the relay. */
module DroneFlight {
  import opened Text
  import opened Detections
  import opened Media
  import opened AnnotateLoop

  // ---------------------------------------------------------------------------
  // Choosing the source

  datatype Mode = Webcam | Drone

  /** The reply to the mode prompt as the script compares it: `strip().lower()`. */
  function Normalize(answer: string): string {
    Lower(Strip(answer))
  }

  function SelectMode(answer: string): Option<Mode> {
    var entry := Normalize(answer);
    if entry == "webcam" then Some(Webcam)
    else if entry == "drone" then Some(Drone)
    else None
  }

  /** The reply, stripped, is always a word that whitespace surrounds in it. */
  lemma StrippedIsPadded(answer: string)
    ensures PaddedBy(answer, Strip(answer))
  {
    var w := Strip(answer);
    StripSlice(answer);
    var i :| 0 <= i <= |answer| - |w| && w == answer[i..i + |w|]
             && AllSpace(answer[..i]) && AllSpace(answer[i + |w|..]);
    assert 0 <= i <= i + |w| <= |answer|;
  }

  /** The normalized reply is a given word exactly when the user typed that word, in any
      mix of upper and lower case, with nothing but whitespace around it. */
  lemma NormalizeSpells(answer: string, word: string)
    requires word != [] && !IsSpace(word[0]) && !IsSpace(word[|word| - 1])
    ensures Normalize(answer) == word <==> exists w :: PaddedBy(answer, w) && Lower(w) == word
  {
    if Normalize(answer) == word {
      StrippedIsPadded(answer);
    }
    if w :| PaddedBy(answer, w) && Lower(w) == word {
      LowerKeepsSpace(w[0]);
      LowerKeepsSpace(w[|w| - 1]);
      StripPadded(answer, w);
    }
  }

  /** The mode is the webcam or the drone exactly when the user typed that word (any case,
      surrounded by whitespace only); every other reply is refused. */
  lemma SelectModeSpelling(answer: string)
    ensures SelectMode(answer) == Some(Webcam) <==> exists w :: PaddedBy(answer, w) && Lower(w) == "webcam"
    ensures SelectMode(answer) == Some(Drone) <==> exists w :: PaddedBy(answer, w) && Lower(w) == "drone"
    ensures SelectMode(answer) == None <==>
              !exists w :: PaddedBy(answer, w) && (Lower(w) == "webcam" || Lower(w) == "drone")
  {
    NormalizeSpells(answer, "webcam");
    NormalizeSpells(answer, "drone");
  }

  const Scheme: string := "rtmp://"
  const PortPath: string := ":1935/"

  /** `constante1 + ip_computador + constante2`. */
  function StreamUrl(host: string): string {
    Scheme + host + PortPath
  }

  /** The host named by an RTMP URL of that shape, if it has that shape. */
  function HostOf(url: string): Option<string> {
    if |url| >= |Scheme| + |PortPath| && url[..|Scheme|] == Scheme && url[|url| - |PortPath|..] == PortPath
    then Some(url[|Scheme|..|url| - |PortPath|])
    else None
  }

  /** The stream URL carries the host typed by the user and nothing else: the host can be
      read back from it, and it is the only URL of that shape naming that host. */
  lemma StreamUrlRoundTrip(host: string, url: string)
    ensures HostOf(StreamUrl(host)) == Some(host)
    ensures HostOf(url) == Some(host) ==> StreamUrl(host) == url
  {
  }

  /** What the capture is opened on in each mode. */
  function SourceFor(mode: Mode, hostAnswer: string): Source {
    match mode
    case Webcam => Device(0)
    case Drone => Stream(StreamUrl(Strip(hostAnswer)))
  }

  // ---------------------------------------------------------------------------
  // The recording pass

  /** How many frames the recording pass reads when it has read `k` without an ESC. */
  function RecordFrom<F>(frames: seq<F>, esc: nat -> bool, k: nat): (r: nat)
    requires k <= |frames|
    ensures k <= r <= |frames|
    ensures forall i :: k <= i < r - 1 ==> !esc(i)
    ensures r == |frames| || (k < r && esc(r - 1))
    decreases |frames| - k
  {
    if k == |frames| then k else if esc(k) then k + 1 else RecordFrom(frames, esc, k + 1)
  }

  /** The recording: the frames read up to and including the first one followed by ESC. */
  function Recorded<F>(frames: seq<F>, esc: nat -> bool): seq<F> {
    frames[..RecordFrom(frames, esc, 0)]
  }

  /** The first loop: every frame read is written unchanged, in order, until the stream
      ends or ESC is pressed; there is no detector and no detection list here. */
  method Record<F>(frames: seq<F>, esc: nat -> bool) returns (written: seq<F>)
    ensures written == Recorded(frames, esc)
  {
    written := [];
    var k := 0;
    while k < |frames|
      invariant k <= |frames|
      invariant forall i :: 0 <= i < k ==> !esc(i)
      invariant written == frames[..k]
    {
      written := written + [frames[k]];
      if esc(k) {
        assert RecordFrom(frames, esc, 0) == k + 1;
        return;
      }
      k := k + 1;
    }
  }

  /** Where the detection loop and the recording read the same frames, they stop at the
      same frame as long as the gate never fires. */
  lemma {:induction false} QuietReadsAsRecording<F>(f: Feed<F>, k: nat)
    requires k <= |f.frames|
    requires forall i :: 0 <= i < |f.frames| ==> !Fires(f, i)
    ensures ReadsFrom(f, k) == RecordFrom(f.frames, f.esc, k)
    ensures !StopFrom(f, k).UnknownClass?
    decreases |f.frames| - k
  {
    if k < |f.frames| && !f.esc(k) {
      QuietReadsAsRecording(f, k + 1);
    }
  }

  /** The recording pass is the detection loop with a gate that never fires: on a clock
      that stays within `Interval` of the start the loop writes exactly the recording and
      logs nothing. */
  lemma QuietLoopRecords<F>(f: Feed<F>)
    requires forall i :: 0 <= i < |f.frames| ==> f.clock(i) - f.start < Interval
    ensures Output(f) == Recorded(f.frames, f.esc)
    ensures LogUpTo(f, ReadCount(f)) == []
    ensures !StopOf(f).UnknownClass?
  {
    QuietGate(f, |f.frames|);
    QuietReadsAsRecording(f, 0);
    LogAppendOnly(f, ReadCount(f), |f.frames|);
    var out := Output(f);
    var rec := Recorded(f.frames, f.esc);
    assert |out| == |rec|;
    forall i | 0 <= i < |out| ensures out[i] == rec[i] {
      assert !Fires(f, i);
    }
  }

  // ---------------------------------------------------------------------------
  // Stopping the relay

  /** The final guard: the relay is stopped only in drone mode and only if it was started;
      a failing `terminate()` is reported and the script goes on to exit normally. */
  function RelayCleanup(entry: string, started: bool, terminates: bool): (e: seq<Effect>)
    ensures |e| <= 1
    ensures e != [] <==> entry == "drone" && started
    ensures e != [] ==> e[0] == TerminateRelay(terminates)
  {
    if entry == "drone" && started then [TerminateRelay(terminates)] else []
  }

  /** Once the script has got past the mode prompt, the final guard sees the relay started
      exactly in drone mode (the relay is started on the only path that reaches the guard in
      that mode), so termination is attempted iff the user typed `drone`. */
  lemma RelayStoppedIffDrone(answer: string, terminates: bool)
    requires SelectMode(answer).Some?
    ensures var e := RelayCleanup(Normalize(answer), SelectMode(answer) == Some(Drone), terminates);
            && (e != [] <==> exists w :: PaddedBy(answer, w) && Lower(w) == "drone")
            && (e != [] ==> e == [TerminateRelay(terminates)])
  {
    SelectModeSpelling(answer);
  }

  // ---------------------------------------------------------------------------
  // The script

  /** How the script ends. */
  datatype Exit = InvalidChoice | RelayMissing | CannotOpen | Finished | Crashed(code: int)

  /** What the script gets from its surroundings. */
  datatype Env<!F> = Env(
    answer: string,                     // the reply to the mode prompt
    relayInstalled: bool,               // `os.path.exists(monaserver_path)`
    hostAnswer: string,                 // the reply to the IP prompt (drone mode)
    opens: bool,                        // `cap.isOpened()` on the live source
    width: int, height: int, fps: int,  // the live source's frame size and rate
    stamp: string,                      // `strftime("%Y%m%d_%H%M%S")` when recording starts
    live: seq<F>,                       // the frames the live source yields
    liveEsc: nat -> bool,               // ESC after frame k of the recording pass
    reopens: bool,                      // whether the recording can be opened again
    readBack: F -> F,                   // a recorded frame as decoded from the file
    start: real,                        // `last_detection_time` before the detection loop
    clock: nat -> real,                 // `time.time()` in detection iteration k
    esc: nat -> bool,                   // ESC after detection iteration k
    detect: F -> Prediction<F>,         // the detector
    names: map<int, string>,            // its class names
    terminates: bool)                   // whether `terminate()` succeeds

  /** The detection loop's input: the recording as read back from its file, or nothing
      when the file does not open (the script does not check this capture). */
  function AnnotateFeed<F>(env: Env<F>, raw: seq<F>): Feed<F> {
    var frames := if env.reopens then seq(|raw|, i requires 0 <= i < |raw| => env.readBack(raw[i])) else [];
    Feed(env.start, frames, env.clock, env.esc, env.detect, env.names)
  }

  /** The actions up to opening the live source: the relay first in drone mode. */
  function Opening(mode: Mode, hostAnswer: string): seq<Effect> {
    (if mode == Drone then [StartRelay] else []) + [OpenCapture(SourceFor(mode, hostAnswer))]
  }

  /** The actions of the two passes: both writers take the live source's rate and size,
      and the second pass opens exactly the file the first one wrote. */
  function PassEffects<F>(env: Env<F>): seq<Effect> {
    var rawOut := WriterSpec(RawName(env.stamp), env.fps, env.width, env.height);
    var annotatedOut := WriterSpec(ProcessedName(env.stamp), env.fps, env.width, env.height);
    [CreateWriter(rawOut), LoadModel, OpenCapture(File(rawOut.path)), CreateWriter(annotatedOut)]
  }

  /** A reply the script proceeds with: a valid mode, and the relay present in drone mode. */
  predicate Proceeds<F>(env: Env<F>) {
    SelectMode(env.answer).Some? && (SelectMode(env.answer) == Some(Drone) ==> env.relayInstalled)
  }

  /** Both passes once the live source is open (`COD_voo_drone_ia.py` lines 46 to 151): record, reopen the
      recording, annotate it, export the log. */
  method RecordThenAnnotate<F>(env: Env<F>) returns (crashed: Option<int>, effects: seq<Effect>, raw: seq<F>, processed: seq<F>)
    ensures raw == Recorded(env.live, env.liveEsc)
    ensures processed == Output(AnnotateFeed(env, raw))
    ensures var stop := StopOf(AnnotateFeed(env, raw));
            && (stop.UnknownClass? ==> crashed == Some(stop.code) && effects == PassEffects(env))
            && (!stop.UnknownClass? ==>
                  var feed := AnnotateFeed(env, raw);
                  crashed == None
                  && effects == PassEffects(env) + [SaveTable(TableName(env.stamp), Columns, Table(LogUpTo(feed, ReadCount(feed))))])
  {
    var rawOut := WriterSpec(RawName(env.stamp), env.fps, env.width, env.height);
    effects := [CreateWriter(rawOut)];
    raw := Record(env.live, env.liveEsc);

    effects := effects + [LoadModel, OpenCapture(File(rawOut.path))];
    var annotatedOut := WriterSpec(ProcessedName(env.stamp), env.fps, env.width, env.height);
    effects := effects + [CreateWriter(annotatedOut)];
    var log, last, stop; ghost var calls;
    processed, log, last, stop, calls := Annotate(AnnotateFeed(env, raw));
    if stop.UnknownClass? {
      return Some(stop.code), effects, raw, processed;
    }
    effects := effects + [SaveTable(TableName(env.stamp), Columns, Table(log))];
    crashed := None;
  }

  /** `COD_voo_drone_ia.py` lines 15 to 44: read the mode, start the relay in drone mode, open the live source.
      `refused` is how the script ends when it ends here; `entry` is the normalized reply,
      kept for the final guard, and `started` whether the relay was started. */
  method Connect<F>(env: Env<F>)
    returns (refused: Option<Exit>, mode: Mode, entry: string, started: bool, effects: seq<Effect>)
    ensures entry == Normalize(env.answer)
    ensures SelectMode(env.answer).None? ==> refused == Some(InvalidChoice) && effects == []
    ensures SelectMode(env.answer) == Some(Drone) && !env.relayInstalled ==> refused == Some(RelayMissing) && effects == []
    ensures Proceeds(env) ==>
              && mode == SelectMode(env.answer).value
              && (started <==> mode == Drone)
              && effects == Opening(mode, env.hostAnswer)
              && (refused == None <==> env.opens)
              && (refused != None ==> refused == Some(CannotOpen))
  {
    effects := [];
    entry := Normalize(env.answer);
    mode, started := Webcam, false;
    if entry == "webcam" {
    } else if entry == "drone" {
      if !env.relayInstalled {
        return Some(RelayMissing), mode, entry, started, effects;
      }
      effects := effects + [StartRelay];
      mode, started := Drone, true;
    } else {
      return Some(InvalidChoice), mode, entry, started, effects;
    }
    effects := effects + [OpenCapture(SourceFor(mode, env.hostAnswer))];
    if !env.opens {
      return Some(CannotOpen), mode, entry, started, effects;
    }
    refused := None;
  }

  /** The whole script: its actions in order, how it ends, the recording and the
      annotated copy. */
  method Run<F>(env: Env<F>) returns (exit: Exit, effects: seq<Effect>, raw: seq<F>, processed: seq<F>)
    ensures SelectMode(env.answer).None? ==> exit == InvalidChoice && effects == [] && raw == [] && processed == []
    ensures SelectMode(env.answer) == Some(Drone) && !env.relayInstalled ==>
              exit == RelayMissing && effects == [] && raw == [] && processed == []
    ensures Proceeds(env) && !env.opens ==>
              exit == CannotOpen && effects == Opening(SelectMode(env.answer).value, env.hostAnswer)
              && raw == [] && processed == []
    ensures Proceeds(env) && env.opens ==>
              raw == Recorded(env.live, env.liveEsc) && processed == Output(AnnotateFeed(env, raw))
    ensures Proceeds(env) && env.opens && StopOf(AnnotateFeed(env, raw)).UnknownClass? ==>
              exit == Crashed(StopOf(AnnotateFeed(env, raw)).code)
              && effects == Opening(SelectMode(env.answer).value, env.hostAnswer) + PassEffects(env)
    ensures Proceeds(env) && env.opens && !StopOf(AnnotateFeed(env, raw)).UnknownClass? ==>
              var feed := AnnotateFeed(env, raw);
              var mode := SelectMode(env.answer).value;
              && exit == Finished
              && effects == Opening(mode, env.hostAnswer) + PassEffects(env)
                            + [SaveTable(TableName(env.stamp), Columns, Table(LogUpTo(feed, ReadCount(feed))))]
                            + (if mode == Drone then [TerminateRelay(env.terminates)] else [])
  {
    raw, processed := [], [];
    var refused, mode, entry, started;
    refused, mode, entry, started, effects := Connect(env);
    if refused.Some? {
      return refused.value, effects, raw, processed;
    }
    var crashed, passes;
    crashed, passes, raw, processed := RecordThenAnnotate(env);
    effects := effects + passes;
    if crashed.Some? {
      return Crashed(crashed.value), effects, raw, processed;
    }
    effects := effects + RelayCleanup(entry, started, env.terminates);
    exit := Finished;
  }
}

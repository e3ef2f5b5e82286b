/** The inline script: ask for a video file, annotate it in one pass, export the log. */
module ProcessVideo {
  import opened Text
  import opened Detections
  import opened Media
  import opened AnnotateLoop

  /** How the script ends. */
  datatype Exit = MissingInput | CannotOpen | Finished | Crashed(code: int)

  /** What the script gets from its surroundings. */
  datatype Env<!F> = Env(
    answer: string,          // the reply to the file prompt
    found: bool,             // `os.path.exists` of the stripped reply
    opens: bool,             // `cap.isOpened()`
    width: int, height: int, fps: int, // the capture's frame size and rate
    stamp: string,           // `strftime("%Y%m%d_%H%M%S")` when the writer is created
    feed: Feed<F>)           // the loop's frames, clock, keys, detector and class names

  /** The whole script: its actions in order, how it ends, and the frames of the output video. */
  method Run<F>(env: Env<F>) returns (exit: Exit, effects: seq<Effect>, video: seq<F>)
    ensures !env.found ==> exit == MissingInput && effects == [] && video == []
    ensures env.found && !env.opens ==>
              exit == CannotOpen && effects == [LoadModel, OpenCapture(File(Strip(env.answer)))] && video == []
    ensures env.found && env.opens ==>
              var opening := [LoadModel, OpenCapture(File(Strip(env.answer))),
                              CreateWriter(WriterSpec(RawName(env.stamp), env.fps, env.width, env.height))];
              var stop := StopOf(env.feed);
              && video == Output(env.feed)
              && (stop.UnknownClass? ==> exit == Crashed(stop.code) && effects == opening)
              && (!stop.UnknownClass? ==>
                    exit == Finished
                    && effects == opening + [SaveTable(TableName(env.stamp), Columns,
                                                       Table(LogUpTo(env.feed, ReadCount(env.feed))))])
  {
    effects, video := [], [];
    var path := Strip(env.answer);
    if !env.found {
      return MissingInput, effects, video;
    }
    effects := effects + [LoadModel];
    effects := effects + [OpenCapture(File(path))];
    if !env.opens {
      return CannotOpen, effects, video;
    }
    var out := WriterSpec(RawName(env.stamp), env.fps, env.width, env.height);
    effects := effects + [CreateWriter(out)];
    var log, last, stop; ghost var calls;
    video, log, last, stop, calls := Annotate(env.feed);
    if stop.UnknownClass? {
      return Crashed(stop.code), effects, video;
    }
    effects := effects + [SaveTable(TableName(env.stamp), Columns, Table(log))];
    exit := Finished;
  }
}

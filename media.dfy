/** The outside world as the two scripts see it: where frames come from, the writers they
    create, the files they name after the run's start time, and the actions they take on
    their collaborators, in order. */
module Media {
  import opened Detections

  /** What a capture is opened on: a camera device, a network stream, or a video file. */
  datatype Source = Device(index: nat) | Stream(url: string) | File(path: string)

  /** A video writer: its file, frame rate and frame size (the codec is always `mp4v`). */
  datatype WriterSpec = WriterSpec(path: string, fps: int, width: int, height: int)

  /** One externally visible action of a script. */
  datatype Effect =
    | LoadModel                                     // `YOLO('yolov10s.pt')`
    | StartRelay                                    // `subprocess.Popen(MonaServer.exe)`
    | OpenCapture(src: Source)                      // `cv2.VideoCapture(...)`
    | CreateWriter(writer: WriterSpec)              // `cv2.VideoWriter(...)`
    | SaveTable(path: string, header: seq<string>, table: seq<seq<Cell>>) // `DataFrame(..., columns=...).to_excel(...)`
    | TerminateRelay(ok: bool)                      // `terminate()`, and whether it raised

  /** The recording written while capturing: `captura_video_{timestamp}.mp4`. */
  function RawName(stamp: string): string {
    "captura_video_" + stamp + ".mp4"
  }

  /** The annotated copy: `captura_video_{timestamp}_processado.mp4`. */
  function ProcessedName(stamp: string): string {
    "captura_video_" + stamp + "_processado.mp4"
  }

  /** The exported log: `detecoes_{timestamp}.xlsx`. */
  function TableName(stamp: string): string {
    "detecoes_" + stamp + ".xlsx"
  }

  /** Each name determines the run's timestamp: runs started at different times never
      write to the same file. */
  lemma {:induction false} NamesDetermineStamp(a: string, b: string)
    ensures RawName(a) == RawName(b) ==> a == b
    ensures ProcessedName(a) == ProcessedName(b) ==> a == b
    ensures TableName(a) == TableName(b) ==> a == b
  {
    if RawName(a) == RawName(b) {
      assert a == RawName(a)[14..|RawName(a)| - 4];
    }
    if ProcessedName(a) == ProcessedName(b) {
      assert a == ProcessedName(a)[14..|ProcessedName(a)| - 15];
    }
    if TableName(a) == TableName(b) {
      assert a == TableName(a)[9..|TableName(a)| - 5];
    }
  }

  /** Within one run the three files are different files: the annotated copy never
      overwrites the recording it is read from, and the log is neither video. */
  lemma {:induction false} NamesDistinct(stamp: string, other: string)
    ensures RawName(stamp) != ProcessedName(stamp)
    ensures TableName(stamp) != RawName(other) && TableName(stamp) != ProcessedName(other)
  {
    assert |RawName(stamp)| < |ProcessedName(stamp)|;
    assert TableName(stamp)[0] == 'd' && RawName(other)[0] == 'c' && ProcessedName(other)[0] == 'c';
  }
}

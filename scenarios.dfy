/**
 * Whole interactions with the engine, each proved from the contracts of the
 * engine and of the desktop alone.
 */
module Scenarios {
  import opened Wrappers
  import opened Text
  import opened Desktop
  import opened Engine

  /**
   * The clipboard holds "X"; the user presses at `press`, drags and releases,
   * and the foreground application answers the copy with "hello". Then the
   * user presses the middle button at `target`. The clipboard is "X" after
   * each step, the selection is held and then consumed, and the log shows
   * the two protocols in order: the injector sent one copy, one focus click
   * at `target` and one paste that delivered "hello".
   */
  method DragCaptureThenPaste(press: Point, release: Point, target: Point, t: int)
    returns (clipAfterCapture: string, bufAfterCapture: Option<string>,
             clipAfterPaste: string, bufAfterPaste: Option<string>, log: seq<Action>)
    ensures clipAfterCapture == "X" && bufAfterCapture == Some("hello")
    ensures clipAfterPaste == "X" && bufAfterPaste == None
    ensures log == [ReadClipboard, CopyCommand, ReadClipboard, WriteClipboard("X"),
                    ReadClipboard, WriteClipboard("hello"), FocusClick(target), PasteCommand("hello"), WriteClipboard("X")]
  {
    var desk := new Desktop("X", true, true);
    var engine := new Engine(desk);
    var cb := CallbackCtx(false);
    var _ := engine.MouseCallback(LeftMouseDown, Event(press), cb, t, None);
    var _ := engine.MouseCallback(LeftMouseDragged, Event(release), cb, t, None);
    TrimNonEmpty("hello", 0);
    var _ := engine.MouseCallback(LeftMouseUp, Event(release), cb, t, Some("hello"));
    assert engine.primaryBuf == Some("hello");
    ghost var log1 := desk.log;
    clipAfterCapture, bufAfterCapture := desk.clipboard, engine.primaryBuf;
    var _ := engine.MouseCallback(OtherMouseDown, Event(target), cb, t, None);
    clipAfterPaste, bufAfterPaste := desk.clipboard, engine.primaryBuf;
    log := desk.log;
    DragPasteLog(log1, log, target);
  }

  /**
   * The log of `DragCaptureThenPaste`: the capture's four actions appended to
   * the new desktop's empty log, then the paste's five. Stated apart so that
   * the scenario's own proof does not carry this sequence equality.
   */
  lemma DragPasteLog(log1: seq<Action>, log: seq<Action>, target: Point)
    requires log1 == [] + [ReadClipboard, CopyCommand, ReadClipboard, WriteClipboard("X")]
    requires log == log1 + [ReadClipboard, WriteClipboard("hello"), FocusClick(target), PasteCommand("hello"), WriteClipboard("X")]
    ensures log == [ReadClipboard, CopyCommand, ReadClipboard, WriteClipboard("X"),
                    ReadClipboard, WriteClipboard("hello"), FocusClick(target), PasteCommand("hello"), WriteClipboard("X")]
  {}

  /**
   * Two presses at `t1` and `t2`, at any two locations, then a release
   * without a drag, while the foreground application would copy "word": the
   * selection is captured exactly when the presses are less than 500 ms
   * apart, wherever they were.
   */
  method DoubleClickCapture(p1: Point, p2: Point, t1: int, t2: int) returns (buf: Option<string>)
    ensures buf == if t2 - t1 < 500 then Some("word") else None
  {
    var desk := new Desktop("X", true, true);
    var engine := new Engine(desk);
    var cb := CallbackCtx(false);
    var _ := engine.MouseCallback(LeftMouseDown, Event(p1), cb, t1, None);
    var _ := engine.MouseCallback(LeftMouseDown, Event(p2), cb, t2, None);
    TrimNonEmpty("word", 0);
    var _ := engine.MouseCallback(LeftMouseUp, Event(p2), cb, t2, Some("word"));
    buf := engine.primaryBuf;
  }

  /**
   * On a fresh engine both press times are 0, so a release with no press and
   * no drag before it counts as a double click and captures "word".
   */
  method FirstReleaseCaptures(at: Point) returns (buf: Option<string>)
    ensures buf == Some("word")
  {
    var desk := new Desktop("X", true, true);
    var engine := new Engine(desk);
    TrimNonEmpty("word", 0);
    var _ := engine.MouseCallback(LeftMouseUp, Event(at), CallbackCtx(false), 0, Some("word"));
    buf := engine.primaryBuf;
  }

  /**
   * A drag captures "foo"; a second drag, where the application would copy
   * "bar", leaves the pending "foo" in place and causes no clipboard access
   * and no synthetic input.
   */
  method LockKeepsPending(at: Point, t: int) returns (buf: Option<string>, secondLog: seq<Action>)
    ensures buf == Some("foo") && secondLog == []
  {
    var desk := new Desktop("X", true, true);
    var engine := new Engine(desk);
    var cb := CallbackCtx(false);
    var _ := engine.MouseCallback(LeftMouseDragged, Event(at), cb, t, None);
    TrimNonEmpty("foo", 0);
    var _ := engine.MouseCallback(LeftMouseUp, Event(at), cb, t, Some("foo"));
    assert engine.primaryBuf == Some("foo");
    var firstLen := |desk.log|;
    var _ := engine.MouseCallback(LeftMouseDragged, Event(at), cb, t, None);
    var _ := engine.MouseCallback(LeftMouseUp, Event(at), cb, t, Some("bar"));
    buf := engine.primaryBuf;
    secondLog := desk.log[firstLen..];
  }

  /**
   * A drag whose copy yields only white space leaves an empty buffer empty
   * and puts the clipboard back.
   */
  method BlankCaptureIsIgnored(blank: string, clip: string, at: Point, t: int)
    returns (buf: Option<string>, clipAfter: string)
    requires IsBlank(blank)
    ensures buf == None && clipAfter == clip
  {
    var desk := new Desktop(clip, true, true);
    var engine := new Engine(desk);
    var cb := CallbackCtx(false);
    var _ := engine.MouseCallback(LeftMouseDragged, Event(at), cb, t, None);
    var _ := engine.MouseCallback(LeftMouseUp, Event(at), cb, t, Some(blank));
    buf, clipAfter := engine.primaryBuf, desk.clipboard;
  }

  /**
   * A drag whose synthetic copy the foreground application does not answer
   * (nothing selected, or too slow) reads back the unchanged clipboard; when
   * that is not blank, it becomes the pending selection.
   */
  method UnansweredCopyCapturesClipboard(clip: string, at: Point, t: int)
    returns (buf: Option<string>, clipAfter: string)
    requires !IsBlank(clip)
    ensures buf == Some(clip) && clipAfter == clip
  {
    var desk := new Desktop(clip, true, true);
    var engine := new Engine(desk);
    var cb := CallbackCtx(false);
    var _ := engine.MouseCallback(LeftMouseDragged, Event(at), cb, t, None);
    var _ := engine.MouseCallback(LeftMouseUp, Event(at), cb, t, None);
    buf, clipAfter := engine.primaryBuf, desk.clipboard;
  }

  /**
   * With the paste trigger suppressed, a middle-button press leaves a
   * pending selection, the clipboard and the log alone.
   */
  method SuppressedPasteKeepsSelection(at: Point, t: int) returns (buf: Option<string>, logLen: nat)
    ensures buf == Some("sel") && logLen == 4
  {
    var desk := new Desktop("X", true, true);
    var engine := new Engine(desk);
    engine.Start(true);
    var ctx := engine.RunEventTapLoop(7, true);
    var _ := engine.MouseCallback(LeftMouseDragged, Event(at), ctx.value, t, None);
    TrimNonEmpty("sel", 0);
    var _ := engine.MouseCallback(LeftMouseUp, Event(at), ctx.value, t, Some("sel"));
    assert engine.primaryBuf == Some("sel") && |desk.log| == 4;
    var _ := engine.MouseCallback(OtherMouseDown, Event(at), ctx.value, t, None);
    buf, logLen := engine.primaryBuf, |desk.log|;
  }

  /**
   * The tap cannot be created: the worker ends and the engine reports it is
   * not running; a second start spawns a new worker; a stop then signals that
   * worker's run loop and leaves the engine stopped.
   */
  method TapFailureThenRestart(firstLoop: nat, secondLoop: nat)
    returns (afterFailure: bool, afterRestart: bool, stopped: Option<nat>, afterStop: bool)
    requires secondLoop != 0
    ensures !afterFailure && afterRestart && !afterStop
    ensures stopped == Some(secondLoop)
  {
    var desk := new Desktop("", true, true);
    var engine := new Engine(desk);
    engine.Start(false);
    var _ := engine.RunEventTapLoop(firstLoop, false);
    afterFailure := engine.IsRunning();
    engine.Start(false);
    afterRestart := engine.IsRunning();
    var _ := engine.RunEventTapLoop(secondLoop, true);
    var joined;
    stopped, joined := engine.Stop();
    afterStop := engine.IsRunning();
  }
}

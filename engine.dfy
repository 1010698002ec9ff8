/**
 * The selection-capture engine: a sequential model of its lifecycle, its
 * click-state tracker, the capture and paste protocols over the selection
 * buffer, and the event-tap callback that ties them together. The
 * process-wide statics of the Rust code are fields of `Engine` here.
 */
module Engine {
  import opened Wrappers
  import opened Text
  import Clicks
  import opened Desktop

  /** The kinds of event the tap reports; `OtherEvent` stands for every kind the callback ignores. */
  datatype EventType = OtherMouseDown | LeftMouseDown | LeftMouseDragged | LeftMouseUp | OtherEvent

  /** The event pointer handed to the callback, which can be null. */
  datatype EventRef = Null | Event(location: Point)

  /** What the tap's callback is given besides the event. */
  datatype CallbackCtx = CallbackCtx(dontPaste: bool)

  /** The worker thread's handle, with the flag its closure captured. */
  datatype JoinHandle = JoinHandle(dontPaste: bool)

  /** The buffer invariant: a held selection is not blank, so (by `Trim`'s contract) its trimmed form is non-empty. */
  predicate BufferOk(buf: Option<string>) {
    buf.Some? ==> !IsBlank(buf.value)
  }

  /** Unfolds `Injected` once. */
  lemma InjectedCons(a: Action, rest: seq<Action>)
    ensures Injected([a] + rest) == (if a.IsInjected() then [a] else []) + Injected(rest)
  {
    assert ([a] + rest)[1..] == rest;
  }

  /** The injector's part of one capture: the copy command alone. */
  lemma CaptureStepsInjected(log: seq<Action>, before: string)
    ensures Injected(log + [ReadClipboard, CopyCommand, ReadClipboard, WriteClipboard(before)])
         == Injected(log) + [CopyCommand]
  {
    var steps := [ReadClipboard, CopyCommand, ReadClipboard, WriteClipboard(before)];
    InjectedAppend(log, steps);
    calc {
      Injected(steps);
      { InjectedCons(ReadClipboard, steps[1..]); }
      Injected(steps[1..]);
      { InjectedCons(CopyCommand, steps[2..]); }
      [CopyCommand] + Injected(steps[2..]);
      { InjectedCons(ReadClipboard, steps[3..]); }
      [CopyCommand] + Injected(steps[3..]);
      { InjectedCons(WriteClipboard(before), []); }
      [CopyCommand];
    }
  }

  /** The injector's part of one paste: the focus click, then the paste command. */
  lemma PasteStepsInjected(log: seq<Action>, text: string, before: string, at: Point, pasted: string)
    ensures Injected(log + [ReadClipboard, WriteClipboard(text), FocusClick(at), PasteCommand(pasted), WriteClipboard(before)])
         == Injected(log) + [FocusClick(at), PasteCommand(pasted)]
  {
    var steps := [ReadClipboard, WriteClipboard(text), FocusClick(at), PasteCommand(pasted), WriteClipboard(before)];
    InjectedAppend(log, steps);
    calc {
      Injected(steps);
      { InjectedCons(ReadClipboard, steps[1..]); }
      Injected(steps[1..]);
      { InjectedCons(WriteClipboard(text), steps[2..]); }
      Injected(steps[2..]);
      { InjectedCons(FocusClick(at), steps[3..]); }
      [FocusClick(at)] + Injected(steps[3..]);
      { InjectedCons(PasteCommand(pasted), steps[4..]); }
      [FocusClick(at), PasteCommand(pasted)] + Injected(steps[4..]);
      { InjectedCons(WriteClipboard(before), []); }
      [FocusClick(at), PasteCommand(pasted)];
    }
  }

  class Engine {
    /** The running flag; the worker thread also clears it when its loop ends. */
    var running: bool
    /** The worker thread, until `Stop` joins it. */
    var thread: Option<JoinHandle>
    /** `RUNLOOP_PTR`: the worker's run loop, or 0 when none is recorded. */
    var runLoopPtr: nat
    /** `PRIMARY_BUF`: the captured selection waiting to be pasted. */
    var primaryBuf: Option<string>
    /** `LOCK_UNTIL_PASTE`: a pending selection may not be replaced by a new capture. */
    const lockUntilPaste: bool
    /** `IS_DRAGGING`: the primary button has been dragged since the last release. */
    var isDragging: bool
    /** `PREV_CLICK_MS` and `CUR_CLICK_MS`: the times of the last two primary-button presses. */
    var prevClickMs: int
    var curClickMs: int
    /** The clipboard, injector and foreground application. */
    const desk: Desktop

    ghost predicate Valid()
      reads this`primaryBuf
    {
      BufferOk(primaryBuf)
    }

    /** `Engine::new`, together with the initial values of the statics. */
    constructor (desk: Desktop)
      ensures Valid() && this.desk == desk
      ensures !running && thread == None && runLoopPtr == 0
      ensures primaryBuf == None && lockUntilPaste
      ensures !isDragging && prevClickMs == 0 && curClickMs == 0
    {
      running := false;
      thread := None;
      runLoopPtr := 0;
      primaryBuf := None;
      lockUntilPaste := true;
      isDragging := false;
      prevClickMs := 0;
      curClickMs := 0;
      this.desk := desk;
    }

    /* ---------- lifecycle ---------- */

    method IsRunning() returns (r: bool)
      ensures r == running
    {
      r := running;
    }

    /**
     * Spawns the worker unless the engine already runs. The flag is read and
     * then set: two separate steps, not one atomic test-and-set.
     */
    method Start(dontPaste: bool)
      modifies this`running, this`thread
      ensures old(running) ==> running && thread == old(thread)
      ensures !old(running) ==> running && thread == Some(JoinHandle(dontPaste))
    {
      var r := IsRunning();
      if r {
        return;
      }
      running := true;
      thread := Some(JoinHandle(dontPaste));
    }

    /**
     * The worker thread until its run loop starts: it records its run loop
     * `runLoop` and tries to create the event tap (`tapCreated`). On success
     * the tap's callback context is returned; on failure the thread ends and
     * clears the running flag.
     */
    method RunEventTapLoop(runLoop: nat, tapCreated: bool) returns (ctx: Option<CallbackCtx>)
      requires thread.Some?
      modifies this`runLoopPtr, this`running
      ensures runLoopPtr == runLoop
      ensures tapCreated ==> running == old(running) && ctx == Some(CallbackCtx(thread.value.dontPaste))
      ensures !tapCreated ==> !running && ctx == None
    {
      runLoopPtr := runLoop;
      if !tapCreated {
        running := false;
        return None;
      }
      ctx := Some(CallbackCtx(thread.value.dontPaste));
    }

    /**
     * Stops the recorded run loop, if any (the result names it), joins the
     * worker, and clears the running flag and the run-loop record. Safe to
     * call when nothing runs.
     */
    method Stop() returns (stopped: Option<nat>, joined: bool)
      modifies this`running, this`thread, this`runLoopPtr
      ensures stopped == (if old(runLoopPtr) != 0 then Some(old(runLoopPtr)) else None)
      ensures joined == old(thread).Some?
      ensures !running && thread == None && runLoopPtr == 0
    {
      var ptr := runLoopPtr;
      stopped := if ptr != 0 then Some(ptr) else None;
      joined := thread.Some?;
      thread := None;
      running := false;
      runLoopPtr := 0;
    }

    /* ---------- click state ---------- */

    /** Shifts the press times: the current one becomes the previous one, `now` the current one. */
    method RecordClickTime(now: int)
      modifies this`prevClickMs, this`curClickMs
      ensures prevClickMs == old(curClickMs) && curClickMs == now
    {
      var prev := curClickMs;
      curClickMs := now;
      prevClickMs := prev;
    }

    /* ---------- capture and paste ---------- */

    /** Neither the buffer nor the clipboard nor the log changed. */
    twostate predicate Untouched()
      reads this, desk
    {
      primaryBuf == old(primaryBuf) && desk.clipboard == old(desk.clipboard) && desk.log == old(desk.log)
    }

    /**
     * The outcome of one capture, given the foreground application's answer
     * to the synthetic copy. With the lock set and a selection pending,
     * nothing happens. Otherwise: the clipboard is read (`before`), a copy
     * is sent, the clipboard is read again (`copied`) and `before` is
     * written back; `copied` replaces the buffer unless its trimmed form is
     * empty. A failed read counts as the empty string.
     */
    twostate predicate CaptureEffect(answer: Option<string>)
      reads this, desk
    {
      if old(lockUntilPaste && primaryBuf.Some?) then
        Untouched()
      else
        var before := if desk.canRead then old(desk.clipboard) else "";
        var offered := answer.UnwrapOr(old(desk.clipboard));
        var copied := if desk.canRead then offered else "";
        desk.log == old(desk.log) + [ReadClipboard, CopyCommand, ReadClipboard, WriteClipboard(before)]
        && desk.clipboard == (if desk.canWrite then before else offered)
        && primaryBuf == (if IsBlank(copied) then old(primaryBuf) else Some(copied))
    }

    /**
     * The outcome of one paste at `at`. With an empty buffer nothing
     * happens. Otherwise: the clipboard is read (`before`), the selection
     * is written to it, a focus click at `at` and a paste are sent, `before`
     * is written back, and the buffer is emptied.
     */
    twostate predicate PasteEffect(at: Point)
      reads this, desk
    {
      match old(primaryBuf)
      case None => Untouched()
      case Some(text) =>
        var before := if desk.canRead then old(desk.clipboard) else "";
        var pasted := if desk.canWrite then text else old(desk.clipboard);
        primaryBuf == None
        && desk.log == old(desk.log) + [ReadClipboard, WriteClipboard(text), FocusClick(at), PasteCommand(pasted), WriteClipboard(before)]
        && desk.clipboard == (if desk.canWrite then before else old(desk.clipboard))
    }

    method CapturePrimarySelectionLocked(answer: Option<string>)
      requires Valid()
      modifies this`primaryBuf, desk`clipboard, desk`log
      ensures Valid()
      ensures CaptureEffect(answer)
      ensures old(lockUntilPaste && primaryBuf.Some?) ==> Untouched()
      ensures desk.canRead && desk.canWrite ==> desk.clipboard == old(desk.clipboard)
      ensures !old(lockUntilPaste && primaryBuf.Some?) ==> Injected(desk.log) == Injected(old(desk.log)) + [CopyCommand]
    {
      if lockUntilPaste && primaryBuf.Some? {
        return;
      }
      var read := desk.Pbpaste();
      var before := read.UnwrapOr("");
      desk.CopyCmdC(answer);
      read := desk.Pbpaste();
      var copied := read.UnwrapOr("");
      var _ := desk.Pbcopy(before);
      AppendSteps(old(desk.log), [ReadClipboard, CopyCommand, ReadClipboard, WriteClipboard(before)]);
      CaptureStepsInjected(old(desk.log), before);
      if Trim(copied) == [] {
        return;
      }
      primaryBuf := Some(copied);
    }

    method PastePrimary(at: Point)
      modifies this`primaryBuf, desk`clipboard, desk`log
      ensures Valid()
      ensures PasteEffect(at)
      ensures primaryBuf == None
      ensures desk.canRead && desk.canWrite ==> desk.clipboard == old(desk.clipboard)
      ensures old(primaryBuf.Some?) ==>
        Injected(desk.log) == Injected(old(desk.log))
          + [FocusClick(at), PasteCommand(if desk.canWrite then old(primaryBuf.value) else old(desk.clipboard))]
    {
      if primaryBuf.None? {
        return;
      }
      var text := primaryBuf.value;
      var read := desk.Pbpaste();
      var before := read.UnwrapOr("");
      var _ := desk.Pbcopy(text);
      desk.FocusClickAt(at);
      ghost var pasted := desk.clipboard;
      desk.PasteCmdV();
      var _ := desk.Pbcopy(before);
      primaryBuf := None;
      AppendSteps(old(desk.log), [ReadClipboard, WriteClipboard(text), FocusClick(at), PasteCommand(pasted), WriteClipboard(before)]);
      PasteStepsInjected(old(desk.log), text, before, at, pasted);
    }

    /* ---------- the event-tap callback ---------- */

    /** The press times and the drag flag did not change. */
    twostate predicate ClicksUnchanged()
      reads this
    {
      prevClickMs == old(prevClickMs) && curClickMs == old(curClickMs) && isDragging == old(isDragging)
    }

    /**
     * What the callback does with one event: a null event or an ignored kind
     * changes nothing; a middle-button press pastes at the event's
     * location unless pasting is suppressed; a primary-button press records
     * its time `now`; a drag sets the drag flag; a release captures (with the
     * application's `answer`) when it ends a double click or a drag, and
     * always clears the drag flag.
     */
    twostate predicate Dispatched(eventType: EventType, event: EventRef, ctx: CallbackCtx, now: int, answer: Option<string>)
      reads this, desk
    {
      match event
      case Null => ClicksUnchanged() && Untouched()
      case Event(location) =>
        match eventType
        case OtherMouseDown =>
          ClicksUnchanged() && if ctx.dontPaste then Untouched() else PasteEffect(location)
        case LeftMouseDown =>
          prevClickMs == old(curClickMs) && curClickMs == now && isDragging == old(isDragging) && Untouched()
        case LeftMouseDragged =>
          isDragging && prevClickMs == old(prevClickMs) && curClickMs == old(curClickMs) && Untouched()
        case LeftMouseUp =>
          !isDragging && prevClickMs == old(prevClickMs) && curClickMs == old(curClickMs)
          && if Clicks.IsDoubleClick(old(prevClickMs), old(curClickMs)) || old(isDragging)
             then CaptureEffect(answer) else Untouched()
        case OtherEvent => ClicksUnchanged() && Untouched()
    }

    /**
     * `mouse_callback`: routes one event and returns it unchanged. `now` is
     * the wall-clock time, used by a primary-button press; `answer` is the
     * foreground application's answer should a capture run.
     */
    method MouseCallback(eventType: EventType, event: EventRef, ctx: CallbackCtx, now: int, answer: Option<string>)
      returns (r: EventRef)
      requires Valid()
      modifies this`primaryBuf, this`isDragging, this`prevClickMs, this`curClickMs, desk`clipboard, desk`log
      ensures Valid()
      ensures r == event
      ensures Dispatched(eventType, event, ctx, now, answer)
    {
      if event.Null? {
        return event;
      }
      match eventType {
      case OtherMouseDown =>
        if !ctx.dontPaste {
          PastePrimary(event.location);
        }
      case LeftMouseDown =>
        RecordClickTime(now);
      case LeftMouseDragged =>
        isDragging := true;
      case LeftMouseUp =>
        var dragging := isDragging;
        if Clicks.IsDoubleClick(prevClickMs, curClickMs) || dragging {
          CapturePrimarySelectionLocked(answer);
        }
        isDragging := false;
      case OtherEvent =>
      }
      r := event;
    }
  }
}

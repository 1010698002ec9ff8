/**
 * The collaborators the engine drives: the system clipboard (reached through
 * the `pbpaste` and `pbcopy` utilities), the synthetic-input injector, and the
 * foreground application that answers a synthetic copy. Every call the engine
 * makes on them is recorded, in order, in one action log.
 */
module Desktop {
  import opened Wrappers

  /** A screen location; the model only carries it from a mouse event to a focus click. */
  datatype Point = Point(x: real, y: real)

  datatype Action =
    | ReadClipboard                  // one run of pbpaste
    | WriteClipboard(text: string)   // one run of pbcopy, whether or not it succeeds
    | CopyCommand                    // synthetic Cmd+C
    | FocusClick(at: Point)          // synthetic left button down and up at a point
    | PasteCommand(pasted: string)   // synthetic Cmd+V; `pasted` is the clipboard the application then reads
  {
    /** Actions of the synthetic-input injector, as opposed to clipboard accesses. */
    predicate IsInjected() {
      CopyCommand? || FocusClick? || PasteCommand?
    }
  }

  /** The injector's part of a log, in order. */
  function Injected(log: seq<Action>): (r: seq<Action>)
    ensures |r| <= |log|
    ensures forall i :: 0 <= i < |r| ==> r[i].IsInjected()
    ensures r == [] <==> forall i :: 0 <= i < |log| ==> !log[i].IsInjected()
  {
    if log == [] then []
    else (if log[0].IsInjected() then [log[0]] else []) + Injected(log[1..])
  }

  /** Projecting a log onto the injector's actions distributes over concatenation. */
  lemma {:induction false} InjectedAppend(a: seq<Action>, b: seq<Action>)
    ensures Injected(a + b) == Injected(a) + Injected(b)
  {
    if a == [] {
      assert a + b == b;
    } else {
      assert (a + b)[1..] == a[1..] + b;
      InjectedAppend(a[1..], b);
    }
  }

  /**
   * Appending actions one by one is appending them as one block. The
   * protocols log their four (capture) or five (paste) steps one at a time;
   * this connects those appends to the block their contracts name.
   */
  lemma AppendSteps(log: seq<Action>, steps: seq<Action>)
    requires |steps| <= 5
    ensures |steps| == 4 ==> log + [steps[0]] + [steps[1]] + [steps[2]] + [steps[3]] == log + steps
    ensures |steps| == 5 ==> log + [steps[0]] + [steps[1]] + [steps[2]] + [steps[3]] + [steps[4]] == log + steps
  {
    if |steps| == 4 {
      assert steps == [steps[0]] + [steps[1]] + [steps[2]] + [steps[3]];
    }
    if |steps| == 5 {
      assert steps == [steps[0]] + [steps[1]] + [steps[2]] + [steps[3]] + [steps[4]];
    }
  }

  class Desktop {
    /** The text on the system clipboard. */
    var clipboard: string
    /** Whether `pbpaste` runs and succeeds; when it does not, a read yields nothing. */
    const canRead: bool
    /** Whether `pbcopy` runs and succeeds; when it does not, a write leaves the clipboard as it was. */
    const canWrite: bool
    /** Every clipboard access and synthetic input, oldest first. */
    var log: seq<Action>

    constructor (clipboard: string, canRead: bool, canWrite: bool)
      ensures this.clipboard == clipboard && this.canRead == canRead && this.canWrite == canWrite
      ensures log == []
    {
      this.clipboard := clipboard;
      this.canRead := canRead;
      this.canWrite := canWrite;
      log := [];
    }

    /** `pbpaste`: the clipboard's text, or `None` when the utility fails. */
    method Pbpaste() returns (r: Option<string>)
      modifies this`log
      ensures r == (if canRead then Some(clipboard) else None)
      ensures log == old(log) + [ReadClipboard]
    {
      r := if canRead then Some(clipboard) else None;
      log := log + [ReadClipboard];
    }

    /** `pbcopy`: puts `s` on the clipboard and reports whether that worked. */
    method Pbcopy(s: string) returns (ok: bool)
      modifies this`clipboard, this`log
      ensures ok == canWrite
      ensures clipboard == (if canWrite then s else old(clipboard))
      ensures log == old(log) + [WriteClipboard(s)]
    {
      ok := canWrite;
      if ok {
        clipboard := s;
      }
      log := log + [WriteClipboard(s)];
    }

    /**
     * `copy_cmd_c`: a synthetic Cmd+C to the foreground application. The
     * application's answer is an input: `Some(t)` when it puts `t` on the
     * clipboard, `None` when it leaves the clipboard alone (nothing selected,
     * or it has not reacted yet).
     */
    method CopyCmdC(answer: Option<string>)
      modifies this`clipboard, this`log
      ensures clipboard == answer.UnwrapOr(old(clipboard))
      ensures log == old(log) + [CopyCommand]
    {
      clipboard := answer.UnwrapOr(clipboard);
      log := log + [CopyCommand];
    }

    /** `paste_cmd_v`: a synthetic Cmd+V; the foreground application inserts the clipboard's text. */
    method PasteCmdV()
      modifies this`log
      ensures log == old(log) + [PasteCommand(clipboard)]
    {
      log := log + [PasteCommand(clipboard)];
    }

    /** `focus_click_at`: a synthetic left click at `at`, to move focus under the cursor. */
    method FocusClickAt(at: Point)
      modifies this`log
      ensures log == old(log) + [FocusClick(at)]
    {
      log := log + [FocusClick(at)];
    }
  }
}

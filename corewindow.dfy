/**
 * The older window of src/core/window.rs: `create` opens a window with no
 * once-only guard, each `Window` value closes the window when dropped, and
 * the title and clipboard setters forward one call each.
 */
module CoreWindow {
  import opened Wrappers
  import opened Ffi
  import opened CallLog

  /**
   * The error kinds of src/core/error.rs, plus `InitWindowFailed`, the
   * variant `create` returns although that file does not declare it.
   */
  datatype Error = WindowInitializationFailed | WindowAlreadyCreated | InitWindowFailed

  /** A `Window`: a unit value whose drop closes the window. */
  class Window {
    constructor()
    {
    }
  }

  /** The state shared by the core windows and canvases. */
  class Runtime {
    /** Foreign calls made so far, oldest first. */
    var log: seq<Call>
    /** The `Window` values alive. */
    ghost var windows: set<Window>
    /** Whether a `Canvas` is alive, that is, whether a `draw` is in progress. */
    var canvasOpen: bool

    /**
     * Every successful readiness answer made one window, and each window
     * dropped so far issued one `CloseWindow`; drawing brackets never nest
     * and one is open only while a window is alive.
     */
    ghost predicate Valid()
      reads this
    {
      && Occurrences(log, IsWindowReady(true)) == Occurrences(log, CloseWindow) + |windows|
      && FrameDepth(log) == Some(if canvasOpen then 1 else 0)
      && (canvasOpen ==> |windows| > 0)
    }

    /** The state at program start. */
    constructor()
      ensures Valid()
      ensures log == [] && windows == {} && !canvasOpen
    {
      log := [];
      windows := {};
      canvasOpen := false;
    }
  }

  /** The calls `create` makes. */
  function CreateTrace(width: i32, height: i32, title: string, ready: bool): seq<Call>
  {
    [InitWindow(width, height, title), IsWindowReady(ready)]
  }

  /** The calls of `create` count one readiness answer when it is positive, and no bracket or close. */
  lemma CreateCalls(log: seq<Call>, width: i32, height: i32, title: string, ready: bool)
    ensures Occurrences(log + CreateTrace(width, height, title, ready), IsWindowReady(true))
      == Occurrences(log, IsWindowReady(true)) + (if ready then 1 else 0)
    ensures Occurrences(log + CreateTrace(width, height, title, ready), CloseWindow) == Occurrences(log, CloseWindow)
    ensures FrameDepth(log + CreateTrace(width, height, title, ready)) == FrameDepth(log)
  {
    var l1 := log + [InitWindow(width, height, title)];
    AppendNeutral(log, InitWindow(width, height, title));
    OccurrencesSnoc(l1, IsWindowReady(ready), IsWindowReady(true));
    OccurrencesSnoc(l1, IsWindowReady(ready), CloseWindow);
    FrameDepthSnocOther(l1, IsWindowReady(ready));
    assert log + CreateTrace(width, height, title, ready) == l1 + [IsWindowReady(ready)];
  }

  /**
   * `Window::create`: opens the window and asks whether it is ready
   * (`ready` is raylib's answer); a ready window is a new `Window`. Nothing
   * stops a second call. The title must not contain a NUL byte (the
   * conversion to a C string panics otherwise).
   */
  method Create(rt: Runtime, width: i32, height: i32, title: string, ready: bool)
      returns (r: Result<Window, Error>)
    requires rt.Valid() && NoNul(title)
    modifies rt
    ensures rt.Valid()
    ensures rt.log == old(rt.log) + CreateTrace(width, height, title, ready)
    ensures ready ==> r.Ok? && fresh(r.value) && rt.windows == old(rt.windows) + {r.value}
    ensures !ready ==> r == Err(InitWindowFailed) && rt.windows == old(rt.windows)
    ensures rt.canvasOpen == old(rt.canvasOpen)
  {
    CreateCalls(rt.log, width, height, title, ready);
    rt.log := rt.log + CreateTrace(width, height, title, ready);
    if ready {
      var w := new Window();
      rt.windows := rt.windows + {w};
      r := Ok(w);
    } else {
      r := Err(InitWindowFailed);
    }
  }

  /**
   * `Drop for Window`: one `CloseWindow` per dropped value. `draw` borrows
   * the window while the canvas is open, so while one is open the dropped
   * window is not the last.
   */
  method DropWindow(rt: Runtime, w: Window)
    requires rt.Valid() && w in rt.windows
    requires rt.canvasOpen ==> |rt.windows| > 1
    modifies rt
    ensures rt.Valid()
    ensures rt.log == old(rt.log) + [CloseWindow]
    ensures rt.windows == old(rt.windows) - {w}
    ensures rt.canvasOpen == old(rt.canvasOpen)
  {
    OccurrencesSnoc(rt.log, CloseWindow, IsWindowReady(true));
    OccurrencesSnoc(rt.log, CloseWindow, CloseWindow);
    FrameDepthSnocOther(rt.log, CloseWindow);
    rt.log := rt.log + [CloseWindow];
    rt.windows := rt.windows - {w};
  }

  /** `Window::set_title`: one `SetWindowTitle`. The title must not contain a NUL byte. */
  method SetTitle(rt: Runtime, w: Window, title: string)
    requires rt.Valid() && w in rt.windows && NoNul(title)
    modifies rt
    ensures rt.Valid()
    ensures rt.log == old(rt.log) + [SetWindowTitle(title)]
    ensures rt.windows == old(rt.windows) && rt.canvasOpen == old(rt.canvasOpen)
  {
    AppendNeutral(rt.log, SetWindowTitle(title));
    rt.log := rt.log + [SetWindowTitle(title)];
  }

  /** `Window::set_clipboard`: one `SetClipboardText`. The text must not contain a NUL byte. */
  method SetClipboard(rt: Runtime, w: Window, text: string)
    requires rt.Valid() && w in rt.windows && NoNul(text)
    modifies rt
    ensures rt.Valid()
    ensures rt.log == old(rt.log) + [SetClipboardText(text)]
    ensures rt.windows == old(rt.windows) && rt.canvasOpen == old(rt.canvasOpen)
  {
    AppendNeutral(rt.log, SetClipboardText(text));
    rt.log := rt.log + [SetClipboardText(text)];
  }

  /**
   * With no once-only guard, two successful `create` calls in a row both
   * give a window, and two distinct ones.
   */
  method CreateTwice(rt: Runtime, width: i32, height: i32, title: string)
      returns (r1: Result<Window, Error>, r2: Result<Window, Error>)
    requires rt.Valid() && NoNul(title)
    modifies rt
    ensures rt.Valid()
    ensures r1.Ok? && r2.Ok? && r1.value != r2.value
    ensures rt.windows == old(rt.windows) + {r1.value, r2.value}
    ensures rt.log == old(rt.log) + CreateTrace(width, height, title, true) + CreateTrace(width, height, title, true)
  {
    r1 := Create(rt, width, height, title, true);
    r2 := Create(rt, width, height, title, true);
  }
}

/**
 * The window of src/window.rs: the `WindowBuilder` and its flag algebra,
 * the once-only `build` guarded by the `INITIALIZED` static, and the shared
 * `Rc<Handle>` whose last drop closes the window.
 *
 * The process state the wrapper relies on is a `Context`: the log of foreign
 * calls, the static flag, and the strong count of the handle together with
 * the values (windows and textures) that hold a clone of it.
 */
module Windows {
  import opened Wrappers
  import opened Ffi
  import opened CallLog

  // ---------------------------------------------------------------------
  // Builder
  // ---------------------------------------------------------------------

  /** The builder's four fields: configuration flags, size and title. */
  datatype WindowBuilder = WindowBuilder(flags: bv32, width: i32, height: i32, title: string)

  /** `b` and `r` agree on size, title and every flag bit outside `mask`. */
  predicate OnlyFlagsChanged(b: WindowBuilder, r: WindowBuilder, mask: bv32)
  {
    && r.width == b.width
    && r.height == b.height
    && r.title == b.title
    && r.flags & !mask == b.flags & !mask
  }

  /** Whether the flags ask for both fullscreen and a resizable window. */
  predicate BothModes(b: WindowBuilder)
  {
    b.flags & FLAG_FULLSCREEN_MODE != 0 && b.flags & FLAG_WINDOW_RESIZABLE != 0
  }

  /**
   * `WindowBuilder::default` (also what `new` returns): no flag, 800 by 450,
   * titled with the package name and version separated by one space.
   */
  function Default(pkgName: string, pkgVersion: string): (b: WindowBuilder)
    ensures b.flags == 0 && b.width == 800 && b.height == 450
    ensures b.title == pkgName + " " + pkgVersion
    ensures !BothModes(b)
  {
    WindowBuilder(0, 800, 450, pkgName + " " + pkgVersion)
  }

  /** `size`: replaces width and height, nothing else. */
  function Size(b: WindowBuilder, width: i32, height: i32): (r: WindowBuilder)
    ensures r.width == width && r.height == height
    ensures r.flags == b.flags && r.title == b.title
  {
    b.(width := width, height := height)
  }

  /** `title`: replaces the title, nothing else. */
  function Title(b: WindowBuilder, title: string): (r: WindowBuilder)
    ensures r.title == title
    ensures r.flags == b.flags && r.width == b.width && r.height == b.height
  {
    b.(title := title)
  }

  /** `fullscreen`: sets the fullscreen bit and clears the resizable one. */
  function Fullscreen(b: WindowBuilder): (r: WindowBuilder)
    ensures r.flags & FLAG_FULLSCREEN_MODE == FLAG_FULLSCREEN_MODE
    ensures r.flags & FLAG_WINDOW_RESIZABLE == 0
    ensures OnlyFlagsChanged(b, r, FLAG_FULLSCREEN_MODE | FLAG_WINDOW_RESIZABLE)
  {
    b.(flags := (b.flags | FLAG_FULLSCREEN_MODE) & !FLAG_WINDOW_RESIZABLE)
  }

  /** `resizable`: sets the resizable bit and clears the fullscreen one. */
  function Resizable(b: WindowBuilder): (r: WindowBuilder)
    ensures r.flags & FLAG_WINDOW_RESIZABLE == FLAG_WINDOW_RESIZABLE
    ensures r.flags & FLAG_FULLSCREEN_MODE == 0
    ensures OnlyFlagsChanged(b, r, FLAG_FULLSCREEN_MODE | FLAG_WINDOW_RESIZABLE)
  {
    b.(flags := (b.flags | FLAG_WINDOW_RESIZABLE) & !FLAG_FULLSCREEN_MODE)
  }

  /** `undecorated`: ORs in its own bit. */
  function Undecorated(b: WindowBuilder): (r: WindowBuilder)
    ensures r.flags & FLAG_WINDOW_UNDECORATED == FLAG_WINDOW_UNDECORATED
    ensures OnlyFlagsChanged(b, r, FLAG_WINDOW_UNDECORATED)
  {
    b.(flags := b.flags | FLAG_WINDOW_UNDECORATED)
  }

  /** `transparent`: ORs in its own bit. */
  function Transparent(b: WindowBuilder): (r: WindowBuilder)
    ensures r.flags & FLAG_WINDOW_TRANSPARENT == FLAG_WINDOW_TRANSPARENT
    ensures OnlyFlagsChanged(b, r, FLAG_WINDOW_TRANSPARENT)
  {
    b.(flags := b.flags | FLAG_WINDOW_TRANSPARENT)
  }

  /** `hidden`: ORs in its own bit. */
  function Hidden(b: WindowBuilder): (r: WindowBuilder)
    ensures r.flags & FLAG_WINDOW_HIDDEN == FLAG_WINDOW_HIDDEN
    ensures OnlyFlagsChanged(b, r, FLAG_WINDOW_HIDDEN)
  {
    b.(flags := b.flags | FLAG_WINDOW_HIDDEN)
  }

  /** `always_run`: ORs in its own bit. */
  function AlwaysRun(b: WindowBuilder): (r: WindowBuilder)
    ensures r.flags & FLAG_WINDOW_ALWAYS_RUN == FLAG_WINDOW_ALWAYS_RUN
    ensures OnlyFlagsChanged(b, r, FLAG_WINDOW_ALWAYS_RUN)
  {
    b.(flags := b.flags | FLAG_WINDOW_ALWAYS_RUN)
  }

  /** `msaa_4x`: ORs in its own bit. */
  function Msaa4x(b: WindowBuilder): (r: WindowBuilder)
    ensures r.flags & FLAG_MSAA_4X_HINT == FLAG_MSAA_4X_HINT
    ensures OnlyFlagsChanged(b, r, FLAG_MSAA_4X_HINT)
  {
    b.(flags := b.flags | FLAG_MSAA_4X_HINT)
  }

  /** `vsync`: ORs in its own bit. */
  function Vsync(b: WindowBuilder): (r: WindowBuilder)
    ensures r.flags & FLAG_VSYNC_HINT == FLAG_VSYNC_HINT
    ensures OnlyFlagsChanged(b, r, FLAG_VSYNC_HINT)
  {
    b.(flags := b.flags | FLAG_VSYNC_HINT)
  }

  /** Every flag setter is idempotent. */
  lemma SettersIdempotent(b: WindowBuilder)
    ensures Fullscreen(Fullscreen(b)) == Fullscreen(b)
    ensures Resizable(Resizable(b)) == Resizable(b)
    ensures Undecorated(Undecorated(b)) == Undecorated(b)
    ensures Transparent(Transparent(b)) == Transparent(b)
    ensures Hidden(Hidden(b)) == Hidden(b)
    ensures AlwaysRun(AlwaysRun(b)) == AlwaysRun(b)
    ensures Msaa4x(Msaa4x(b)) == Msaa4x(b)
    ensures Vsync(Vsync(b)) == Vsync(b)
  {
    FullscreenIdempotent(b);
    ResizableIdempotent(b);
    UndecoratedIdempotent(b);
    TransparentIdempotent(b);
    HiddenIdempotent(b);
    AlwaysRunIdempotent(b);
    Msaa4xIdempotent(b);
    VsyncIdempotent(b);
  }

  lemma FullscreenIdempotent(b: WindowBuilder)
    ensures Fullscreen(Fullscreen(b)) == Fullscreen(b)
  {
    SetClearIdempotent(b.flags, FLAG_FULLSCREEN_MODE, FLAG_WINDOW_RESIZABLE);
  }

  lemma ResizableIdempotent(b: WindowBuilder)
    ensures Resizable(Resizable(b)) == Resizable(b)
  {
    SetClearIdempotent(b.flags, FLAG_WINDOW_RESIZABLE, FLAG_FULLSCREEN_MODE);
  }

  lemma UndecoratedIdempotent(b: WindowBuilder)
    ensures Undecorated(Undecorated(b)) == Undecorated(b)
  {
    OrIdempotent(b.flags, FLAG_WINDOW_UNDECORATED);
  }

  lemma TransparentIdempotent(b: WindowBuilder)
    ensures Transparent(Transparent(b)) == Transparent(b)
  {
    OrIdempotent(b.flags, FLAG_WINDOW_TRANSPARENT);
  }

  lemma HiddenIdempotent(b: WindowBuilder)
    ensures Hidden(Hidden(b)) == Hidden(b)
  {
    OrIdempotent(b.flags, FLAG_WINDOW_HIDDEN);
  }

  lemma AlwaysRunIdempotent(b: WindowBuilder)
    ensures AlwaysRun(AlwaysRun(b)) == AlwaysRun(b)
  {
    OrIdempotent(b.flags, FLAG_WINDOW_ALWAYS_RUN);
  }

  lemma Msaa4xIdempotent(b: WindowBuilder)
    ensures Msaa4x(Msaa4x(b)) == Msaa4x(b)
  {
    OrIdempotent(b.flags, FLAG_MSAA_4X_HINT);
  }

  lemma VsyncIdempotent(b: WindowBuilder)
    ensures Vsync(Vsync(b)) == Vsync(b)
  {
    OrIdempotent(b.flags, FLAG_VSYNC_HINT);
  }

  /** ORing the same bits in twice is ORing them in once. */
  lemma OrIdempotent(f: bv32, bit: bv32)
    ensures (f | bit) | bit == f | bit
  {
  }

  /** Setting one bit and clearing another, twice, is doing it once. */
  lemma SetClearIdempotent(f: bv32, on: bv32, off: bv32)
    requires on & off == 0
    ensures (((f | on) & !off) | on) & !off == (f | on) & !off
  {
  }

  /** The last of `fullscreen` and `resizable` wins. */
  lemma LastModeWins(b: WindowBuilder)
    ensures Resizable(Fullscreen(b)) == Resizable(b)
    ensures Fullscreen(Resizable(b)) == Fullscreen(b)
  {
  }

  /** One builder method call, as a chain of them would be written. */
  datatype Setter =
    | SetSize(width: i32, height: i32)
    | SetTitle(title: string)
    | SetFullscreen
    | SetResizable
    | SetUndecorated
    | SetTransparent
    | SetHidden
    | SetAlwaysRun
    | SetMsaa4x
    | SetVsync

  /** The builder after one setter. */
  function Step(b: WindowBuilder, s: Setter): WindowBuilder
  {
    match s
    case SetSize(w, h) => Size(b, w, h)
    case SetTitle(t) => Title(b, t)
    case SetFullscreen => Fullscreen(b)
    case SetResizable => Resizable(b)
    case SetUndecorated => Undecorated(b)
    case SetTransparent => Transparent(b)
    case SetHidden => Hidden(b)
    case SetAlwaysRun => AlwaysRun(b)
    case SetMsaa4x => Msaa4x(b)
    case SetVsync => Vsync(b)
  }

  /** The builder after a chain of setters, applied left to right. */
  function Apply(b: WindowBuilder, chain: seq<Setter>): WindowBuilder
    decreases |chain|
  {
    if chain == [] then b else Apply(Step(b, chain[0]), chain[1..])
  }

  /** No single setter makes the fullscreen and resizable bits both set. */
  lemma StepKeepsModesExclusive(b: WindowBuilder, s: Setter)
    requires !BothModes(b)
    ensures !BothModes(Step(b, s))
  {
    var mask := FLAG_FULLSCREEN_MODE | FLAG_WINDOW_RESIZABLE;
    match s
    case SetUndecorated =>
      assert Undecorated(b).flags & mask == b.flags & mask;
    case SetTransparent =>
      assert Transparent(b).flags & mask == b.flags & mask;
    case SetHidden =>
      assert Hidden(b).flags & mask == b.flags & mask;
    case SetAlwaysRun =>
      assert AlwaysRun(b).flags & mask == b.flags & mask;
    case SetMsaa4x =>
      assert Msaa4x(b).flags & mask == b.flags & mask;
    case SetVsync =>
      assert Vsync(b).flags & mask == b.flags & mask;
    case _ =>
  }

  /** No chain of setters makes the fullscreen and resizable bits both set. */
  lemma {:induction false} ChainKeepsModesExclusive(b: WindowBuilder, chain: seq<Setter>)
    requires !BothModes(b)
    ensures !BothModes(Apply(b, chain))
    decreases |chain|
  {
    if chain != [] {
      StepKeepsModesExclusive(b, chain[0]);
      ChainKeepsModesExclusive(Step(b, chain[0]), chain[1..]);
    }
  }

  /** Starting from the default builder, fullscreen and resizable are never both requested. */
  lemma DefaultNeverBothModes(pkgName: string, pkgVersion: string, chain: seq<Setter>)
    ensures !BothModes(Apply(Default(pkgName, pkgVersion), chain))
  {
    ChainKeepsModesExclusive(Default(pkgName, pkgVersion), chain);
  }

  // ---------------------------------------------------------------------
  // Process state: the log, the static flag and the shared handle
  // ---------------------------------------------------------------------

  /** Kinds of window creation errors (src/window.rs:25-28). */
  datatype CreateWindowError = InitializationFailed | AlreadyCreated

  /**
   * A `Window`. It owns one clone of the shared `Rc<Handle>`; its identity is
   * what the context's `holders` counts.
   */
  class Window {
    constructor()
    {
    }
  }

  /** The state the wrapper's windows and textures share. */
  class Context {
    /** Foreign calls made so far, oldest first. */
    var log: seq<Call>
    /** The `INITIALIZED` static of `build`: set once, never reset. */
    var initialized: bool
    /** Strong count of the `Rc<Handle>`; 0 when no handle exists (any more). */
    var strong: nat
    /** The windows and textures that hold a clone of the handle. */
    ghost var holders: set<object>
    /** Whether a `Canvas` is alive, that is, whether a `draw` is in progress. */
    var canvasOpen: bool

    /**
     * The strong count is the number of holders; a window was made ready at
     * most once and exactly when the flag was set; `CloseWindow` was issued
     * exactly when the last holder went; drawing brackets never nest and one
     * is open only while a handle is alive.
     */
    ghost predicate Valid()
      reads this
    {
      && strong == |holders|
      && (strong > 0 ==> initialized)
      && Occurrences(log, IsWindowReady(true)) == (if initialized then 1 else 0)
      && Occurrences(log, CloseWindow) == (if initialized && strong == 0 then 1 else 0)
      && FrameDepth(log) == Some(if canvasOpen then 1 else 0)
      && (canvasOpen ==> strong > 0)
    }

    /** The state at program start: nothing called, flag clear, no handle. */
    constructor()
      ensures Valid()
      ensures log == [] && !initialized && strong == 0 && holders == {} && !canvasOpen
    {
      log := [];
      initialized := false;
      strong := 0;
      holders := {};
      canvasOpen := false;
    }
  }

  /** The calls `build` makes when the flag is clear. */
  function BuildTrace(b: WindowBuilder, ready: bool): seq<Call>
  {
    [SetConfigFlags(b.flags), InitWindow(b.width, b.height, b.title), IsWindowReady(ready)]
  }

  /** The calls of `build` count one readiness answer when it is positive, and no bracket or close. */
  lemma BuildCalls(log: seq<Call>, b: WindowBuilder, ready: bool)
    ensures Occurrences(log + BuildTrace(b, ready), IsWindowReady(true)) == Occurrences(log, IsWindowReady(true)) + (if ready then 1 else 0)
    ensures Occurrences(log + BuildTrace(b, ready), CloseWindow) == Occurrences(log, CloseWindow)
    ensures FrameDepth(log + BuildTrace(b, ready)) == FrameDepth(log)
  {
    var l1 := log + [SetConfigFlags(b.flags)];
    var l2 := l1 + [InitWindow(b.width, b.height, b.title)];
    AppendNeutral(log, SetConfigFlags(b.flags));
    AppendNeutral(l1, InitWindow(b.width, b.height, b.title));
    OccurrencesSnoc(l2, IsWindowReady(ready), IsWindowReady(true));
    OccurrencesSnoc(l2, IsWindowReady(ready), CloseWindow);
    FrameDepthSnocOther(l2, IsWindowReady(ready));
    assert log + BuildTrace(b, ready) == l2 + [IsWindowReady(ready)];
  }

  /**
   * `WindowBuilder::build`. Once the flag is set it fails with
   * `AlreadyCreated` and calls nothing. Otherwise it configures the flags,
   * opens the window and asks whether it is ready (`ready` is raylib's
   * answer); only a ready window sets the flag and yields a `Window` holding
   * the first and only clone of a new handle.
   *
   * The title must not contain a NUL byte: the conversion to a C string
   * panics otherwise, after `SetConfigFlags` was issued.
   */
  method Build(ctx: Context, b: WindowBuilder, ready: bool) returns (r: Result<Window, CreateWindowError>)
    requires ctx.Valid()
    requires !ctx.initialized ==> NoNul(b.title)
    modifies ctx
    ensures ctx.Valid()
    ensures old(ctx.initialized) ==> r == Err(AlreadyCreated) && unchanged(ctx)
    ensures !old(ctx.initialized) ==>
      ctx.log == old(ctx.log) + BuildTrace(b, ready)
    ensures !old(ctx.initialized) && ready ==>
      && r.Ok? && fresh(r.value)
      && ctx.initialized && ctx.strong == 1 && ctx.holders == {r.value}
    ensures !old(ctx.initialized) && !ready ==>
      && r == Err(InitializationFailed)
      && !ctx.initialized && ctx.strong == 0 && ctx.holders == {}
    ensures ctx.canvasOpen == old(ctx.canvasOpen)
  {
    if ctx.initialized {
      return Err(AlreadyCreated);
    }
    BuildCalls(ctx.log, b, ready);
    ctx.log := ctx.log + BuildTrace(b, ready);
    if ready {
      ctx.initialized := true;
      var w := new Window();
      ctx.strong := 1;
      ctx.holders := {w};
      r := Ok(w);
    } else {
      r := Err(InitializationFailed);
    }
  }

  /**
   * Dropping one clone of the `Rc<Handle>` (a window being dropped, or the
   * end of a texture's drop). When it was the last clone, `Handle::drop`
   * issues `CloseWindow`. `draw` borrows the window while the canvas is
   * open, so while one is open the released clone is not the last.
   */
  method ReleaseHandle(ctx: Context, holder: object)
    requires ctx.Valid() && holder in ctx.holders
    requires ctx.canvasOpen ==> ctx.strong > 1
    modifies ctx
    ensures ctx.Valid()
    ensures ctx.holders == old(ctx.holders) - {holder}
    ensures ctx.strong == old(ctx.strong) - 1
    ensures ctx.log == old(ctx.log) + (if ctx.strong == 0 then [CloseWindow] else [])
    ensures ctx.initialized == old(ctx.initialized) && ctx.canvasOpen == old(ctx.canvasOpen)
  {
    ctx.holders := ctx.holders - {holder};
    ctx.strong := ctx.strong - 1;
    if ctx.strong == 0 {
      OccurrencesSnoc(ctx.log, CloseWindow, IsWindowReady(true));
      OccurrencesSnoc(ctx.log, CloseWindow, CloseWindow);
      FrameDepthSnocOther(ctx.log, CloseWindow);
      ctx.log := ctx.log + [CloseWindow];
    }
  }

  /** At most one `build` ever succeeded: the log holds at most one successful readiness query. */
  lemma AtMostOneWindow(ctx: Context)
    requires ctx.Valid()
    ensures Occurrences(ctx.log, IsWindowReady(true)) <= 1
    ensures ctx.initialized <==> IsWindowReady(true) in ctx.log
  {
    OccurrencesZero(ctx.log, IsWindowReady(true));
  }

  /** While anything holds the handle, `CloseWindow` has not been issued. */
  lemma HeldHandleNotClosed(ctx: Context, holder: object)
    requires ctx.Valid() && holder in ctx.holders
    ensures CloseWindow !in ctx.log
  {
    OccurrencesZero(ctx.log, CloseWindow);
  }

  /**
   * A second `build` after a successful one fails with `AlreadyCreated`,
   * whatever the builder, and changes nothing.
   */
  method BuildTwice(ctx: Context, first: WindowBuilder, second: WindowBuilder)
      returns (r1: Result<Window, CreateWindowError>, r2: Result<Window, CreateWindowError>)
    requires ctx.Valid() && !ctx.initialized && NoNul(first.title)
    modifies ctx
    ensures ctx.Valid()
    ensures r1.Ok? && r2 == Err(AlreadyCreated)
    ensures ctx.log == old(ctx.log) + BuildTrace(first, true)
  {
    r1 := Build(ctx, first, true);
    r2 := Build(ctx, second, true);
  }
}

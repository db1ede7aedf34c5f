/**
 * The drawing bracket of src/drawing.rs: a `Canvas` issues `BeginDrawing`
 * when it is made and `EndDrawing` when it is dropped, and `Window::draw`
 * runs the caller's closure on a fresh canvas in between.
 *
 * The closure is modelled as the script of canvas operations it performs.
 */
module Drawing {
  import opened Wrappers
  import opened Ffi
  import opened CallLog
  import opened Windows
  import opened Textures
  import Colors

  /** `Canvas::new`: opens the bracket. A window must be alive. */
  method NewCanvas(ctx: Context)
    requires ctx.Valid() && !ctx.canvasOpen && ctx.strong > 0
    modifies ctx
    ensures ctx.Valid() && ctx.canvasOpen
    ensures ctx.log == old(ctx.log) + [BeginDrawing]
    ensures ctx.initialized == old(ctx.initialized) && ctx.strong == old(ctx.strong)
    ensures ctx.holders == old(ctx.holders)
  {
    OccurrencesSnoc(ctx.log, BeginDrawing, IsWindowReady(true));
    OccurrencesSnoc(ctx.log, BeginDrawing, CloseWindow);
    FrameDepthSnocBegin(ctx.log);
    ctx.log := ctx.log + [BeginDrawing];
    ctx.canvasOpen := true;
  }

  /** `Drop for Canvas`: closes the bracket. */
  method DropCanvas(ctx: Context)
    requires ctx.Valid() && ctx.canvasOpen
    modifies ctx
    ensures ctx.Valid() && !ctx.canvasOpen
    ensures ctx.log == old(ctx.log) + [EndDrawing]
    ensures ctx.initialized == old(ctx.initialized) && ctx.strong == old(ctx.strong)
    ensures ctx.holders == old(ctx.holders)
  {
    OccurrencesSnoc(ctx.log, EndDrawing, IsWindowReady(true));
    OccurrencesSnoc(ctx.log, EndDrawing, CloseWindow);
    FrameDepthSnocEnd(ctx.log);
    ctx.log := ctx.log + [EndDrawing];
    ctx.canvasOpen := false;
  }

  /** `Canvas::clear_background`: one `ClearBackground` with the color converted field by field. */
  method ClearBackground(ctx: Context, color: Colors.Color)
    requires ctx.Valid() && ctx.canvasOpen
    modifies ctx
    ensures ctx.Valid()
    ensures ctx.log == old(ctx.log) + [Call.ClearBackground(Colors.ToFfi(color))]
    ensures ctx.initialized == old(ctx.initialized) && ctx.strong == old(ctx.strong)
    ensures ctx.holders == old(ctx.holders) && ctx.canvasOpen == old(ctx.canvasOpen)
  {
    var call := Call.ClearBackground(Colors.ToFfi(color));
    AppendNeutral(ctx.log, call);
    ctx.log := ctx.log + [call];
  }

  /** One canvas operation a closure passed to `draw` can perform. */
  datatype CanvasOp =
    | Clear(color: Colors.Color)
    | Blit(texture: Texture, x: i32, y: i32, tint: Colors.Color)

  /** The foreign call an operation issues. */
  function OpCall(op: CanvasOp): (c: Call)
    ensures c != BeginDrawing && c != EndDrawing && c != CloseWindow && c != IsWindowReady(true)
  {
    match op
    case Clear(color) => Call.ClearBackground(Colors.ToFfi(color))
    case Blit(t, x, y, tint) => Call.DrawTexture(t.raw, x, y, Colors.ToFfi(tint))
  }

  /**
   * The calls a script of operations issues, one per operation, in order.
   * `CoreDrawing.OpCalls` is the same fold over the older canvas's operations.
   */
  function OpCalls(ops: seq<CanvasOp>): (calls: seq<Call>)
    ensures |calls| == |ops|
    ensures BeginDrawing !in calls && EndDrawing !in calls
  {
    if ops == [] then [] else OpCalls(ops[..|ops| - 1]) + [OpCall(ops[|ops| - 1])]
  }

  /** Whether every texture a script draws is among `live`. */
  ghost predicate Drawable(ops: seq<CanvasOp>, live: set<object>)
  {
    forall i :: 0 <= i < |ops| && ops[i].Blit? ==> ops[i].texture in live
  }

  /** Extending a script by one operation extends its calls by that operation's call. */
  lemma OpCallsSnoc(ops: seq<CanvasOp>, i: nat)
    requires i < |ops|
    ensures OpCalls(ops[..i + 1]) == OpCalls(ops[..i]) + [OpCall(ops[i])]
  {
    assert ops[..i + 1][..i] == ops[..i];
  }

  /** Performs one operation on the open canvas. */
  method RunOp(ctx: Context, op: CanvasOp)
    requires ctx.Valid() && ctx.canvasOpen
    requires op.Blit? ==> op.texture in ctx.holders
    modifies ctx
    ensures ctx.Valid() && ctx.canvasOpen
    ensures ctx.log == old(ctx.log) + [OpCall(op)]
    ensures ctx.initialized == old(ctx.initialized) && ctx.strong == old(ctx.strong)
    ensures ctx.holders == old(ctx.holders)
  {
    match op
    case Clear(color) =>
      ClearBackground(ctx, color);
    case Blit(t, x, y, tint) =>
      Textures.DrawTexture(ctx, t, x, y, tint);
  }

  /** Performs a script of operations on the open canvas, in order. */
  method RunOps(ctx: Context, ops: seq<CanvasOp>)
    requires ctx.Valid() && ctx.canvasOpen
    requires Drawable(ops, ctx.holders)
    modifies ctx
    ensures ctx.Valid() && ctx.canvasOpen
    ensures ctx.log == old(ctx.log) + OpCalls(ops)
    ensures ctx.initialized == old(ctx.initialized) && ctx.strong == old(ctx.strong)
    ensures ctx.holders == old(ctx.holders)
  {
    var i := 0;
    while i < |ops|
      invariant 0 <= i <= |ops|
      invariant ctx.Valid() && ctx.canvasOpen
      invariant ctx.log == old(ctx.log) + OpCalls(ops[..i])
      invariant ctx.initialized == old(ctx.initialized) && ctx.strong == old(ctx.strong)
      invariant ctx.holders == old(ctx.holders)
    {
      RunOp(ctx, ops[i]);
      OpCallsSnoc(ops, i);
      i := i + 1;
    }
    assert ops[..i] == ops;
  }

  /**
   * `Window::draw`: a canvas is made, the closure's operations run on it in
   * order, and the canvas is dropped when the closure returns, so the log
   * gains exactly one frame. Every texture the script draws must be alive.
   */
  method Draw(ctx: Context, window: Window, ops: seq<CanvasOp>)
    requires ctx.Valid() && window in ctx.holders && !ctx.canvasOpen
    requires Drawable(ops, ctx.holders)
    modifies ctx
    ensures ctx.Valid() && !ctx.canvasOpen
    ensures ctx.log == old(ctx.log) + Bracketed(OpCalls(ops))
    ensures ctx.initialized == old(ctx.initialized) && ctx.strong == old(ctx.strong)
    ensures ctx.holders == old(ctx.holders)
  {
    NewCanvas(ctx);
    RunOps(ctx, ops);
    DropCanvas(ctx);
    BracketedAppend(old(ctx.log), OpCalls(ops));
  }
}

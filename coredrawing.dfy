/**
 * The older canvas of src/core/drawing.rs and the `draw` of
 * src/core/window.rs: the same begin-on-creation, end-on-drop bracket, with
 * one forwarded call per drawing method.
 *
 * The closure given to `draw` is modelled as the script of canvas
 * operations it performs.
 */
module CoreDrawing {
  import opened Wrappers
  import opened Ffi
  import opened CallLog
  import opened CoreWindow
  import Colors
  import Math

  /**
   * The texture of src/core/texture.rs, reduced to the raw record every
   * operation here reads.
   */
  datatype Texture = Texture(raw: Texture2D)

  /** `Canvas::new`: opens the bracket. A window must be alive. */
  method NewCanvas(rt: Runtime)
    requires rt.Valid() && !rt.canvasOpen && |rt.windows| > 0
    modifies rt
    ensures rt.Valid() && rt.canvasOpen
    ensures rt.log == old(rt.log) + [BeginDrawing]
    ensures rt.windows == old(rt.windows)
  {
    OccurrencesSnoc(rt.log, BeginDrawing, IsWindowReady(true));
    OccurrencesSnoc(rt.log, BeginDrawing, CloseWindow);
    FrameDepthSnocBegin(rt.log);
    rt.log := rt.log + [BeginDrawing];
    rt.canvasOpen := true;
  }

  /** `Drop for Canvas`: closes the bracket. */
  method DropCanvas(rt: Runtime)
    requires rt.Valid() && rt.canvasOpen
    modifies rt
    ensures rt.Valid() && !rt.canvasOpen
    ensures rt.log == old(rt.log) + [EndDrawing]
    ensures rt.windows == old(rt.windows)
  {
    OccurrencesSnoc(rt.log, EndDrawing, IsWindowReady(true));
    OccurrencesSnoc(rt.log, EndDrawing, CloseWindow);
    FrameDepthSnocEnd(rt.log);
    rt.log := rt.log + [EndDrawing];
    rt.canvasOpen := false;
  }

  /** Appends one call other than a bracket, a close or a readiness answer, on the open canvas. */
  method Issue(rt: Runtime, call: Call)
    requires rt.Valid() && rt.canvasOpen
    requires call != BeginDrawing && call != EndDrawing && call != CloseWindow && call != IsWindowReady(true)
    modifies rt
    ensures rt.Valid() && rt.canvasOpen
    ensures rt.log == old(rt.log) + [call]
    ensures rt.windows == old(rt.windows)
  {
    AppendNeutral(rt.log, call);
    rt.log := rt.log + [call];
  }

  /** `clear_background`: one `ClearBackground` with the color converted field by field. */
  method ClearBackground(rt: Runtime, color: Colors.Color)
    requires rt.Valid() && rt.canvasOpen
    modifies rt
    ensures rt.Valid() && rt.canvasOpen
    ensures rt.log == old(rt.log) + [Call.ClearBackground(Colors.ToFfi(color))]
    ensures rt.windows == old(rt.windows)
  {
    Issue(rt, Call.ClearBackground(Colors.ToFfi(color)));
  }

  /** `draw_text`: one `DrawText`. The text must not contain a NUL byte (it panics otherwise). */
  method DrawText(rt: Runtime, text: string, x: i32, y: i32, size: i32, color: Colors.Color)
    requires rt.Valid() && rt.canvasOpen && NoNul(text)
    modifies rt
    ensures rt.Valid() && rt.canvasOpen
    ensures rt.log == old(rt.log) + [Call.DrawText(text, x, y, size, Colors.ToFfi(color))]
    ensures rt.windows == old(rt.windows)
  {
    Issue(rt, Call.DrawText(text, x, y, size, Colors.ToFfi(color)));
  }

  /** `draw_circle`: one `DrawCircle`. */
  method DrawCircle(rt: Runtime, x: i32, y: i32, radius: real, color: Colors.Color)
    requires rt.Valid() && rt.canvasOpen
    modifies rt
    ensures rt.Valid() && rt.canvasOpen
    ensures rt.log == old(rt.log) + [Call.DrawCircle(x, y, radius, Colors.ToFfi(color))]
    ensures rt.windows == old(rt.windows)
  {
    Issue(rt, Call.DrawCircle(x, y, radius, Colors.ToFfi(color)));
  }

  /** `draw_circle_vec`: one `DrawCircleV` with the center converted component by component. */
  method DrawCircleVec(rt: Runtime, center: Math.Vector2, radius: real, color: Colors.Color)
    requires rt.Valid() && rt.canvasOpen
    modifies rt
    ensures rt.Valid() && rt.canvasOpen
    ensures rt.log == old(rt.log) + [Call.DrawCircleV(Math.Vector2ToFfi(center), radius, Colors.ToFfi(color))]
    ensures rt.windows == old(rt.windows)
  {
    Issue(rt, Call.DrawCircleV(Math.Vector2ToFfi(center), radius, Colors.ToFfi(color)));
  }

  /** `draw_rectangle`: one `DrawRectangle`. */
  method DrawRectangle(rt: Runtime, x: i32, y: i32, width: i32, height: i32, color: Colors.Color)
    requires rt.Valid() && rt.canvasOpen
    modifies rt
    ensures rt.Valid() && rt.canvasOpen
    ensures rt.log == old(rt.log) + [Call.DrawRectangle(x, y, width, height, Colors.ToFfi(color))]
    ensures rt.windows == old(rt.windows)
  {
    Issue(rt, Call.DrawRectangle(x, y, width, height, Colors.ToFfi(color)));
  }

  /** `draw_texture`: one `DrawTexture` carrying the texture's raw record unchanged. */
  method DrawTexture(rt: Runtime, texture: Texture, x: i32, y: i32, color: Colors.Color)
    requires rt.Valid() && rt.canvasOpen
    modifies rt
    ensures rt.Valid() && rt.canvasOpen
    ensures rt.log == old(rt.log) + [Call.DrawTexture(texture.raw, x, y, Colors.ToFfi(color))]
    ensures rt.windows == old(rt.windows)
  {
    Issue(rt, Call.DrawTexture(texture.raw, x, y, Colors.ToFfi(color)));
  }

  /** One canvas operation a closure passed to `draw` can perform. */
  datatype CanvasOp =
    | Clear(color: Colors.Color)
    | Text(text: string, x: i32, y: i32, size: i32, color: Colors.Color)
    | Circle(x: i32, y: i32, radius: real, color: Colors.Color)
    | CircleVec(center: Math.Vector2, radius: real, color: Colors.Color)
    | Rectangle(x: i32, y: i32, width: i32, height: i32, color: Colors.Color)
    | Blit(texture: Texture, x: i32, y: i32, color: Colors.Color)

  /** The foreign call an operation issues. */
  function OpCall(op: CanvasOp): (c: Call)
    ensures c != BeginDrawing && c != EndDrawing && c != CloseWindow && c != IsWindowReady(true)
  {
    match op
    case Clear(color) => Call.ClearBackground(Colors.ToFfi(color))
    case Text(text, x, y, size, color) => Call.DrawText(text, x, y, size, Colors.ToFfi(color))
    case Circle(x, y, radius, color) => Call.DrawCircle(x, y, radius, Colors.ToFfi(color))
    case CircleVec(center, radius, color) => Call.DrawCircleV(Math.Vector2ToFfi(center), radius, Colors.ToFfi(color))
    case Rectangle(x, y, w, h, color) => Call.DrawRectangle(x, y, w, h, Colors.ToFfi(color))
    case Blit(t, x, y, color) => Call.DrawTexture(t.raw, x, y, Colors.ToFfi(color))
  }

  /**
   * The calls a script of operations issues, one per operation, in order:
   * the fold of `Drawing.OpCalls` over this canvas's larger set of operations.
   */
  function OpCalls(ops: seq<CanvasOp>): (calls: seq<Call>)
    ensures |calls| == |ops|
    ensures BeginDrawing !in calls && EndDrawing !in calls
  {
    if ops == [] then [] else OpCalls(ops[..|ops| - 1]) + [OpCall(ops[|ops| - 1])]
  }

  /** Whether a script only draws text without NUL bytes, as `draw_text` demands. */
  predicate Printable(ops: seq<CanvasOp>)
  {
    forall i :: 0 <= i < |ops| && ops[i].Text? ==> NoNul(ops[i].text)
  }

  /** Extending a script by one operation extends its calls by that operation's call. */
  lemma OpCallsSnoc(ops: seq<CanvasOp>, i: nat)
    requires i < |ops|
    ensures OpCalls(ops[..i + 1]) == OpCalls(ops[..i]) + [OpCall(ops[i])]
  {
    assert ops[..i + 1][..i] == ops[..i];
  }

  /** Performs one operation on the open canvas through its drawing method. */
  method RunOp(rt: Runtime, op: CanvasOp)
    requires rt.Valid() && rt.canvasOpen
    requires op.Text? ==> NoNul(op.text)
    modifies rt
    ensures rt.Valid() && rt.canvasOpen
    ensures rt.log == old(rt.log) + [OpCall(op)]
    ensures rt.windows == old(rt.windows)
  {
    match op
    case Clear(color) => ClearBackground(rt, color);
    case Text(text, x, y, size, color) => DrawText(rt, text, x, y, size, color);
    case Circle(x, y, radius, color) => DrawCircle(rt, x, y, radius, color);
    case CircleVec(center, radius, color) => DrawCircleVec(rt, center, radius, color);
    case Rectangle(x, y, w, h, color) => DrawRectangle(rt, x, y, w, h, color);
    case Blit(t, x, y, color) => DrawTexture(rt, t, x, y, color);
  }

  /** Performs a script of operations on the open canvas, in order. */
  method RunOps(rt: Runtime, ops: seq<CanvasOp>)
    requires rt.Valid() && rt.canvasOpen
    requires Printable(ops)
    modifies rt
    ensures rt.Valid() && rt.canvasOpen
    ensures rt.log == old(rt.log) + OpCalls(ops)
    ensures rt.windows == old(rt.windows)
  {
    var i := 0;
    while i < |ops|
      invariant 0 <= i <= |ops|
      invariant rt.Valid() && rt.canvasOpen
      invariant rt.log == old(rt.log) + OpCalls(ops[..i])
      invariant rt.windows == old(rt.windows)
    {
      RunOp(rt, ops[i]);
      OpCallsSnoc(ops, i);
      i := i + 1;
    }
    assert ops[..i] == ops;
  }

  /**
   * `Window::draw` (src/core/window.rs): a canvas is made, the closure's
   * operations run on it in order, and the canvas is dropped when the
   * closure returns, so the log gains exactly one bracket around them.
   */
  method Draw(rt: Runtime, w: Window, ops: seq<CanvasOp>)
    requires rt.Valid() && w in rt.windows && !rt.canvasOpen
    requires Printable(ops)
    modifies rt
    ensures rt.Valid() && !rt.canvasOpen
    ensures rt.log == old(rt.log) + Bracketed(OpCalls(ops))
    ensures rt.windows == old(rt.windows)
  {
    NewCanvas(rt);
    RunOps(rt, ops);
    DropCanvas(rt);
    BracketedAppend(old(rt.log), OpCalls(ops));
  }
}

/**
 * Textures of src/texture.rs: loading one through a window, which clones the
 * window's handle; its size getters; drawing it on a canvas; and its drop,
 * which unloads it and then releases the handle clone.
 */
module Textures {
  import opened Wrappers
  import opened Ffi
  import opened CallLog
  import opened Windows
  import Colors

  /** Kinds of texture loading errors (src/texture.rs:13-15). */
  datatype LoadTextureError = ReadFailed

  /** A loaded texture: the raw record raylib returned plus a clone of the handle. */
  class Texture {
    /** The `ffi::Texture2D` record, never changed after loading. */
    const raw: Texture2D

    constructor(raw: Texture2D)
      ensures this.raw == raw
    {
      this.raw := raw;
    }

    /** `get_width`: the width of the loaded record. */
    function GetWidth(): (w: i32)
    {
      raw.width
    }

    /** `get_height`: the height of the loaded record. */
    function GetHeight(): (h: i32)
    {
      raw.height
    }
  }

  /**
   * `Window::load_texture`. raylib's answer to `LoadTexture(path)` is `raw`;
   * a non-zero id gives a texture that holds one more clone of the handle,
   * a zero id gives `ReadFailed` and leaves the holders alone.
   *
   * The path must not contain a NUL byte: the conversion to a C string
   * panics otherwise.
   */
  method LoadTexture(ctx: Context, window: Window, path: string, raw: Texture2D)
      returns (r: Result<Texture, LoadTextureError>)
    requires ctx.Valid() && window in ctx.holders
    requires NoNul(path)
    modifies ctx
    ensures ctx.Valid()
    ensures ctx.log == old(ctx.log) + [Call.LoadTexture(path, raw)]
    ensures raw.id != 0 ==>
      && r.Ok? && fresh(r.value)
      && r.value.raw == raw
      && r.value.GetWidth() == raw.width && r.value.GetHeight() == raw.height
      && ctx.holders == old(ctx.holders) + {r.value}
      && ctx.strong == old(ctx.strong) + 1
    ensures raw.id == 0 ==>
      && r == Err(ReadFailed)
      && ctx.holders == old(ctx.holders) && ctx.strong == old(ctx.strong)
    ensures ctx.initialized == old(ctx.initialized) && ctx.canvasOpen == old(ctx.canvasOpen)
  {
    AppendNeutral(ctx.log, Call.LoadTexture(path, raw));
    ctx.log := ctx.log + [Call.LoadTexture(path, raw)];
    if raw.id != 0 {
      var t := new Texture(raw);
      ctx.holders := ctx.holders + {t};
      ctx.strong := ctx.strong + 1;
      r := Ok(t);
    } else {
      r := Err(ReadFailed);
    }
  }

  /**
   * `Drop for Texture`: `UnloadTexture` with the texture's own record, then
   * the drop of its handle clone, which closes the window when it was the
   * last one.
   */
  method DropTexture(ctx: Context, t: Texture)
    requires ctx.Valid() && t in ctx.holders
    requires ctx.canvasOpen ==> ctx.strong > 1
    modifies ctx
    ensures ctx.Valid()
    ensures ctx.holders == old(ctx.holders) - {t}
    ensures ctx.strong == old(ctx.strong) - 1
    ensures ctx.log == old(ctx.log) + [UnloadTexture(t.raw)] + (if ctx.strong == 0 then [CloseWindow] else [])
    ensures ctx.initialized == old(ctx.initialized) && ctx.canvasOpen == old(ctx.canvasOpen)
  {
    AppendNeutral(ctx.log, UnloadTexture(t.raw));
    ctx.log := ctx.log + [UnloadTexture(t.raw)];
    ReleaseHandle(ctx, t);
  }

  /**
   * `Canvas::draw_texture`: one `DrawTexture` carrying the texture's record,
   * the position and the tint unchanged. It needs an open canvas.
   */
  method DrawTexture(ctx: Context, t: Texture, x: i32, y: i32, tint: Colors.Color)
    requires ctx.Valid() && ctx.canvasOpen && t in ctx.holders
    modifies ctx
    ensures ctx.Valid()
    ensures ctx.log == old(ctx.log) + [Call.DrawTexture(t.raw, x, y, Colors.ToFfi(tint))]
    ensures ctx.initialized == old(ctx.initialized) && ctx.strong == old(ctx.strong)
    ensures ctx.holders == old(ctx.holders) && ctx.canvasOpen == old(ctx.canvasOpen)
  {
    var call := Call.DrawTexture(t.raw, x, y, Colors.ToFfi(tint));
    AppendNeutral(ctx.log, call);
    ctx.log := ctx.log + [call];
  }

  /**
   * Load, then drop, the only texture of a window: the log gains the load
   * and the unload, in that order, and the window stays open.
   */
  method LoadThenDrop(ctx: Context, window: Window, path: string, raw: Texture2D)
    requires ctx.Valid() && window in ctx.holders && NoNul(path) && raw.id != 0
    modifies ctx
    ensures ctx.Valid()
    ensures ctx.log == old(ctx.log) + [Call.LoadTexture(path, raw), UnloadTexture(raw)]
    ensures ctx.holders == old(ctx.holders) && CloseWindow !in ctx.log
  {
    var r := LoadTexture(ctx, window, path, raw);
    var t := r.value;
    DropTexture(ctx, t);
    HeldHandleNotClosed(ctx, window);
  }
}

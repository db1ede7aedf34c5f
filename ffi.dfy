/**
 * The foreign boundary of src/ffi.rs: the raylib constants the wrapper uses,
 * the plain-data records that cross the boundary, and one `Call` per foreign
 * function the modelled core invokes. The foreign functions themselves are not
 * modelled; a call shows up only as an entry appended to a log, together with
 * the value the foreign side returned when it returns one.
 */
module Ffi {

  type u8 = x: int | 0 <= x < 0x100
  type i32 = x: int | -0x8000_0000 <= x < 0x8000_0000
  type u32 = x: int | 0 <= x < 0x1_0000_0000

  // Alphanumeric keys (src/ffi.rs:7-48)
  const KEY_APOSTROPHE: i32 := 39
  const KEY_COMMA: i32 := 44
  const KEY_MINUS: i32 := 45
  const KEY_PERIOD: i32 := 46
  const KEY_SLASH: i32 := 47
  const KEY_ZERO: i32 := 48
  const KEY_ONE: i32 := 49
  const KEY_TWO: i32 := 50
  const KEY_THREE: i32 := 51
  const KEY_FOUR: i32 := 52
  const KEY_FIVE: i32 := 53
  const KEY_SIX: i32 := 54
  const KEY_SEVEN: i32 := 55
  const KEY_EIGHT: i32 := 56
  const KEY_NINE: i32 := 57
  const KEY_SEMICOLON: i32 := 59
  const KEY_EQUAL: i32 := 61
  const KEY_A: i32 := 65
  const KEY_B: i32 := 66
  const KEY_C: i32 := 67
  const KEY_D: i32 := 68
  const KEY_E: i32 := 69
  const KEY_F: i32 := 70
  const KEY_G: i32 := 71
  const KEY_H: i32 := 72
  const KEY_I: i32 := 73
  const KEY_J: i32 := 74
  const KEY_K: i32 := 75
  const KEY_L: i32 := 76
  const KEY_M: i32 := 77
  const KEY_N: i32 := 78
  const KEY_O: i32 := 79
  const KEY_P: i32 := 80
  const KEY_Q: i32 := 81
  const KEY_R: i32 := 82
  const KEY_S: i32 := 83
  const KEY_T: i32 := 84
  const KEY_U: i32 := 85
  const KEY_V: i32 := 86
  const KEY_W: i32 := 87
  const KEY_X: i32 := 88
  const KEY_Y: i32 := 89
  const KEY_Z: i32 := 90

  // Function keys (src/ffi.rs:51-96)
  const KEY_SPACE: i32 := 32
  const KEY_ESCAPE: i32 := 256
  const KEY_ENTER: i32 := 257
  const KEY_TAB: i32 := 258
  const KEY_BACKSPACE: i32 := 259
  const KEY_INSERT: i32 := 260
  const KEY_DELETE: i32 := 261
  const KEY_RIGHT: i32 := 262
  const KEY_LEFT: i32 := 263
  const KEY_DOWN: i32 := 264
  const KEY_UP: i32 := 265
  const KEY_PAGE_UP: i32 := 266
  const KEY_PAGE_DOWN: i32 := 267
  const KEY_HOME: i32 := 268
  const KEY_END: i32 := 269
  const KEY_CAPS_LOCK: i32 := 280
  const KEY_SCROLL_LOCK: i32 := 281
  const KEY_NUM_LOCK: i32 := 282
  const KEY_PRINT_SCREEN: i32 := 283
  const KEY_PAUSE: i32 := 284
  const KEY_F1: i32 := 290
  const KEY_F2: i32 := 291
  const KEY_F3: i32 := 292
  const KEY_F4: i32 := 293
  const KEY_F5: i32 := 294
  const KEY_F6: i32 := 295
  const KEY_F7: i32 := 296
  const KEY_F8: i32 := 297
  const KEY_F9: i32 := 298
  const KEY_F10: i32 := 299
  const KEY_F11: i32 := 300
  const KEY_F12: i32 := 301
  const KEY_LEFT_SHIFT: i32 := 340
  const KEY_LEFT_CONTROL: i32 := 341
  const KEY_LEFT_ALT: i32 := 342
  const KEY_LEFT_SUPER: i32 := 343
  const KEY_RIGHT_SHIFT: i32 := 344
  const KEY_RIGHT_CONTROL: i32 := 345
  const KEY_RIGHT_ALT: i32 := 346
  const KEY_RIGHT_SUPER: i32 := 347
  const KEY_KB_MENU: i32 := 348
  const KEY_LEFT_BRACKET: i32 := 91
  const KEY_BACKSLASH: i32 := 92
  const KEY_RIGHT_BRACKET: i32 := 93
  const KEY_GRAVE: i32 := 96

  // Keypad keys (src/ffi.rs:99-115); note KEY_KP_EQUAL is 33, far from the other keypad codes
  const KEY_KP_0: i32 := 320
  const KEY_KP_1: i32 := 321
  const KEY_KP_2: i32 := 322
  const KEY_KP_3: i32 := 323
  const KEY_KP_4: i32 := 324
  const KEY_KP_5: i32 := 325
  const KEY_KP_6: i32 := 326
  const KEY_KP_7: i32 := 327
  const KEY_KP_8: i32 := 328
  const KEY_KP_9: i32 := 329
  const KEY_KP_DECIMAL: i32 := 330
  const KEY_KP_DIVIDE: i32 := 331
  const KEY_KP_MULTIPLY: i32 := 332
  const KEY_KP_SUBTRACT: i32 := 333
  const KEY_KP_ADD: i32 := 334
  const KEY_KP_ENTER: i32 := 335
  const KEY_KP_EQUAL: i32 := 33

  // Mouse buttons (src/ffi.rs:118-120)
  const MOUSE_LEFT_BUTTON: i32 := 0
  const MOUSE_RIGHT_BUTTON: i32 := 1
  const MOUSE_MIDDLE_BUTTON: i32 := 2

  // Gamepad axes (src/ffi.rs:123-128)
  const GAMEPAD_AXIS_LEFT_X: i32 := 0
  const GAMEPAD_AXIS_LEFT_Y: i32 := 1
  const GAMEPAD_AXIS_RIGHT_X: i32 := 2
  const GAMEPAD_AXIS_RIGHT_Y: i32 := 3
  const GAMEPAD_AXIS_LEFT_TRIGGER: i32 := 4
  const GAMEPAD_AXIS_RIGHT_TRIGGER: i32 := 5

  // Gamepad numbers (src/ffi.rs:131-134)
  const GAMEPAD_PLAYER1: i32 := 0
  const GAMEPAD_PLAYER2: i32 := 1
  const GAMEPAD_PLAYER3: i32 := 2
  const GAMEPAD_PLAYER4: i32 := 3

  // System configuration flags, one bit each (src/ffi.rs:137-144)
  const FLAG_FULLSCREEN_MODE: bv32 := 2
  const FLAG_WINDOW_RESIZABLE: bv32 := 4
  const FLAG_WINDOW_UNDECORATED: bv32 := 8
  const FLAG_WINDOW_TRANSPARENT: bv32 := 16
  const FLAG_WINDOW_HIDDEN: bv32 := 128
  const FLAG_WINDOW_ALWAYS_RUN: bv32 := 256
  const FLAG_MSAA_4X_HINT: bv32 := 32
  const FLAG_VSYNC_HINT: bv32 := 64

  /** The C `Color` record: four unsigned bytes named r, g, b, a. */
  datatype Color = Color(r: u8, g: u8, b: u8, a: u8)

  /** The C `Texture2D` record; `id == 0` is raylib's failure sentinel. */
  datatype Texture2D = Texture2D(id: u32, width: i32, height: i32, mipmaps: i32, format: i32)

  /** The C `Vector2` record (f32 components, modelled as reals). */
  datatype Vector2 = Vector2(x: real, y: real)

  /**
   * One foreign call as the wrapper issues it. Calls that return something
   * carry the returned value: `IsWindowReady(ready)` and
   * `LoadTexture(fileName, texture)`.
   */
  datatype Call =
    | SetConfigFlags(flags: bv32)
    | InitWindow(width: i32, height: i32, title: string)
    | IsWindowReady(ready: bool)
    | CloseWindow
    | SetWindowTitle(title: string)
    | SetClipboardText(text: string)
    | BeginDrawing
    | EndDrawing
    | ClearBackground(color: Color)
    | DrawText(text: string, posX: i32, posY: i32, fontSize: i32, color: Color)
    | DrawCircle(centerX: i32, centerY: i32, radius: real, color: Color)
    | DrawCircleV(center: Vector2, radius: real, color: Color)
    | DrawRectangle(posX: i32, posY: i32, width: i32, height: i32, color: Color)
    | LoadTexture(fileName: string, texture: Texture2D)
    | UnloadTexture(texture: Texture2D)
    | DrawTexture(texture: Texture2D, posX: i32, posY: i32, tint: Color)

  /** A Rust string converts to a C string (`CString::new`) only when it holds no NUL byte. */
  predicate NoNul(s: string) {
    forall i :: 0 <= i < |s| ==> s[i] != '\0'
  }
}

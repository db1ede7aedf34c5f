# rayquaza core, modelled in Dafny

rayquaza is a thin Rust wrapper over raylib's C API. This project models
the parts of it that carry behaviour of their own and proves properties
of them:

- **Colors** (`src/core/color.rs`): the RGBA value and every conversion it
  offers. These are packing into `u32` (`0xRRGGBBAA`) and `i32` (`0xRRGGBB`),
  the `"0x"` hex text form and its parser, 3- and 4-component arrays and
  tuples, the foreign `ffi::Color` record, and `fade`.
- **Math** (`src/core/math.rs`): the generic `clamp`, and the Vector2 and
  Vector3 array, tuple and foreign-record conversions.
- **Input** (`src/input.rs`): the discriminants of the input enumerations,
  the key-code decoder of `get_key_pressed`, and the gamepad-button decoder.
- **Ffi** (`src/ffi.rs`): the key, mouse, gamepad and config-flag
  constants and the `#[repr(C)]` records. Each foreign function the core
  calls is modelled as an entry of a call log.
- **Windows**, **Textures**, **Drawing** (`src/window.rs`, `src/texture.rs`,
  `src/drawing.rs`): the surrounding process state is a `Windows.Context`
  object with four parts:
  - the log of foreign calls;
  - the `INITIALIZED` static of `build`;
  - the strong count of the shared `Rc<Handle>`, together with the windows
    and textures that hold a clone of it;
  - whether a canvas is open.

  Its invariant `Valid` says four things:
  - at most one window was ever made ready;
  - `CloseWindow` was issued exactly when the last holder went;
  - drawing brackets never nest, because the model enters `draw` only
    while no canvas is open (see "Left out" on re-entrant `draw`);
  - a bracket is open only while the handle is alive.

  Every operation keeps `Valid` and states its exact effect on the log.
  The builder's setters are functions on a `WindowBuilder` value.
- **CoreWindow**, **CoreDrawing** (`src/core/window.rs`,
  `src/core/drawing.rs`): the older window has no once-only guard, and each
  `Window` value closes the window when dropped. Its canvas issues one
  forwarded call per drawing method. In the model every window comes from
  `Create` and every canvas from `NewCanvas`, and the runtime invariant
  counts the windows alive as the successful readiness answers minus the
  closes. The source also lets a caller build either unit struct by a
  literal; that is left out (see "Left out").
- **CallLog**:
  - counting calls (`Occurrences`) and drawing-bracket depth (`FrameDepth`)
    in a log;
  - the lemmas that connect appending to a log with both counts;
  - `Bracketed`, the one-frame shape `[BeginDrawing] + calls + [EndDrawing]`.

Foreign results enter as method parameters and are logged with the call
that produced them. These are `IsWindowReady`'s answer and the
`Texture2D` record `LoadTexture` returns. The closure given to
`draw` is modelled as the script of canvas operations it performs
(`seq<CanvasOp>`), run in order by a loop. Conversions from a Rust string
to a C string panic when the string holds a NUL byte. They are
modelled as a precondition (`Ffi.NoNul`).

The `src/core/` tree is an older revision that does not compile as it
stands, so the following are modelled as written:
- `src/core/window.rs:26` returns `Error::InitWindowFailed`. `src/core/error.rs:5-8` does not declare it, so `CoreWindow.Error` has it as an extra variant.
- `src/core/texture.rs:3` imports a `Handle` that `src/core/window.rs` does not define. `CoreDrawing.Texture` therefore holds only the raw record.

Modules: `Wrappers` (Option, Result), `Ffi`, `Math`, `Colors`, `Input`,
`CallLog`, `Windows`, `Textures`, `Drawing`, `CoreWindow`, `CoreDrawing`,
one per file.

## Model

| member | source | states |
|---|---|---|
| Math.Clamp | src/core/math.rs:586-594 | a value below `min` gives `min`; otherwise one above `max` gives `max`; a value within the bounds, either bound included, comes back unchanged; with `min <= max` the result lies in `[min, max]` |
| Math.ClampReal | src/core/math.rs:586-594 | the same four facts at the floating-point type `fade` uses |
| Math.ClampIdempotent | src/core/math.rs:586-594 | with `min <= max`, clamping twice is clamping once |
| Math.ClampCrossedBounds | src/core/math.rs:587-590 | with crossed bounds (`max < min`) a value below `min` gives `min` and every other value gives `max` |
| Math.ClampTestCases | src/core/math.rs:681-685 | `clamp(200,100,300) == 200`, `clamp(400,100,300) == 300`, `clamp(0,100,300) == 100` |
| Math.Vector2ToArray | src/core/math.rs:181-186 | the array is `[x, y]` |
| Math.Vector2FromArray | src/core/math.rs:161-166 | converting the vector back gives the same array |
| Math.Vector2ToTuple | src/core/math.rs:188-193 | the tuple is `(x, y)` |
| Math.Vector2FromTuple | src/core/math.rs:168-173 | converting the vector back gives the same tuple |
| Math.Vector2ToFfi | src/core/math.rs:195-199 | the transmute copies x to x and y to y |
| Math.Vector2FromFfi | src/core/math.rs:175-179 | converting back gives the same foreign record |
| Math.Vector2RoundTrips | src/core/math.rs:161-199 | every vector survives a trip through its array, tuple and foreign forms |
| Math.Vector3ToArray | src/core/math.rs:499-504 | the array is `[x, y, z]` |
| Math.Vector3FromArray | src/core/math.rs:479-484 | converting the vector back gives the same array |
| Math.Vector3ToTuple | src/core/math.rs:506-511 | the tuple is `(x, y, z)` |
| Math.Vector3FromTuple | src/core/math.rs:486-491 | converting the vector back gives the same tuple |
| Math.Vector3RoundTrips | src/core/math.rs:479-511 | every vector survives a trip through its array and tuple forms |
| Colors.Fade | src/core/color.rs:62-70 | red, green and blue are kept; alpha is 255 for a factor of at least 1 and 0 for one of at most 0; in between it is the truncation of `255 * alpha` |
| Colors.FadeMonotone | src/core/color.rs:62-70 | a larger factor never gives a smaller alpha |
| Colors.FadeByOne | src/core/color.rs:62-70 | fading by 1.0 returns the color unchanged exactly when it is already opaque |
| Colors.FadeTestCases | src/core/color.rs:228-232 | BLUE faded by 1.0, 0.5 and 0.0 has alpha 255, 127 and 0 |
| Colors.ToRgbArray | src/core/color.rs:152-157 | the array is `[red, green, blue]` |
| Colors.FromRgbArray | src/core/color.rs:80-85 | the color is opaque and converts back to the same array |
| Colors.ToRgbaArray | src/core/color.rs:159-164 | the array is `[red, green, blue, alpha]` |
| Colors.FromRgbaArray | src/core/color.rs:87-92 | the color converts back to the same array |
| Colors.ToRgbTuple | src/core/color.rs:173-178 | the tuple is `(red, green, blue)` |
| Colors.FromRgbTuple | src/core/color.rs:101-106 | the color is opaque and converts back to the same tuple |
| Colors.ToRgbaTuple | src/core/color.rs:166-171 | the tuple is `(red, green, blue, alpha)` |
| Colors.FromRgbaTuple | src/core/color.rs:94-99 | the color converts back to the same tuple |
| Colors.ToFfi | src/core/color.rs:195-199 | the transmute maps red to r, green to g, blue to b and alpha to a |
| Colors.FromFfi | src/core/color.rs:130-134 | converting back gives the same foreign record |
| Colors.ComponentRoundTrips | src/core/color.rs:80-106 | the 4-component array and tuple and the foreign record round-trip exactly; the 3-component forms keep everything but alpha, which becomes 255 |
| Colors.ComponentTestCases | src/core/color.rs:240-248 | the array and tuple forms of `(0, 121, 241[, 255])` are BLUE, and BLUE converts to `[0, 121, 241]` and `[0, 121, 241, 255]` |
| Colors.IntoI32 | src/core/color.rs:180-184 | the packed value lies in `[0, 0xFFFFFF]` |
| Colors.FromI32 | src/core/color.rs:108-117 | the color is opaque |
| Colors.IntoU32 | src/core/color.rs:186-193 | red is the top byte and alpha the bottom byte of the packed value; with `U32RoundTrip`, `U32Exact` and `PackedTestCases` the whole 0xRRGGBBAA layout is fixed |
| Colors.FromU32 | src/core/color.rs:119-128 | red is taken from the top byte and alpha from the bottom byte; `U32Exact` and `U32RoundTrip` make it the exact inverse of `IntoU32` |
| Colors.U32RoundTrip | src/core/color.rs:119-128 | unpacking the `u32` a color packs into gives the color back |
| Colors.U32Exact | src/core/color.rs:186-193 | packing the color a `u32` unpacks into gives the same `u32` |
| Colors.I32RoundTrip | src/core/color.rs:108-117 | unpacking the `i32` a color packs into gives the color back with alpha 255 |
| Colors.I32KeepsLow24Bits | src/core/color.rs:108-117 | unpacking any `i32`, negative ones included, and packing again keeps exactly its low 24 bits |
| Colors.PackedTestCases | src/core/color.rs:252-258 | `0x0079F1` and `0x0079F1FF` unpack to BLUE, and BLUE packs to them |
| Colors.ToString | src/core/color.rs:207-215 | the text is 10 characters: `"0x"` and then 8 upper-case hex digits |
| Colors.ToStringDigits | src/core/color.rs:207-215 | the four digit pairs denote red, green, blue and alpha, in that order |
| Colors.ToStringTestCase | src/core/color.rs:298-300 | BLUE prints as `"0x0079F1FF"` |
| Colors.Accumulate | src/core/color.rs:145-147 | the digit loop of `from_str_radix(_, 16)`: a value it returns lies within the integer type's bounds and has the sign that was read |
| Colors.FromStrRadix16 | src/core/color.rs:145-147 | an empty string is the `Empty` error, and a value returned lies within the type's bounds |
| Colors.Find0x | src/core/color.rs:139 | `find("0x")`: the index returned holds `"0x"` and no earlier index does; `None` means that no index holds it |
| Colors.Body | src/core/color.rs:139-143 | what is parsed is never longer than the text; its contents are given by `BodyAfterPrefix` and `BodyWithout0x` |
| Colors.BodyAfterPrefix | src/core/color.rs:139-141 | everything up to and including the first `"0x"` is dropped, whatever precedes it (so `"#0x0079F1"` parses as `"0079F1"`) |
| Colors.BodyWithout0x | src/core/color.rs:142-143 | text with no `"0x"` is parsed whole |
| Colors.FromStr | src/core/color.rs:136-150 | an empty body is the `Empty` error |
| Colors.FromStrToString | src/core/color.rs:136-150 | parsing what `to_string` prints gives the color back |
| Colors.FromStrPrefixOptional | src/core/color.rs:139-143 | text with no `"0x"` of its own parses the same with or without a leading `"0x"` |
| Colors.FromStrPrefixedDigits | src/core/color.rs:139-148 | a run of hex digits parses the same with or without a leading `"0x"` |
| Colors.FromStrSixDigits | src/core/color.rs:144-145 | six hex digits, either letter case, parse as RRGGBB with alpha 255 |
| Colors.FromStrEightDigits | src/core/color.rs:146-147 | eight hex digits, either letter case, parse as RRGGBBAA |
| Colors.FromStrRejectsNonDigit | src/core/color.rs:144-147 | a body holding a character that is no hex digit and no accepted leading sign is an error |
| Colors.RadixRejects | src/core/color.rs:145-147 | `from_str_radix` rejects a non-digit anywhere in the string, except an accepted leading sign |
| Colors.AccumulateDigits | src/core/color.rs:145-147 | a run of digits whose value fits the bound is read as exactly that value |
| Colors.AccumulateRejects | src/core/color.rs:145-147 | the digit loop fails wherever a non-digit stands |
| Colors.FromStrSixTestCase | src/core/color.rs:265 | `"0079F1"` parses to BLUE |
| Colors.FromStrEightTestCase | src/core/color.rs:266 | `"0079F1FF"` parses to BLUE |
| Colors.FromStrPrefixedSixTestCase | src/core/color.rs:263 | `"0x0079F1"` parses to BLUE |
| Colors.FromStrPrefixedEightTestCase | src/core/color.rs:264 | `"0x0079F1FF"` parses to BLUE |
| Input.MouseButtonCode | src/input.rs:12-16 | mouse buttons have the raylib codes 0 to 2 |
| Input.GamepadCode | src/input.rs:21-26 | gamepads have the raylib codes 0 to 3 |
| Input.GamepadAxisCode | src/input.rs:31-43 | axes have the raylib codes 0 to 5 |
| Input.SmallCodesInjective | src/input.rs:12-43 | distinct mouse buttons, gamepads and axes have distinct codes |
| Input.GamepadButtonCode | src/input.rs:48-75 | gamepad-button discriminants lie in 1 to 17 |
| Input.GamepadButtonOfCode | src/input.rs:48-75 | every code in 1 to 17 belongs to a button |
| Input.GamepadButtonCodeRoundTrip | src/input.rs:48-75 | a button is recovered from its own code |
| Input.GamepadButtonPressedAsWritten | src/input.rs:454-463 | as written: any raw code above 0 is let through unchanged as the transmuted discriminant, and any other is `None` |
| Input.GamepadButtonPressedAsWrittenAdmitsInvalid | src/input.rs:457-458 | the guard lets 18 through, although no button has code 18 |
| Input.GamepadButtonPressed | src/input.rs:454-463 | corrected: `None` for every code at most 0; `Some` exactly for codes 1 to 17, naming the button with that discriminant |
| Input.GamepadButtonPressedCode | src/input.rs:454-463 | each button decodes from its own code |
| Input.GamepadButtonPressedAgrees | src/input.rs:456-461 | for codes up to 17 the corrected decoder answers exactly as the original |
| Input.KeyCode | src/input.rs:80-191 | a key's code is one of the declared discriminants |
| Input.DecodeKey | src/input.rs:220-331 | the decoder answers `Some` exactly for the declared discriminants, and then with the key whose code is the raw value |
| Input.DecodeKeyCode | src/input.rs:222-327 | every key decodes from its own code |
| Input.DecodeKeyNone | src/input.rs:328 | a code decodes to `None` exactly when no key has it |
| Input.KeysDistinct | src/input.rs:80-191 | no two of the 105 `Key` variants share a discriminant, so `get_key_pressed` determines the key |
| Input.KeyTestCases | src/input.rs:190 | `KeypadEqual` is 33 (the constant at src/ffi.rs:115) and decodes back, as do A and Escape |
| Input.UnknownKeyTestCases | src/input.rs:328 | 0, -1 and 336 decode to `None` |
| CallLog.OccurrencesAppend | src/window.rs:15-21 | a count over a concatenated log is the sum of the two counts |
| CallLog.OccurrencesZero | src/window.rs:15-21 | a call occurs zero times exactly when it is not in the log |
| CallLog.FrameDepthBound | src/drawing.rs:11-30 | a log whose bracket depth is defined (no `EndDrawing` without an open `BeginDrawing`, no `BeginDrawing` inside an open one) has depth at most 1 |
| CallLog.FrameDepthPrefix | src/drawing.rs:11-30 | every prefix of a well-bracketed log is well-bracketed, with depth at most 1 |
| CallLog.AppendNeutral | src/window.rs:15-21 | a call other than a bracket, a close or a positive readiness answer changes neither count nor the depth |
| CallLog.Bracketed | src/drawing.rs:35-40 | a frame starts with `BeginDrawing`, ends with `EndDrawing`, and is two calls longer than its content |
| CallLog.DepthIgnores | src/drawing.rs:19-21 | calls that are not brackets leave the depth unchanged |
| CallLog.BracketedOnce | src/drawing.rs:24-30 | a frame of bracket-free calls holds exactly one `BeginDrawing` and one `EndDrawing` |
| CallLog.BracketedBalanced | src/drawing.rs:35-40 | appending a frame to a balanced log leaves it balanced |
| CallLog.FramesNeverNest | src/drawing.rs:11-40 | in a balanced log every prefix has depth 0 or 1: frames never nest |
| Windows.Default | src/window.rs:305-314 | no flag, 800 by 450, titled with the package name and version separated by one space, and not both fullscreen and resizable |
| Windows.Size | src/window.rs:220-224 | width and height are replaced; flags and title are kept |
| Windows.Title | src/window.rs:227-230 | the title is replaced; flags and size are kept |
| Windows.Fullscreen | src/window.rs:233-237 | the fullscreen bit is set, the resizable bit is cleared, and every other bit, the size and the title are kept |
| Windows.Resizable | src/window.rs:240-244 | the resizable bit is set, the fullscreen bit is cleared, and every other bit, the size and the title are kept |
| Windows.Undecorated | src/window.rs:247-250 | its own bit is set; every other bit, the size and the title are kept |
| Windows.Transparent | src/window.rs:253-256 | its own bit is set; every other bit, the size and the title are kept |
| Windows.Hidden | src/window.rs:259-262 | its own bit is set; every other bit, the size and the title are kept |
| Windows.AlwaysRun | src/window.rs:265-268 | its own bit is set; every other bit, the size and the title are kept |
| Windows.Msaa4x | src/window.rs:271-274 | its own bit is set; every other bit, the size and the title are kept |
| Windows.Vsync | src/window.rs:277-280 | its own bit is set; every other bit, the size and the title are kept |
| Windows.SettersIdempotent | src/window.rs:233-280 | each of the eight flag setters applied twice is the same as applied once |
| Windows.LastModeWins | src/window.rs:233-244 | of `fullscreen` and `resizable`, the last call alone decides |
| Windows.StepKeepsModesExclusive | src/window.rs:220-280 | no single builder call makes fullscreen and resizable both set |
| Windows.ChainKeepsModesExclusive | src/window.rs:220-280 | no chain of builder calls makes them both set |
| Windows.DefaultNeverBothModes | src/window.rs:220-314 | a chain starting from the default never requests both modes |
| Windows.Context.constructor | src/window.rs:285 | at start the log is empty, the flag is clear, the handle is not held and no canvas is open |
| Windows.BuildCalls | src/window.rs:289-292 | `build`'s three calls add one positive readiness answer when ready, and no close or bracket |
| Windows.Build | src/window.rs:283-302 | with the flag set: `AlreadyCreated` and no call; otherwise `SetConfigFlags`, `InitWindow` and the readiness query are logged; if ready, the flag is set and a fresh window holds the handle alone (count 1); if not, `InitializationFailed` and the flag stays clear |
| Windows.ReleaseHandle | src/window.rs:15-21 | dropping one clone of the handle lowers the count by one and logs `CloseWindow` exactly when it reaches 0 |
| Windows.AtMostOneWindow | src/window.rs:285-296 | the log holds at most one positive readiness answer, and holds one exactly when the flag is set |
| Windows.HeldHandleNotClosed | src/window.rs:15-21 | while anything holds the handle, `CloseWindow` has not been logged |
| Windows.BuildTwice | src/window.rs:285-293 | after a successful `build`, a second one fails with `AlreadyCreated` and logs nothing |
| Textures.Texture.constructor | src/texture.rs:26-29 | a texture keeps the record it was loaded with |
| Textures.LoadTexture | src/texture.rs:65-78 | `LoadTexture(path)` is logged; a non-zero id gives a fresh texture that holds a new clone of the handle (count + 1), whose width and height are the record's; id 0 gives `ReadFailed` with count and holders unchanged |
| Textures.DropTexture | src/texture.rs:43-49 | `UnloadTexture` with the texture's own record is logged, then the handle clone is released, so any `CloseWindow` comes after the unload |
| Textures.DrawTexture | src/texture.rs:55-59 | one `DrawTexture` with the texture's record, the position and the converted tint |
| Textures.LoadThenDrop | src/texture.rs:43-78 | loading and then dropping a window's texture logs the load and then the unload, and leaves the window open |
| Drawing.NewCanvas | src/drawing.rs:11-16 | exactly one `BeginDrawing` is logged and the canvas is open |
| Drawing.DropCanvas | src/drawing.rs:24-30 | exactly one `EndDrawing` is logged and the canvas is closed |
| Drawing.ClearBackground | src/drawing.rs:19-21 | exactly one `ClearBackground` with the converted color is logged |
| Drawing.OpCall | src/drawing.rs:19-21 | a canvas operation issues no bracket, close or readiness answer |
| Drawing.OpCalls | src/drawing.rs:35-40 | a script issues one call per operation, and no bracket |
| Drawing.RunOps | src/drawing.rs:39 | running a script on the open canvas logs its calls in order |
| Drawing.Draw | src/drawing.rs:35-40 | the log gains exactly one frame, `BeginDrawing`, the script's calls, then `EndDrawing`, and the canvas is closed again |
| CoreWindow.Runtime.constructor | src/core/window.rs:15 | at start the log is empty and no window or canvas exists |
| CoreWindow.CreateCalls | src/core/window.rs:22-23 | `create`'s two calls add one positive readiness answer when ready, and no close or bracket |
| CoreWindow.Create | src/core/window.rs:19-29 | `InitWindow` and the readiness query are logged; ready gives a fresh window, not ready gives `InitWindowFailed`; nothing checks for an earlier window |
| CoreWindow.DropWindow | src/core/window.rs:241-245 | each dropped window logs one `CloseWindow` |
| CoreWindow.SetTitle | src/core/window.rs:72-77 | exactly one `SetWindowTitle` is logged |
| CoreWindow.SetClipboard | src/core/window.rs:160-165 | exactly one `SetClipboardText` is logged |
| CoreWindow.CreateTwice | src/core/window.rs:19-29 | two successful creations in a row both give a window, and two distinct ones |
| CoreDrawing.NewCanvas | src/core/drawing.rs:13-18 | exactly one `BeginDrawing` is logged |
| CoreDrawing.DropCanvas | src/core/drawing.rs:72-78 | exactly one `EndDrawing` is logged |
| CoreDrawing.ClearBackground | src/core/drawing.rs:21-23 | one `ClearBackground` with the converted color |
| CoreDrawing.DrawText | src/core/drawing.rs:26-31 | one `DrawText` with the same text, position, size and converted color |
| CoreDrawing.DrawCircle | src/core/drawing.rs:34-38 | one `DrawCircle` with the same arguments and the converted color |
| CoreDrawing.DrawCircleVec | src/core/drawing.rs:41-50 | one `DrawCircleV` with the converted center and color |
| CoreDrawing.DrawRectangle | src/core/drawing.rs:53-64 | one `DrawRectangle` with the same arguments and the converted color |
| CoreDrawing.DrawTexture | src/core/drawing.rs:67-69 | one `DrawTexture` carrying the texture's raw record unchanged |
| CoreDrawing.OpCall | src/core/drawing.rs:21-69 | a canvas operation issues no bracket, close or readiness answer |
| CoreDrawing.OpCalls | src/core/drawing.rs:21-69 | a script issues one call per operation, and no bracket |
| CoreDrawing.RunOps | src/core/window.rs:177 | running a script on the open canvas logs its calls in order |
| CoreDrawing.Draw | src/core/window.rs:173-178 | the log gains exactly one frame around the script's calls |

## Left out

- Vector arithmetic (`length`, `normalize`, `rotate`, the operator impls of `src/core/math.rs`) is not modelled. It is `f32` arithmetic with square roots and trigonometry.
- `f32` is modelled as `real`. IEEE rounding and NaN are not modelled. `fade`'s cast to `u8` is the floor of a product that lies in `[0, 255]`.
- The ffi `Vector3` record conversions are not modelled. They are field-for-field transmutes, like `Vector2`'s.
- `Color::new` and the `From<&Color>` copy are the datatype constructor and plain value copying. They have no member of their own.
- Colors.FromStr: `from_str_radix` is modelled on characters, not bytes. It reads the digits of a string and rejects the first non-digit. The two readings agree on all text: `"0x"` is ASCII, so the split is the same; a character outside ASCII is never a hex digit, so it is `InvalidDigit` on either path; and the 6-long body whose path choice could differ (6 bytes but fewer characters, or 6 characters but more bytes) holds fewer than 6 digits before that character, too few to overflow either integer type first. Rust's own error kind for a lone sign is `InvalidDigit`, and that is what the model gives.
- A string holding a NUL byte makes the source panic. The model does not describe the panic. Instead, `Windows.Build`, `Textures.LoadTexture`, `CoreWindow.Create`, `CoreWindow.SetTitle`, `CoreWindow.SetClipboard` and `CoreDrawing.DrawText` require the string to have none. `build` issues `SetConfigFlags` before it panics; that partial trace is not modelled.
- `INITIALIZED` is an `AtomicBool` with relaxed ordering. It is modelled as a plain field of a single-threaded context; concurrency and the `!Send` marker on `Canvas` are left out.
- The closure given to `draw` is modelled as a script of canvas operations: clear the background, draw a texture, and, for the older canvas, draw text, circles and rectangles. Closures that do anything else are not modelled.
- A closure that panics is not modelled. In the source the canvas is dropped while the stack unwinds, so `EndDrawing` is still logged and the frame still closes. The model's scripts cannot panic, so that path has no member.
- Drawing.Draw and CoreDrawing.Draw require that no canvas is open, so the model never nests frames. The source accepts a re-entrant `draw`: `Window::draw` in `src/drawing.rs` borrows the window shared, so a closure that captures the window can call `draw` again. In `src/core/window.rs` a second window from an unguarded `create` can do the same. Either would log a second `BeginDrawing` before the first `EndDrawing`. That nesting is not modelled.
- Drawing.NewCanvas: in `src/drawing.rs`, `Canvas::new` is private and the `Canvas` field is private too, so `draw` is the only way to get a canvas. Dafny cannot hide a member of a module without export sets, so the model states this by construction: `Draw` is its only caller here.
- CoreWindow.Create and CoreDrawing.NewCanvas are the only way the model makes an older-tree window or canvas. In the source, `Window` (`src/core/window.rs:15`) and `Canvas` (`src/core/drawing.rs:9`) are public unit structs, so any code can build one by a literal without calling `create` or `Canvas::new`. Dropping such a `Window` logs `CloseWindow` with no readiness answer before it. Dropping such a `Canvas` logs `EndDrawing` with no `BeginDrawing`. Its methods forward drawing calls outside any frame. The model has none of these values. So `CoreWindow.Runtime.Valid`'s count (readiness answers equal closes plus live windows), its bracket depth, and the `requires rt.canvasOpen` of the drawing methods describe only windows and canvases made by those members.
- Textures.Texture.GetWidth and Textures.Texture.GetHeight carry no contract of their own. What they return is stated in `Textures.LoadTexture`'s ensures.
- `src/core/texture.rs` duplicates the texture drop of `src/texture.rs`, and its `Handle` import has no definition. Only the raw record of that texture is modelled.
- `WindowBuilder::new` is `default` and has no member of its own.
- Queries and setters that only forward to raylib are not modelled. These include `should_close`, the window setters of `src/window.rs` including `set_clipboard`, the key and mouse queries of `src/input.rs`, and the other methods of `src/core/window.rs`. Foreign C-string reads such as `get_clipboard` and `get_monitor_name` are left out as well.
- The thin forwarding modules (shapes, collision, cursor, timing, text, misc, camera), the 2D camera mode, `build.rs` and the examples are not part of this model.

## Findings

| source | as written | input that shows it | evidently intended | confidence | as-written member | corrected member |
|---|---|---|---|---|---|---|
| src/input.rs:454-463 | `get_gamepad_button_pressed` transmutes any raw code above 0 into a `GamepadButton` | a raw code of 18: the foreign result is any `i32`, and no variant has 18 (the discriminants run from 1 to 17) | `Some` only for codes 1 to 17, each naming the button with that discriminant, and `None` otherwise | not executed | Input.GamepadButtonPressedAsWrittenAdmitsInvalid | Input.GamepadButtonPressed |

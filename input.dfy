/**
 * Input codes (src/input.rs): the discriminants of the key, mouse-button,
 * gamepad, gamepad-axis and gamepad-button enumerations, the decoder that
 * turns the raw code of the last key pressed back into a `Key`, and the
 * decoder of the last gamepad button pressed.
 */
module Input {
  import opened Wrappers
  import opened Ffi

  /** Mouse buttons; each discriminant is the matching raylib constant. */
  datatype MouseButton = Left | Right | Middle

  function MouseButtonCode(b: MouseButton): (code: i32)
    ensures 0 <= code <= 2
  {
    match b
    case Left => MOUSE_LEFT_BUTTON
    case Right => MOUSE_RIGHT_BUTTON
    case Middle => MOUSE_MIDDLE_BUTTON
  }

  /** Gamepad numbers. */
  datatype Gamepad = One | Two | Three | Four

  function GamepadCode(g: Gamepad): (code: i32)
    ensures 0 <= code <= 3
  {
    match g
    case One => GAMEPAD_PLAYER1
    case Two => GAMEPAD_PLAYER2
    case Three => GAMEPAD_PLAYER3
    case Four => GAMEPAD_PLAYER4
  }

  /** Gamepad axes. */
  datatype GamepadAxis = LeftX | LeftY | RightX | RightY | LeftTrigger | RightTrigger

  function GamepadAxisCode(a: GamepadAxis): (code: i32)
    ensures 0 <= code <= 5
  {
    match a
    case LeftX => GAMEPAD_AXIS_LEFT_X
    case LeftY => GAMEPAD_AXIS_LEFT_Y
    case RightX => GAMEPAD_AXIS_RIGHT_X
    case RightY => GAMEPAD_AXIS_RIGHT_Y
    case LeftTrigger => GAMEPAD_AXIS_LEFT_TRIGGER
    case RightTrigger => GAMEPAD_AXIS_RIGHT_TRIGGER
  }

  /** The three small enumerations use distinct codes, so `as i32` loses nothing. */
  lemma SmallCodesInjective(b1: MouseButton, b2: MouseButton, g1: Gamepad, g2: Gamepad, a1: GamepadAxis, a2: GamepadAxis)
    ensures MouseButtonCode(b1) == MouseButtonCode(b2) ==> b1 == b2
    ensures GamepadCode(g1) == GamepadCode(g2) ==> g1 == g2
    ensures GamepadAxisCode(a1) == GamepadAxisCode(a2) ==> a1 == a2
  {
  }

  /** Gamepad buttons, numbered consecutively from 1 (0 is raylib's "unknown"). */
  datatype GamepadButton =
    | LeftFaceUp | LeftFaceRight | LeftFaceDown | LeftFaceLeft
    | RightFaceUp | RightFaceRight | RightFaceDown | RightFaceLeft
    | LeftTrigger1 | LeftTrigger2 | RightTrigger1 | RightTrigger2
    | MiddleLeft | Middle | MiddleRight
    | MiddleLeftThumb | MiddleRightThumb

  const GAMEPAD_BUTTON_COUNT: nat := 17

  /** `button as i32`. */
  function GamepadButtonCode(b: GamepadButton): (code: i32)
    ensures 1 <= code <= GAMEPAD_BUTTON_COUNT
  {
    match b
    case LeftFaceUp => 1
    case LeftFaceRight => 2
    case LeftFaceDown => 3
    case LeftFaceLeft => 4
    case RightFaceUp => 5
    case RightFaceRight => 6
    case RightFaceDown => 7
    case RightFaceLeft => 8
    case LeftTrigger1 => 9
    case LeftTrigger2 => 10
    case RightTrigger1 => 11
    case RightTrigger2 => 12
    case MiddleLeft => 13
    case Middle => 14
    case MiddleRight => 15
    case MiddleLeftThumb => 16
    case MiddleRightThumb => 17
  }

  /** The button whose discriminant is `code`; defined on exactly the codes `GamepadButtonCode` produces. */
  function GamepadButtonOfCode(code: i32): (b: GamepadButton)
    requires 1 <= code <= GAMEPAD_BUTTON_COUNT
    ensures GamepadButtonCode(b) == code
  {
    if code == 1 then LeftFaceUp
    else if code == 2 then LeftFaceRight
    else if code == 3 then LeftFaceDown
    else if code == 4 then LeftFaceLeft
    else if code == 5 then RightFaceUp
    else if code == 6 then RightFaceRight
    else if code == 7 then RightFaceDown
    else if code == 8 then RightFaceLeft
    else if code == 9 then LeftTrigger1
    else if code == 10 then LeftTrigger2
    else if code == 11 then RightTrigger1
    else if code == 12 then RightTrigger2
    else if code == 13 then MiddleLeft
    else if code == 14 then GamepadButton.Middle
    else if code == 15 then MiddleRight
    else if code == 16 then MiddleLeftThumb
    else MiddleRightThumb
  }

  lemma GamepadButtonCodeRoundTrip(b: GamepadButton)
    ensures GamepadButtonOfCode(GamepadButtonCode(b)) == b
  {
  }

  /**
   * `get_gamepad_button_pressed` as written: any raw code above 0 is
   * transmuted to a `GamepadButton`. The result is the discriminant the
   * transmute produces; it names a real button only when it is at most 17.
   */
  function GamepadButtonPressedAsWritten(raw: i32): (r: Option<i32>)
    ensures r.Some? <==> raw > 0
    ensures r.Some? ==> r.value == raw
  {
    if raw > 0 then Some(raw) else None
  }

  /** The guard lets through a code that no button has. */
  lemma GamepadButtonPressedAsWrittenAdmitsInvalid()
    ensures GamepadButtonPressedAsWritten(18) == Some(18)
    ensures forall b :: GamepadButtonCode(b) != 18
  {
  }

  /**
   * `get_gamepad_button_pressed` as intended: the button whose discriminant
   * is the raw code, and `None` for a code no button has (in particular for
   * every code at most 0).
   */
  function GamepadButtonPressed(raw: i32): (r: Option<GamepadButton>)
    ensures raw <= 0 ==> r == None
    ensures r.Some? <==> 1 <= raw <= GAMEPAD_BUTTON_COUNT
    ensures r.Some? ==> GamepadButtonCode(r.value) == raw
  {
    if 0 < raw <= GAMEPAD_BUTTON_COUNT then Some(GamepadButtonOfCode(raw)) else None
  }

  /** Decoding a button's own code gives that button. */
  lemma GamepadButtonPressedCode(b: GamepadButton)
    ensures GamepadButtonPressed(GamepadButtonCode(b)) == Some(b)
  {
    GamepadButtonCodeRoundTrip(b);
  }

  /** Wherever the source's guard names a real button, the corrected decoder agrees with it. */
  lemma GamepadButtonPressedAgrees(raw: i32)
    requires raw <= GAMEPAD_BUTTON_COUNT
    ensures GamepadButtonPressed(raw).Some? <==> GamepadButtonPressedAsWritten(raw).Some?
    ensures GamepadButtonPressed(raw).Some? ==> GamepadButtonCode(GamepadButtonPressed(raw).value) == GamepadButtonPressedAsWritten(raw).value
  {
  }

  /** Whether `code` is the discriminant of a `Key` variant (the variants in declaration order). */
  predicate IsKeyCode(code: int) {
      code == KEY_APOSTROPHE
    || code == KEY_COMMA
    || code == KEY_MINUS
    || code == KEY_PERIOD
    || code == KEY_SLASH
    || code == KEY_ZERO
    || code == KEY_ONE
    || code == KEY_TWO
    || code == KEY_THREE
    || code == KEY_FOUR
    || code == KEY_FIVE
    || code == KEY_SIX
    || code == KEY_SEVEN
    || code == KEY_EIGHT
    || code == KEY_NINE
    || code == KEY_SEMICOLON
    || code == KEY_EQUAL
    || code == KEY_A
    || code == KEY_B
    || code == KEY_C
    || code == KEY_D
    || code == KEY_E
    || code == KEY_F
    || code == KEY_G
    || code == KEY_H
    || code == KEY_I
    || code == KEY_J
    || code == KEY_K
    || code == KEY_L
    || code == KEY_M
    || code == KEY_N
    || code == KEY_O
    || code == KEY_P
    || code == KEY_Q
    || code == KEY_R
    || code == KEY_S
    || code == KEY_T
    || code == KEY_U
    || code == KEY_V
    || code == KEY_W
    || code == KEY_X
    || code == KEY_Y
    || code == KEY_Z
    || code == KEY_SPACE
    || code == KEY_ESCAPE
    || code == KEY_ENTER
    || code == KEY_TAB
    || code == KEY_BACKSPACE
    || code == KEY_INSERT
    || code == KEY_DELETE
    || code == KEY_RIGHT
    || code == KEY_LEFT
    || code == KEY_DOWN
    || code == KEY_UP
    || code == KEY_PAGE_UP
    || code == KEY_PAGE_DOWN
    || code == KEY_HOME
    || code == KEY_END
    || code == KEY_CAPS_LOCK
    || code == KEY_SCROLL_LOCK
    || code == KEY_NUM_LOCK
    || code == KEY_PRINT_SCREEN
    || code == KEY_PAUSE
    || code == KEY_F1
    || code == KEY_F2
    || code == KEY_F3
    || code == KEY_F4
    || code == KEY_F5
    || code == KEY_F6
    || code == KEY_F7
    || code == KEY_F8
    || code == KEY_F9
    || code == KEY_F10
    || code == KEY_F11
    || code == KEY_F12
    || code == KEY_LEFT_SHIFT
    || code == KEY_LEFT_CONTROL
    || code == KEY_LEFT_ALT
    || code == KEY_LEFT_SUPER
    || code == KEY_RIGHT_SHIFT
    || code == KEY_RIGHT_CONTROL
    || code == KEY_RIGHT_ALT
    || code == KEY_RIGHT_SUPER
    || code == KEY_KB_MENU
    || code == KEY_LEFT_BRACKET
    || code == KEY_BACKSLASH
    || code == KEY_RIGHT_BRACKET
    || code == KEY_GRAVE
    || code == KEY_KP_0
    || code == KEY_KP_1
    || code == KEY_KP_2
    || code == KEY_KP_3
    || code == KEY_KP_4
    || code == KEY_KP_5
    || code == KEY_KP_6
    || code == KEY_KP_7
    || code == KEY_KP_8
    || code == KEY_KP_9
    || code == KEY_KP_DECIMAL
    || code == KEY_KP_DIVIDE
    || code == KEY_KP_MULTIPLY
    || code == KEY_KP_SUBTRACT
    || code == KEY_KP_ADD
    || code == KEY_KP_ENTER
    || code == KEY_KP_EQUAL
  }

  /**
   * Keyboard keys. `Key` is a `#[repr(i32)]` enumeration whose discriminants
   * are raylib's key constants, so a key is modelled as its discriminant,
   * with one named constant per variant.
   */
  newtype Key = code: i32 | IsKeyCode(code) witness 39
  {
    static const Apostrophe: Key := KEY_APOSTROPHE as Key
    static const Comma: Key := KEY_COMMA as Key
    static const Minus: Key := KEY_MINUS as Key
    static const Period: Key := KEY_PERIOD as Key
    static const Slash: Key := KEY_SLASH as Key
    static const Zero: Key := KEY_ZERO as Key
    static const One: Key := KEY_ONE as Key
    static const Two: Key := KEY_TWO as Key
    static const Three: Key := KEY_THREE as Key
    static const Four: Key := KEY_FOUR as Key
    static const Five: Key := KEY_FIVE as Key
    static const Six: Key := KEY_SIX as Key
    static const Seven: Key := KEY_SEVEN as Key
    static const Eight: Key := KEY_EIGHT as Key
    static const Nine: Key := KEY_NINE as Key
    static const Semicolon: Key := KEY_SEMICOLON as Key
    static const Equal: Key := KEY_EQUAL as Key
    static const A: Key := KEY_A as Key
    static const B: Key := KEY_B as Key
    static const C: Key := KEY_C as Key
    static const D: Key := KEY_D as Key
    static const E: Key := KEY_E as Key
    static const F: Key := KEY_F as Key
    static const G: Key := KEY_G as Key
    static const H: Key := KEY_H as Key
    static const I: Key := KEY_I as Key
    static const J: Key := KEY_J as Key
    static const K: Key := KEY_K as Key
    static const L: Key := KEY_L as Key
    static const M: Key := KEY_M as Key
    static const N: Key := KEY_N as Key
    static const O: Key := KEY_O as Key
    static const P: Key := KEY_P as Key
    static const Q: Key := KEY_Q as Key
    static const R: Key := KEY_R as Key
    static const S: Key := KEY_S as Key
    static const T: Key := KEY_T as Key
    static const U: Key := KEY_U as Key
    static const V: Key := KEY_V as Key
    static const W: Key := KEY_W as Key
    static const X: Key := KEY_X as Key
    static const Y: Key := KEY_Y as Key
    static const Z: Key := KEY_Z as Key
    static const Space: Key := KEY_SPACE as Key
    static const Escape: Key := KEY_ESCAPE as Key
    static const Enter: Key := KEY_ENTER as Key
    static const Tab: Key := KEY_TAB as Key
    static const Backspace: Key := KEY_BACKSPACE as Key
    static const Insert: Key := KEY_INSERT as Key
    static const Delete: Key := KEY_DELETE as Key
    static const Right: Key := KEY_RIGHT as Key
    static const Left: Key := KEY_LEFT as Key
    static const Down: Key := KEY_DOWN as Key
    static const Up: Key := KEY_UP as Key
    static const PageUp: Key := KEY_PAGE_UP as Key
    static const PageDown: Key := KEY_PAGE_DOWN as Key
    static const Home: Key := KEY_HOME as Key
    static const End: Key := KEY_END as Key
    static const CapsLock: Key := KEY_CAPS_LOCK as Key
    static const ScrollLock: Key := KEY_SCROLL_LOCK as Key
    static const NumLock: Key := KEY_NUM_LOCK as Key
    static const PrintScreen: Key := KEY_PRINT_SCREEN as Key
    static const Pause: Key := KEY_PAUSE as Key
    static const F1: Key := KEY_F1 as Key
    static const F2: Key := KEY_F2 as Key
    static const F3: Key := KEY_F3 as Key
    static const F4: Key := KEY_F4 as Key
    static const F5: Key := KEY_F5 as Key
    static const F6: Key := KEY_F6 as Key
    static const F7: Key := KEY_F7 as Key
    static const F8: Key := KEY_F8 as Key
    static const F9: Key := KEY_F9 as Key
    static const F10: Key := KEY_F10 as Key
    static const F11: Key := KEY_F11 as Key
    static const F12: Key := KEY_F12 as Key
    static const LeftShift: Key := KEY_LEFT_SHIFT as Key
    static const LeftControl: Key := KEY_LEFT_CONTROL as Key
    static const LeftAlt: Key := KEY_LEFT_ALT as Key
    static const LeftSuper: Key := KEY_LEFT_SUPER as Key
    static const RightShift: Key := KEY_RIGHT_SHIFT as Key
    static const RightControl: Key := KEY_RIGHT_CONTROL as Key
    static const RightAlt: Key := KEY_RIGHT_ALT as Key
    static const RightSuper: Key := KEY_RIGHT_SUPER as Key
    static const Menu: Key := KEY_KB_MENU as Key
    static const LeftBracket: Key := KEY_LEFT_BRACKET as Key
    static const Backslash: Key := KEY_BACKSLASH as Key
    static const RightBracket: Key := KEY_RIGHT_BRACKET as Key
    static const Grave: Key := KEY_GRAVE as Key
    static const KeypadZero: Key := KEY_KP_0 as Key
    static const KeypadOne: Key := KEY_KP_1 as Key
    static const KeypadTwo: Key := KEY_KP_2 as Key
    static const KeypadThree: Key := KEY_KP_3 as Key
    static const KeypadFour: Key := KEY_KP_4 as Key
    static const KeypadFive: Key := KEY_KP_5 as Key
    static const KeypadSix: Key := KEY_KP_6 as Key
    static const KeypadSeven: Key := KEY_KP_7 as Key
    static const KeypadEight: Key := KEY_KP_8 as Key
    static const KeypadNine: Key := KEY_KP_9 as Key
    static const KeypadDecimal: Key := KEY_KP_DECIMAL as Key
    static const KeypadDivide: Key := KEY_KP_DIVIDE as Key
    static const KeypadMultiply: Key := KEY_KP_MULTIPLY as Key
    static const KeypadSubtract: Key := KEY_KP_SUBTRACT as Key
    static const KeypadAdd: Key := KEY_KP_ADD as Key
    static const KeypadEnter: Key := KEY_KP_ENTER as Key
    static const KeypadEqual: Key := KEY_KP_EQUAL as Key
  }

  /** `key as i32`. */
  function KeyCode(k: Key): (code: i32)
    ensures IsKeyCode(code)
  {
    k as i32
  }

  /**
   * `get_key_pressed`'s decode table, row by row in the source's order: the
   * variant whose constant is `raw`, or `None` when no row matches. Every
   * row's variant has the row's constant as its discriminant, and the rows
   * cover exactly the declared variants.
   */
  function DecodeKey(raw: i32): (r: Option<Key>)
    ensures r.Some? <==> IsKeyCode(raw)
    ensures r.Some? ==> KeyCode(r.value) == raw
  {
    if raw == KEY_APOSTROPHE then Some(Key.Apostrophe)
    else if raw == KEY_COMMA then Some(Key.Comma)
    else if raw == KEY_MINUS then Some(Key.Minus)
    else if raw == KEY_PERIOD then Some(Key.Period)
    else if raw == KEY_SLASH then Some(Key.Slash)
    else if raw == KEY_ZERO then Some(Key.Zero)
    else if raw == KEY_ONE then Some(Key.One)
    else if raw == KEY_TWO then Some(Key.Two)
    else if raw == KEY_THREE then Some(Key.Three)
    else if raw == KEY_FOUR then Some(Key.Four)
    else if raw == KEY_FIVE then Some(Key.Five)
    else if raw == KEY_SIX then Some(Key.Six)
    else if raw == KEY_SEVEN then Some(Key.Seven)
    else if raw == KEY_EIGHT then Some(Key.Eight)
    else if raw == KEY_NINE then Some(Key.Nine)
    else if raw == KEY_SEMICOLON then Some(Key.Semicolon)
    else if raw == KEY_EQUAL then Some(Key.Equal)
    else if raw == KEY_A then Some(Key.A)
    else if raw == KEY_B then Some(Key.B)
    else if raw == KEY_C then Some(Key.C)
    else if raw == KEY_D then Some(Key.D)
    else if raw == KEY_E then Some(Key.E)
    else if raw == KEY_F then Some(Key.F)
    else if raw == KEY_G then Some(Key.G)
    else if raw == KEY_H then Some(Key.H)
    else if raw == KEY_I then Some(Key.I)
    else if raw == KEY_J then Some(Key.J)
    else if raw == KEY_K then Some(Key.K)
    else if raw == KEY_L then Some(Key.L)
    else if raw == KEY_M then Some(Key.M)
    else if raw == KEY_N then Some(Key.N)
    else if raw == KEY_O then Some(Key.O)
    else if raw == KEY_P then Some(Key.P)
    else if raw == KEY_Q then Some(Key.Q)
    else if raw == KEY_R then Some(Key.R)
    else if raw == KEY_S then Some(Key.S)
    else if raw == KEY_T then Some(Key.T)
    else if raw == KEY_U then Some(Key.U)
    else if raw == KEY_V then Some(Key.V)
    else if raw == KEY_W then Some(Key.W)
    else if raw == KEY_X then Some(Key.X)
    else if raw == KEY_Y then Some(Key.Y)
    else if raw == KEY_Z then Some(Key.Z)
    else if raw == KEY_SPACE then Some(Key.Space)
    else if raw == KEY_ESCAPE then Some(Key.Escape)
    else if raw == KEY_ENTER then Some(Key.Enter)
    else if raw == KEY_TAB then Some(Key.Tab)
    else if raw == KEY_BACKSPACE then Some(Key.Backspace)
    else if raw == KEY_INSERT then Some(Key.Insert)
    else if raw == KEY_DELETE then Some(Key.Delete)
    else if raw == KEY_RIGHT then Some(Key.Right)
    else if raw == KEY_LEFT then Some(Key.Left)
    else if raw == KEY_DOWN then Some(Key.Down)
    else if raw == KEY_UP then Some(Key.Up)
    else if raw == KEY_PAGE_UP then Some(Key.PageUp)
    else if raw == KEY_PAGE_DOWN then Some(Key.PageDown)
    else if raw == KEY_HOME then Some(Key.Home)
    else if raw == KEY_END then Some(Key.End)
    else if raw == KEY_CAPS_LOCK then Some(Key.CapsLock)
    else if raw == KEY_SCROLL_LOCK then Some(Key.ScrollLock)
    else if raw == KEY_NUM_LOCK then Some(Key.NumLock)
    else if raw == KEY_PRINT_SCREEN then Some(Key.PrintScreen)
    else if raw == KEY_PAUSE then Some(Key.Pause)
    else if raw == KEY_F1 then Some(Key.F1)
    else if raw == KEY_F2 then Some(Key.F2)
    else if raw == KEY_F3 then Some(Key.F3)
    else if raw == KEY_F4 then Some(Key.F4)
    else if raw == KEY_F5 then Some(Key.F5)
    else if raw == KEY_F6 then Some(Key.F6)
    else if raw == KEY_F7 then Some(Key.F7)
    else if raw == KEY_F8 then Some(Key.F8)
    else if raw == KEY_F9 then Some(Key.F9)
    else if raw == KEY_F10 then Some(Key.F10)
    else if raw == KEY_F11 then Some(Key.F11)
    else if raw == KEY_F12 then Some(Key.F12)
    else if raw == KEY_LEFT_SHIFT then Some(Key.LeftShift)
    else if raw == KEY_LEFT_CONTROL then Some(Key.LeftControl)
    else if raw == KEY_LEFT_ALT then Some(Key.LeftAlt)
    else if raw == KEY_LEFT_SUPER then Some(Key.LeftSuper)
    else if raw == KEY_RIGHT_SHIFT then Some(Key.RightShift)
    else if raw == KEY_RIGHT_CONTROL then Some(Key.RightControl)
    else if raw == KEY_RIGHT_ALT then Some(Key.RightAlt)
    else if raw == KEY_RIGHT_SUPER then Some(Key.RightSuper)
    else if raw == KEY_KB_MENU then Some(Key.Menu)
    else if raw == KEY_LEFT_BRACKET then Some(Key.LeftBracket)
    else if raw == KEY_BACKSLASH then Some(Key.Backslash)
    else if raw == KEY_RIGHT_BRACKET then Some(Key.RightBracket)
    else if raw == KEY_GRAVE then Some(Key.Grave)
    else if raw == KEY_KP_0 then Some(Key.KeypadZero)
    else if raw == KEY_KP_1 then Some(Key.KeypadOne)
    else if raw == KEY_KP_2 then Some(Key.KeypadTwo)
    else if raw == KEY_KP_3 then Some(Key.KeypadThree)
    else if raw == KEY_KP_4 then Some(Key.KeypadFour)
    else if raw == KEY_KP_5 then Some(Key.KeypadFive)
    else if raw == KEY_KP_6 then Some(Key.KeypadSix)
    else if raw == KEY_KP_7 then Some(Key.KeypadSeven)
    else if raw == KEY_KP_8 then Some(Key.KeypadEight)
    else if raw == KEY_KP_9 then Some(Key.KeypadNine)
    else if raw == KEY_KP_DECIMAL then Some(Key.KeypadDecimal)
    else if raw == KEY_KP_DIVIDE then Some(Key.KeypadDivide)
    else if raw == KEY_KP_MULTIPLY then Some(Key.KeypadMultiply)
    else if raw == KEY_KP_SUBTRACT then Some(Key.KeypadSubtract)
    else if raw == KEY_KP_ADD then Some(Key.KeypadAdd)
    else if raw == KEY_KP_ENTER then Some(Key.KeypadEnter)
    else if raw == KEY_KP_EQUAL then Some(Key.KeypadEqual)
    else None
  }

  /** Every key decodes from its own code. */
  lemma DecodeKeyCode(k: Key)
    ensures DecodeKey(KeyCode(k)) == Some(k)
  {
  }

  /** A code decodes to `None` exactly when no key has it. */
  lemma DecodeKeyNone(raw: i32)
    ensures DecodeKey(raw) == None <==> forall k: Key :: KeyCode(k) != raw
  {
    if DecodeKey(raw).Some? {
      assert KeyCode(DecodeKey(raw).value) == raw;
    }
  }

  lemma KeyTestCases()
    ensures KeyCode(Key.KeypadEqual) == 33 && DecodeKey(33) == Some(Key.KeypadEqual)
    ensures DecodeKey(KEY_A) == Some(Key.A) && DecodeKey(KEY_ESCAPE) == Some(Key.Escape)
  {
  }

  /** Codes that are no key's: raylib's "no key" 0, a negative code, and 336. */
  lemma UnknownKeyTestCases()
    ensures DecodeKey(0) == None && DecodeKey(-1) == None && DecodeKey(336) == None
  {
  }

  /** The number of `Key` variants. */
  const KEY_COUNT: nat := 105

  /** The variants of `Key` in declaration order. */
  function KeyAt(i: nat): (k: Key)
    requires i < KEY_COUNT
  {
    if i == 0 then Key.Apostrophe
    else if i == 1 then Key.Comma
    else if i == 2 then Key.Minus
    else if i == 3 then Key.Period
    else if i == 4 then Key.Slash
    else if i == 5 then Key.Zero
    else if i == 6 then Key.One
    else if i == 7 then Key.Two
    else if i == 8 then Key.Three
    else if i == 9 then Key.Four
    else if i == 10 then Key.Five
    else if i == 11 then Key.Six
    else if i == 12 then Key.Seven
    else if i == 13 then Key.Eight
    else if i == 14 then Key.Nine
    else if i == 15 then Key.Semicolon
    else if i == 16 then Key.Equal
    else if i == 17 then Key.A
    else if i == 18 then Key.B
    else if i == 19 then Key.C
    else if i == 20 then Key.D
    else if i == 21 then Key.E
    else if i == 22 then Key.F
    else if i == 23 then Key.G
    else if i == 24 then Key.H
    else if i == 25 then Key.I
    else if i == 26 then Key.J
    else if i == 27 then Key.K
    else if i == 28 then Key.L
    else if i == 29 then Key.M
    else if i == 30 then Key.N
    else if i == 31 then Key.O
    else if i == 32 then Key.P
    else if i == 33 then Key.Q
    else if i == 34 then Key.R
    else if i == 35 then Key.S
    else if i == 36 then Key.T
    else if i == 37 then Key.U
    else if i == 38 then Key.V
    else if i == 39 then Key.W
    else if i == 40 then Key.X
    else if i == 41 then Key.Y
    else if i == 42 then Key.Z
    else if i == 43 then Key.Space
    else if i == 44 then Key.Escape
    else if i == 45 then Key.Enter
    else if i == 46 then Key.Tab
    else if i == 47 then Key.Backspace
    else if i == 48 then Key.Insert
    else if i == 49 then Key.Delete
    else if i == 50 then Key.Right
    else if i == 51 then Key.Left
    else if i == 52 then Key.Down
    else if i == 53 then Key.Up
    else if i == 54 then Key.PageUp
    else if i == 55 then Key.PageDown
    else if i == 56 then Key.Home
    else if i == 57 then Key.End
    else if i == 58 then Key.CapsLock
    else if i == 59 then Key.ScrollLock
    else if i == 60 then Key.NumLock
    else if i == 61 then Key.PrintScreen
    else if i == 62 then Key.Pause
    else if i == 63 then Key.F1
    else if i == 64 then Key.F2
    else if i == 65 then Key.F3
    else if i == 66 then Key.F4
    else if i == 67 then Key.F5
    else if i == 68 then Key.F6
    else if i == 69 then Key.F7
    else if i == 70 then Key.F8
    else if i == 71 then Key.F9
    else if i == 72 then Key.F10
    else if i == 73 then Key.F11
    else if i == 74 then Key.F12
    else if i == 75 then Key.LeftShift
    else if i == 76 then Key.LeftControl
    else if i == 77 then Key.LeftAlt
    else if i == 78 then Key.LeftSuper
    else if i == 79 then Key.RightShift
    else if i == 80 then Key.RightControl
    else if i == 81 then Key.RightAlt
    else if i == 82 then Key.RightSuper
    else if i == 83 then Key.Menu
    else if i == 84 then Key.LeftBracket
    else if i == 85 then Key.Backslash
    else if i == 86 then Key.RightBracket
    else if i == 87 then Key.Grave
    else if i == 88 then Key.KeypadZero
    else if i == 89 then Key.KeypadOne
    else if i == 90 then Key.KeypadTwo
    else if i == 91 then Key.KeypadThree
    else if i == 92 then Key.KeypadFour
    else if i == 93 then Key.KeypadFive
    else if i == 94 then Key.KeypadSix
    else if i == 95 then Key.KeypadSeven
    else if i == 96 then Key.KeypadEight
    else if i == 97 then Key.KeypadNine
    else if i == 98 then Key.KeypadDecimal
    else if i == 99 then Key.KeypadDivide
    else if i == 100 then Key.KeypadMultiply
    else if i == 101 then Key.KeypadSubtract
    else if i == 102 then Key.KeypadAdd
    else if i == 103 then Key.KeypadEnter
    else Key.KeypadEqual
  }

  /** The position of a variant in declaration order. */
  function KeyOrdinal(k: Key): (i: nat)
    ensures i < KEY_COUNT
  {
    if k == Key.Apostrophe then 0
    else if k == Key.Comma then 1
    else if k == Key.Minus then 2
    else if k == Key.Period then 3
    else if k == Key.Slash then 4
    else if k == Key.Zero then 5
    else if k == Key.One then 6
    else if k == Key.Two then 7
    else if k == Key.Three then 8
    else if k == Key.Four then 9
    else if k == Key.Five then 10
    else if k == Key.Six then 11
    else if k == Key.Seven then 12
    else if k == Key.Eight then 13
    else if k == Key.Nine then 14
    else if k == Key.Semicolon then 15
    else if k == Key.Equal then 16
    else if k == Key.A then 17
    else if k == Key.B then 18
    else if k == Key.C then 19
    else if k == Key.D then 20
    else if k == Key.E then 21
    else if k == Key.F then 22
    else if k == Key.G then 23
    else if k == Key.H then 24
    else if k == Key.I then 25
    else if k == Key.J then 26
    else if k == Key.K then 27
    else if k == Key.L then 28
    else if k == Key.M then 29
    else if k == Key.N then 30
    else if k == Key.O then 31
    else if k == Key.P then 32
    else if k == Key.Q then 33
    else if k == Key.R then 34
    else if k == Key.S then 35
    else if k == Key.T then 36
    else if k == Key.U then 37
    else if k == Key.V then 38
    else if k == Key.W then 39
    else if k == Key.X then 40
    else if k == Key.Y then 41
    else if k == Key.Z then 42
    else if k == Key.Space then 43
    else if k == Key.Escape then 44
    else if k == Key.Enter then 45
    else if k == Key.Tab then 46
    else if k == Key.Backspace then 47
    else if k == Key.Insert then 48
    else if k == Key.Delete then 49
    else if k == Key.Right then 50
    else if k == Key.Left then 51
    else if k == Key.Down then 52
    else if k == Key.Up then 53
    else if k == Key.PageUp then 54
    else if k == Key.PageDown then 55
    else if k == Key.Home then 56
    else if k == Key.End then 57
    else if k == Key.CapsLock then 58
    else if k == Key.ScrollLock then 59
    else if k == Key.NumLock then 60
    else if k == Key.PrintScreen then 61
    else if k == Key.Pause then 62
    else if k == Key.F1 then 63
    else if k == Key.F2 then 64
    else if k == Key.F3 then 65
    else if k == Key.F4 then 66
    else if k == Key.F5 then 67
    else if k == Key.F6 then 68
    else if k == Key.F7 then 69
    else if k == Key.F8 then 70
    else if k == Key.F9 then 71
    else if k == Key.F10 then 72
    else if k == Key.F11 then 73
    else if k == Key.F12 then 74
    else if k == Key.LeftShift then 75
    else if k == Key.LeftControl then 76
    else if k == Key.LeftAlt then 77
    else if k == Key.LeftSuper then 78
    else if k == Key.RightShift then 79
    else if k == Key.RightControl then 80
    else if k == Key.RightAlt then 81
    else if k == Key.RightSuper then 82
    else if k == Key.Menu then 83
    else if k == Key.LeftBracket then 84
    else if k == Key.Backslash then 85
    else if k == Key.RightBracket then 86
    else if k == Key.Grave then 87
    else if k == Key.KeypadZero then 88
    else if k == Key.KeypadOne then 89
    else if k == Key.KeypadTwo then 90
    else if k == Key.KeypadThree then 91
    else if k == Key.KeypadFour then 92
    else if k == Key.KeypadFive then 93
    else if k == Key.KeypadSix then 94
    else if k == Key.KeypadSeven then 95
    else if k == Key.KeypadEight then 96
    else if k == Key.KeypadNine then 97
    else if k == Key.KeypadDecimal then 98
    else if k == Key.KeypadDivide then 99
    else if k == Key.KeypadMultiply then 100
    else if k == Key.KeypadSubtract then 101
    else if k == Key.KeypadAdd then 102
    else if k == Key.KeypadEnter then 103
    else 104
  }

  /** Reading back the position of the variant at any position gives that position. */
  lemma OrdinalKeyAt(i: nat)
    requires i < KEY_COUNT
    ensures KeyOrdinal(KeyAt(i)) == i
  {
  }

  /** No two variants share a discriminant, so `DecodeKey` inverts `key as i32` on every key. */
  lemma KeysDistinct(i: nat, j: nat)
    requires i < KEY_COUNT && j < KEY_COUNT && i != j
    ensures KeyCode(KeyAt(i)) != KeyCode(KeyAt(j))
  {
    OrdinalKeyAt(i);
    OrdinalKeyAt(j);
  }
}

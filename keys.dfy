/** The key vocabulary of Toolbelt.Blazor.HotKeys: the symbolic names an
    application binds hotkeys to, and the numeric key code behind each name.
    The codes are legacy `keyCode` values of browser keyboard events. Most of
    them are the Windows virtual-key codes; SemiColon (0x3B) and Equal (0x3D)
    are instead the values Gecko reports for those keys. Two names are
    deprecated aliases that share their code with the correctly spelt name
    that replaced them. */
module KeyTable {

  datatype Option<T> = None | Some(value: T)

  /** Every key name, in declaration order. */
  datatype Keys =
      Backspace | Tab | Shift | Ctrl | Alt | Pause | CapsLock | Enter | ESC | Space
    | PgUp | PgDown | End | Home | Left | Up | Right | Down | Insert | Delete | Num0
    | Num1 | Num2 | Num3 | Num4 | Num5 | Num6 | Num7 | Num8 | Num9 | SemiColon | Equal
    | A | B | C | D | E | F | G | H | I | J | K | L | M | N | O | P | Q | R | S | T | U
    | V | W | X | Y | Z | ContextMenu | Multiply | Add | Subtract | Divide | F1 | F2
    | F3 | F4 | F5 | F6 | F7 | F8 | F9 | F10 | F11 | F12 | NumLock | ScrollLock
    | Hyphen | Comma | Period | Slash | BackQuart | BackQuote | BlaceLeft | BackSlash
    | BlaceRight | SingleQuart | SingleQuote | AudioVolumeMute | AudioVolumeDown
    | AudioVolumeUp | MediaTrackNext | MediaTrackPrevious | MediaPlayPause
    | LaunchMediaPlayer

  /** The numeric key code of each name. Every code fits in a byte and lies
      between that of Backspace (0x08) and that of SingleQuote (0xDE). */
  function Code(k: Keys): (r: int)
    ensures 0x08 <= r <= 0xDE
  {
    match k
    case Backspace => 0x08
    case Tab => 0x09
    case Shift => 0x10
    case Ctrl => 0x11
    case Alt => 0x12
    case Pause => 0x13
    case CapsLock => 0x14
    case Enter => 0x0D
    case ESC => 0x1B
    case Space => 0x20
    case PgUp => 0x21
    case PgDown => 0x22
    case End => 0x23
    case Home => 0x24
    case Left => 0x25
    case Up => 0x26
    case Right => 0x27
    case Down => 0x28
    case Insert => 0x2D
    case Delete => 0x2E
    case Num0 => 0x30
    case Num1 => 0x31
    case Num2 => 0x32
    case Num3 => 0x33
    case Num4 => 0x34
    case Num5 => 0x35
    case Num6 => 0x36
    case Num7 => 0x37
    case Num8 => 0x38
    case Num9 => 0x39
    case SemiColon => 0x3B
    case Equal => 0x3D
    case A => 0x41
    case B => 0x42
    case C => 0x43
    case D => 0x44
    case E => 0x45
    case F => 0x46
    case G => 0x47
    case H => 0x48
    case I => 0x49
    case J => 0x4A
    case K => 0x4B
    case L => 0x4C
    case M => 0x4D
    case N => 0x4E
    case O => 0x4F
    case P => 0x50
    case Q => 0x51
    case R => 0x52
    case S => 0x53
    case T => 0x54
    case U => 0x55
    case V => 0x56
    case W => 0x57
    case X => 0x58
    case Y => 0x59
    case Z => 0x5A
    case ContextMenu => 0x5D
    case Multiply => 0x6A
    case Add => 0x6B
    case Subtract => 0x6D
    case Divide => 0x6F
    case F1 => 0x70
    case F2 => 0x71
    case F3 => 0x72
    case F4 => 0x73
    case F5 => 0x74
    case F6 => 0x75
    case F7 => 0x76
    case F8 => 0x77
    case F9 => 0x78
    case F10 => 0x79
    case F11 => 0x7A
    case F12 => 0x7B
    case NumLock => 0x90
    case ScrollLock => 0x91
    case Hyphen => 0xBD
    case Comma => 0xBC
    case Period => 0xBE
    case Slash => 0xBF
    case BackQuart => 0xC0
    case BackQuote => 0xC0
    case BlaceLeft => 0xDB
    case BackSlash => 0xDC
    case BlaceRight => 0xDD
    case SingleQuart => 0xDE
    case SingleQuote => 0xDE
    case AudioVolumeMute => 0xAD
    case AudioVolumeDown => 0xAE
    case AudioVolumeUp => 0xAF
    case MediaTrackNext => 0xB0
    case MediaTrackPrevious => 0xB1
    case MediaPlayPause => 0xB3
    case LaunchMediaPlayer => 0xB5
  }

  /** The two names kept only for compatibility; each misspells its replacement. */
  predicate IsDeprecated(k: Keys) {
    k.BackQuart? || k.SingleQuart?
  }

  /** The name a deprecated alias is to be replaced by; every other name is
      already canonical. */
  function Canonical(k: Keys): (c: Keys)
    ensures !IsDeprecated(c)
    ensures !IsDeprecated(k) ==> c == k
  {
    if k.BackQuart? then BackQuote
    else if k.SingleQuart? then SingleQuote
    else k
  }

  /** The table read backwards: the canonical name that carries code `n`, if
      any. The codes are looked up block by block, in ascending order. */
  function FromCode(n: int): Option<Keys> {
    if n < 0x20 then ControlFromCode(n)
    else if n < 0x30 then NavigationFromCode(n)
    else if n < 0x3A then DigitFromCode(n)
    else if n < 0x5B then LetterFromCode(n)
    else if n < 0x70 then KeypadFromCode(n)
    else if n < 0xA0 then FunctionFromCode(n)
    else if n < 0xBA then MediaFromCode(n)
    else PunctuationFromCode(n)
  }

  /** Codes below that of Space: editing, modifier and control keys. */
  function ControlFromCode(n: int): Option<Keys> {
    match n
    case 0x08 => Some(Backspace)
    case 0x09 => Some(Tab)
    case 0x0D => Some(Enter)
    case 0x10 => Some(Shift)
    case 0x11 => Some(Ctrl)
    case 0x12 => Some(Alt)
    case 0x13 => Some(Pause)
    case 0x14 => Some(CapsLock)
    case 0x1B => Some(ESC)
    case _ => None
  }

  /** Space and the navigation keys, up to Delete. */
  function NavigationFromCode(n: int): Option<Keys> {
    match n
    case 0x20 => Some(Space)
    case 0x21 => Some(PgUp)
    case 0x22 => Some(PgDown)
    case 0x23 => Some(End)
    case 0x24 => Some(Home)
    case 0x25 => Some(Left)
    case 0x26 => Some(Up)
    case 0x27 => Some(Right)
    case 0x28 => Some(Down)
    case 0x2D => Some(Insert)
    case 0x2E => Some(Delete)
    case _ => None
  }

  /** The digit row. */
  function DigitFromCode(n: int): Option<Keys> {
    match n
    case 0x30 => Some(Num0)
    case 0x31 => Some(Num1)
    case 0x32 => Some(Num2)
    case 0x33 => Some(Num3)
    case 0x34 => Some(Num4)
    case 0x35 => Some(Num5)
    case 0x36 => Some(Num6)
    case 0x37 => Some(Num7)
    case 0x38 => Some(Num8)
    case 0x39 => Some(Num9)
    case _ => None
  }

  /** The semicolon and equals keys and the letters. */
  function LetterFromCode(n: int): Option<Keys> {
    match n
    case 0x3B => Some(SemiColon)
    case 0x3D => Some(Equal)
    case 0x41 => Some(A)
    case 0x42 => Some(B)
    case 0x43 => Some(C)
    case 0x44 => Some(D)
    case 0x45 => Some(E)
    case 0x46 => Some(F)
    case 0x47 => Some(G)
    case 0x48 => Some(H)
    case 0x49 => Some(I)
    case 0x4A => Some(J)
    case 0x4B => Some(K)
    case 0x4C => Some(L)
    case 0x4D => Some(M)
    case 0x4E => Some(N)
    case 0x4F => Some(O)
    case 0x50 => Some(P)
    case 0x51 => Some(Q)
    case 0x52 => Some(R)
    case 0x53 => Some(S)
    case 0x54 => Some(T)
    case 0x55 => Some(U)
    case 0x56 => Some(V)
    case 0x57 => Some(W)
    case 0x58 => Some(X)
    case 0x59 => Some(Y)
    case 0x5A => Some(Z)
    case _ => None
  }

  /** The context-menu key and the keypad operators. */
  function KeypadFromCode(n: int): Option<Keys> {
    match n
    case 0x5D => Some(ContextMenu)
    case 0x6A => Some(Multiply)
    case 0x6B => Some(Add)
    case 0x6D => Some(Subtract)
    case 0x6F => Some(Divide)
    case _ => None
  }

  /** The function keys and the lock keys. */
  function FunctionFromCode(n: int): Option<Keys> {
    match n
    case 0x70 => Some(F1)
    case 0x71 => Some(F2)
    case 0x72 => Some(F3)
    case 0x73 => Some(F4)
    case 0x74 => Some(F5)
    case 0x75 => Some(F6)
    case 0x76 => Some(F7)
    case 0x77 => Some(F8)
    case 0x78 => Some(F9)
    case 0x79 => Some(F10)
    case 0x7A => Some(F11)
    case 0x7B => Some(F12)
    case 0x90 => Some(NumLock)
    case 0x91 => Some(ScrollLock)
    case _ => None
  }

  /** The volume and media keys. */
  function MediaFromCode(n: int): Option<Keys> {
    match n
    case 0xAD => Some(AudioVolumeMute)
    case 0xAE => Some(AudioVolumeDown)
    case 0xAF => Some(AudioVolumeUp)
    case 0xB0 => Some(MediaTrackNext)
    case 0xB1 => Some(MediaTrackPrevious)
    case 0xB3 => Some(MediaPlayPause)
    case 0xB5 => Some(LaunchMediaPlayer)
    case _ => None
  }

  /** The punctuation keys. */
  function PunctuationFromCode(n: int): Option<Keys> {
    match n
    case 0xBC => Some(Comma)
    case 0xBD => Some(Hyphen)
    case 0xBE => Some(Period)
    case 0xBF => Some(Slash)
    case 0xC0 => Some(BackQuote)
    case 0xDB => Some(BlaceLeft)
    case 0xDC => Some(BackSlash)
    case 0xDD => Some(BlaceRight)
    case 0xDE => Some(SingleQuote)
    case _ => None
  }

  /** Letter `i` of the alphabet, `A` being letter 0. */
  function Letter(i: int): Keys
    requires 0 <= i < 26
  {
    match i
    case 0 => A
    case 1 => B
    case 2 => C
    case 3 => D
    case 4 => E
    case 5 => F
    case 6 => G
    case 7 => H
    case 8 => I
    case 9 => J
    case 10 => K
    case 11 => L
    case 12 => M
    case 13 => N
    case 14 => O
    case 15 => P
    case 16 => Q
    case 17 => R
    case 18 => S
    case 19 => T
    case 20 => U
    case 21 => V
    case 22 => W
    case 23 => X
    case 24 => Y
    case _ => Z
  }

  /** The digit key `Num<d>`. */
  function Digit(d: int): (k: Keys)
    requires 0 <= d < 10
    ensures Code(k) == 0x30 + d
  {
    match d
    case 0 => Num0
    case 1 => Num1
    case 2 => Num2
    case 3 => Num3
    case 4 => Num4
    case 5 => Num5
    case 6 => Num6
    case 7 => Num7
    case 8 => Num8
    case _ => Num9
  }

  /** The function key `F<n>`. */
  function FunctionKey(n: int): Keys
    requires 1 <= n <= 12
  {
    match n
    case 1 => F1
    case 2 => F2
    case 3 => F3
    case 4 => F4
    case 5 => F5
    case 6 => F6
    case 7 => F7
    case 8 => F8
    case 9 => F9
    case 10 => F10
    case 11 => F11
    case _ => F12
  }

  /** The modifier keys a hotkey combination may hold down. */
  predicate IsModifier(k: Keys): (r: bool)
    ensures r ==> 0x10 <= Code(k) <= 0x12
  {
    k.Shift? || k.Ctrl? || k.Alt?
  }

  /** The two pairs of distinct names that denote the same key. */
  predicate AreAliases(a: Keys, b: Keys): (r: bool)
    ensures r ==> a != b && Canonical(a) == Canonical(b)
  {
    || (a.BackQuart? && b.BackQuote?) || (a.BackQuote? && b.BackQuart?)
    || (a.SingleQuart? && b.SingleQuote?) || (a.SingleQuote? && b.SingleQuart?)
  }
}

/** Facts about the key table: reading it backwards recovers every name, two
    names share a code exactly when one is the deprecated spelling of the
    other, and the letters, digits, function keys and modifiers occupy the
    contiguous code blocks the browser assigns them. */
module KeyFacts {
  import opened KeyTable

  // The round trip through `FromCode` is proved block by block: each lemma
  // below covers a run of consecutive declarations.

  /** Backspace, Tab, the modifiers and the other keys up to Space. */
  predicate InControlKeys(k: Keys) {
    k.Backspace? || k.Tab? || k.Shift? || k.Ctrl? || k.Alt? || k.Pause? || k.CapsLock?
    || k.Enter? || k.ESC? || k.Space?
  }

  lemma FromCodeOfControlKeys(k: Keys)
    requires InControlKeys(k)
    ensures Canonical(k) == k && FromCode(Code(k)) == Some(k)
  {
    match k
    case Backspace =>
    case Tab =>
    case Shift =>
    case Ctrl =>
    case Alt =>
    case Pause =>
    case CapsLock =>
    case Enter =>
    case ESC =>
    case Space =>
    case _ =>
      assert false;
  }

  /** The paging and arrow keys, Insert and Delete. */
  predicate InNavigationKeys(k: Keys) {
    k.PgUp? || k.PgDown? || k.End? || k.Home? || k.Left? || k.Up? || k.Right?
    || k.Down? || k.Insert? || k.Delete?
  }

  lemma FromCodeOfNavigationKeys(k: Keys)
    requires InNavigationKeys(k)
    ensures Canonical(k) == k && FromCode(Code(k)) == Some(k)
  {
    match k
    case PgUp =>
    case PgDown =>
    case End =>
    case Home =>
    case Left =>
    case Up =>
    case Right =>
    case Down =>
    case Insert =>
    case Delete =>
    case _ =>
      assert false;
  }

  /** The digit row. */
  predicate InDigitKeys(k: Keys) {
    k.Num0? || k.Num1? || k.Num2? || k.Num3? || k.Num4? || k.Num5? || k.Num6?
    || k.Num7? || k.Num8? || k.Num9?
  }

  lemma FromCodeOfDigitKeys(k: Keys)
    requires InDigitKeys(k)
    ensures Canonical(k) == k && FromCode(Code(k)) == Some(k)
  {
    match k
    case Num0 =>
    case Num1 =>
    case Num2 =>
    case Num3 =>
    case Num4 =>
    case Num5 =>
    case Num6 =>
    case Num7 =>
    case Num8 =>
    case Num9 =>
    case _ =>
      assert false;
  }

  /** SemiColon, Equal and the letters A to H. */
  predicate InLettersAToH(k: Keys) {
    k.SemiColon? || k.Equal? || k.A? || k.B? || k.C? || k.D? || k.E? || k.F? || k.G?
    || k.H?
  }

  lemma FromCodeOfLettersAToH(k: Keys)
    requires InLettersAToH(k)
    ensures Canonical(k) == k && FromCode(Code(k)) == Some(k)
  {
    match k
    case SemiColon =>
    case Equal =>
    case A =>
    case B =>
    case C =>
    case D =>
    case E =>
    case F =>
    case G =>
    case H =>
    case _ =>
      assert false;
  }

  /** The letters I to R. */
  predicate InLettersIToR(k: Keys) {
    k.I? || k.J? || k.K? || k.L? || k.M? || k.N? || k.O? || k.P? || k.Q? || k.R?
  }

  lemma FromCodeOfLettersIToR(k: Keys)
    requires InLettersIToR(k)
    ensures Canonical(k) == k && FromCode(Code(k)) == Some(k)
  {
    match k
    case I =>
    case J =>
    case K =>
    case L =>
    case M =>
    case N =>
    case O =>
    case P =>
    case Q =>
    case R =>
    case _ =>
      assert false;
  }

  /** The letters S to Z, ContextMenu and Multiply. */
  predicate InLettersSToZ(k: Keys) {
    k.S? || k.T? || k.U? || k.V? || k.W? || k.X? || k.Y? || k.Z? || k.ContextMenu?
    || k.Multiply?
  }

  lemma FromCodeOfLettersSToZ(k: Keys)
    requires InLettersSToZ(k)
    ensures Canonical(k) == k && FromCode(Code(k)) == Some(k)
  {
    match k
    case S =>
    case T =>
    case U =>
    case V =>
    case W =>
    case X =>
    case Y =>
    case Z =>
    case ContextMenu =>
    case Multiply =>
    case _ =>
      assert false;
  }

  /** The other keypad operators and the function keys F1 to F7. */
  predicate InKeypadKeys(k: Keys) {
    k.Add? || k.Subtract? || k.Divide? || k.F1? || k.F2? || k.F3? || k.F4? || k.F5?
    || k.F6? || k.F7?
  }

  lemma FromCodeOfKeypadKeys(k: Keys)
    requires InKeypadKeys(k)
    ensures Canonical(k) == k && FromCode(Code(k)) == Some(k)
  {
    match k
    case Add =>
    case Subtract =>
    case Divide =>
    case F1 =>
    case F2 =>
    case F3 =>
    case F4 =>
    case F5 =>
    case F6 =>
    case F7 =>
    case _ =>
      assert false;
  }

  /** The function keys F8 to F12, the lock keys, Hyphen and Comma. */
  predicate InLockKeys(k: Keys) {
    k.F8? || k.F9? || k.F10? || k.F11? || k.F12? || k.NumLock? || k.ScrollLock?
    || k.Hyphen? || k.Comma?
  }

  lemma FromCodeOfLockKeys(k: Keys)
    requires InLockKeys(k)
    ensures Canonical(k) == k && FromCode(Code(k)) == Some(k)
  {
    match k
    case F8 =>
    case F9 =>
    case F10 =>
    case F11 =>
    case F12 =>
    case NumLock =>
    case ScrollLock =>
    case Hyphen =>
    case Comma =>
    case _ =>
      assert false;
  }

  /** Period, Slash and the back-quote key under both of its names. */
  predicate InBackQuoteKeys(k: Keys) {
    k.Period? || k.Slash? || k.BackQuart? || k.BackQuote?
  }

  lemma FromCodeOfBackQuoteKeys(k: Keys)
    requires InBackQuoteKeys(k)
    ensures FromCode(Code(k)) == Some(Canonical(k))
  {
    match k
    case Period =>
    case Slash =>
    case BackQuart =>
    case BackQuote =>
    case _ =>
      assert false;
  }

  /** The brackets, the backslash and the single-quote key under both of its names. */
  predicate InBracketKeys(k: Keys) {
    k.BlaceLeft? || k.BackSlash? || k.BlaceRight? || k.SingleQuart? || k.SingleQuote?
  }

  lemma FromCodeOfBracketKeys(k: Keys)
    requires InBracketKeys(k)
    ensures FromCode(Code(k)) == Some(Canonical(k))
  {
    match k
    case BlaceLeft =>
    case BackSlash =>
    case BlaceRight =>
    case SingleQuart =>
    case SingleQuote =>
    case _ =>
      assert false;
  }

  /** The volume and media keys. */
  predicate InMediaKeys(k: Keys) {
    k.AudioVolumeMute? || k.AudioVolumeDown? || k.AudioVolumeUp? || k.MediaTrackNext?
    || k.MediaTrackPrevious? || k.MediaPlayPause? || k.LaunchMediaPlayer?
  }

  lemma FromCodeOfMediaKeys(k: Keys)
    requires InMediaKeys(k)
    ensures Canonical(k) == k && FromCode(Code(k)) == Some(k)
  {
    match k
    case AudioVolumeMute =>
    case AudioVolumeDown =>
    case AudioVolumeUp =>
    case MediaTrackNext =>
    case MediaTrackPrevious =>
    case MediaPlayPause =>
    case LaunchMediaPlayer =>
    case _ =>
      assert false;
  }

  /** Reading the table backwards at the code of any name yields that name,
      or, for a deprecated alias, the name that replaced it. */
  lemma FromCodeOfCode(k: Keys)
    ensures FromCode(Code(k)) == Some(Canonical(k))
  {
    if InControlKeys(k) {
      FromCodeOfControlKeys(k);
    } else if InNavigationKeys(k) {
      FromCodeOfNavigationKeys(k);
    } else if InDigitKeys(k) {
      FromCodeOfDigitKeys(k);
    } else if InLettersAToH(k) {
      FromCodeOfLettersAToH(k);
    } else if InLettersIToR(k) {
      FromCodeOfLettersIToR(k);
    } else if InLettersSToZ(k) {
      FromCodeOfLettersSToZ(k);
    } else if InKeypadKeys(k) {
      FromCodeOfKeypadKeys(k);
    } else if InLockKeys(k) {
      FromCodeOfLockKeys(k);
    } else if InBackQuoteKeys(k) {
      FromCodeOfBackQuoteKeys(k);
    } else if InBracketKeys(k) {
      FromCodeOfBracketKeys(k);
    } else {
      FromCodeOfMediaKeys(k);
    }
  }

  /** BackQuart carries the back-quote code 0xC0, like BackQuote. */
  lemma BackQuoteCode(k: Keys)
    requires k.BackQuart? || k.BackQuote?
    ensures Code(k) == 0xC0
  {
  }

  /** SingleQuart carries the single-quote code 0xDE, like SingleQuote. */
  lemma SingleQuoteCode(k: Keys)
    requires k.SingleQuart? || k.SingleQuote?
    ensures Code(k) == 0xDE
  {
  }

  /** Replacing a deprecated alias by its successor keeps the code. */
  lemma CanonicalKeepsCode(k: Keys)
    ensures Code(Canonical(k)) == Code(k)
  {
    if k.BackQuart? {
      BackQuoteCode(k);
      BackQuoteCode(Canonical(k));
    } else if k.SingleQuart? {
      SingleQuoteCode(k);
      SingleQuoteCode(Canonical(k));
    } else {
      assert Canonical(k) == k;
    }
  }

  /** Canonicalising twice is canonicalising once. */
  lemma CanonicalIdempotent(k: Keys)
    ensures Canonical(Canonical(k)) == Canonical(k)
  {
  }

  /** Names with the same code canonicalise to the same name. */
  lemma SameCodeSameCanonical(a: Keys, b: Keys)
    requires Code(a) == Code(b)
    ensures Canonical(a) == Canonical(b)
  {
    FromCodeOfCode(a);
    FromCodeOfCode(b);
  }

  /** Names that canonicalise to the same name have the same code. */
  lemma SameCanonicalSameCode(a: Keys, b: Keys)
    requires Canonical(a) == Canonical(b)
    ensures Code(a) == Code(b)
  {
    CanonicalKeepsCode(a);
    CanonicalKeepsCode(b);
  }

  /** Two names have the same code exactly when they canonicalise to the same name. */
  lemma SameCodeIffSameCanonical(a: Keys, b: Keys)
    ensures Code(a) == Code(b) <==> Canonical(a) == Canonical(b)
  {
    if Code(a) == Code(b) {
      SameCodeSameCanonical(a, b);
    }
    if Canonical(a) == Canonical(b) {
      SameCanonicalSameCode(a, b);
    }
  }

  /** Leaving the deprecated aliases aside, no two names share a code. */
  lemma CodeInjective(a: Keys, b: Keys)
    requires !IsDeprecated(a) && !IsDeprecated(b)
    ensures Code(a) == Code(b) <==> a == b
  {
    if Code(a) == Code(b) {
      SameCodeSameCanonical(a, b);
    }
  }

  /** Distinct names canonicalise alike only when they are an alias pair. */
  lemma AliasesOfSameCanonical(a: Keys, b: Keys)
    requires a != b && Canonical(a) == Canonical(b)
    ensures AreAliases(a, b)
  {
    if IsDeprecated(a) {
      assert b == Canonical(a);
    } else if IsDeprecated(b) {
      assert a == Canonical(b);
    }
  }

  /** Each alias pair shares the back-quote or the single-quote code. */
  lemma AliasesShareCode(a: Keys, b: Keys)
    requires AreAliases(a, b)
    ensures a != b && Code(a) == Code(b)
    ensures Code(a) == 0xC0 || Code(a) == 0xDE
  {
    if a.BackQuart? || a.BackQuote? {
      BackQuoteCode(a);
      BackQuoteCode(b);
    } else {
      SingleQuoteCode(a);
      SingleQuoteCode(b);
    }
  }

  /** The only distinct names sharing a code are the two alias pairs, on the
      back-quote code 0xC0 and the single-quote code 0xDE. */
  lemma SharedCodes(a: Keys, b: Keys)
    ensures a != b && Code(a) == Code(b) <==> AreAliases(a, b)
    ensures AreAliases(a, b) ==> Code(a) == 0xC0 || Code(a) == 0xDE
  {
    if a != b && Code(a) == Code(b) {
      SameCodeSameCanonical(a, b);
      AliasesOfSameCanonical(a, b);
    }
    if AreAliases(a, b) {
      AliasesShareCode(a, b);
    }
  }

  /** A name whose code no deprecated alias carries is the only name with
      that code. */
  lemma NameOfCode(k: Keys, other: Keys)
    requires Code(k) == Code(other)
    requires Code(other) != 0xC0 && Code(other) != 0xDE
    ensures k == other
  {
    if k != other {
      SharedCodes(k, other);
    }
  }

  // Letters: A to Z carry the ASCII codes of the capital letters.

  /** Letter `i` carries the ASCII code of the `i`-th capital letter. */
  lemma LetterCode(i: int)
    requires 0 <= i < 26
    ensures Code(Letter(i)) == 0x41 + i
  {
  }

  /** The names `Letter` enumerates. */
  ghost predicate IsLetter(k: Keys) {
    exists i :: 0 <= i < 26 && Letter(i) == k
  }

  /** A name is a letter exactly when its code lies in 0x41..0x5A. */
  lemma LetterBlock(k: Keys)
    ensures IsLetter(k) <==> 0x41 <= Code(k) <= 0x5A
  {
    if IsLetter(k) {
      var i :| 0 <= i < 26 && Letter(i) == k;
      LetterCode(i);
    }
    if 0x41 <= Code(k) <= 0x5A {
      var i := Code(k) - 0x41;
      LetterCode(i);
      NameOfCode(k, Letter(i));
    }
  }

  // Digits: Num0 to Num9 carry the ASCII codes of the digits (the
  // contract of `Digit`).

  /** The names `Digit` enumerates. */
  ghost predicate IsDigit(k: Keys) {
    exists d :: 0 <= d < 10 && Digit(d) == k
  }

  /** A name is a digit key exactly when its code lies in 0x30..0x39. */
  lemma DigitBlock(k: Keys)
    ensures IsDigit(k) <==> 0x30 <= Code(k) <= 0x39
  {
    if IsDigit(k) {
      var d :| 0 <= d < 10 && Digit(d) == k;
    }
    if 0x30 <= Code(k) <= 0x39 {
      var d := Code(k) - 0x30;
      NameOfCode(k, Digit(d));
    }
  }

  // Function keys: F1 to F12 carry 0x70 to 0x7B.

  /** `F<n>` carries 0x6F + n. */
  lemma FunctionKeyCode(n: int)
    requires 1 <= n <= 12
    ensures Code(FunctionKey(n)) == 0x6F + n
  {
  }

  /** The names `FunctionKey` enumerates. */
  ghost predicate IsFunctionKey(k: Keys) {
    exists n :: 1 <= n <= 12 && FunctionKey(n) == k
  }

  /** A name is a function key exactly when its code lies in 0x70..0x7B. */
  lemma FunctionKeyBlock(k: Keys)
    ensures IsFunctionKey(k) <==> 0x70 <= Code(k) <= 0x7B
  {
    if IsFunctionKey(k) {
      var n :| 1 <= n <= 12 && FunctionKey(n) == k;
      FunctionKeyCode(n);
    }
    if 0x70 <= Code(k) <= 0x7B {
      var n := Code(k) - 0x6F;
      FunctionKeyCode(n);
      NameOfCode(k, FunctionKey(n));
    }
  }

  /** Shift, Ctrl and Alt carry the adjacent codes 0x10, 0x11 and 0x12. */
  lemma ModifierCodes()
    ensures Code(Shift) == 0x10 && Code(Ctrl) == 0x11 && Code(Alt) == 0x12
  {
  }

  /** A name is a modifier exactly when its code lies in 0x10..0x12. */
  lemma ModifierBlock(k: Keys)
    ensures IsModifier(k) <==> 0x10 <= Code(k) <= 0x12
  {
    ModifierCodes();
    if Code(k) == 0x10 {
      NameOfCode(k, Shift);
    } else if Code(k) == 0x11 {
      NameOfCode(k, Ctrl);
    } else if Code(k) == 0x12 {
      NameOfCode(k, Alt);
    }
  }

  /** No modifier is a letter, a digit or a function key, and no modifier
      shares its code with one. */
  lemma ModifiersApart(k: Keys)
    requires IsModifier(k)
    ensures !IsLetter(k) && !IsDigit(k) && !IsFunctionKey(k)
    ensures forall l :: IsLetter(l) || IsDigit(l) || IsFunctionKey(l) ==> Code(k) != Code(l)
  {
    ModifierBlock(k);
    LetterBlock(k);
    DigitBlock(k);
    FunctionKeyBlock(k);
    forall l | IsLetter(l) || IsDigit(l) || IsFunctionKey(l)
      ensures Code(k) != Code(l)
    {
      LetterBlock(l);
      DigitBlock(l);
      FunctionKeyBlock(l);
    }
  }
}

# Toolbelt.Blazor.HotKeys key vocabulary

This project models the key vocabulary of Toolbelt.Blazor.HotKeys: the `Keys`
enumeration. An application names the key of a hotkey binding with it. Each
name stands for a numeric key code. These codes are legacy `keyCode` values
of browser keyboard events. Most of them are the Windows virtual-key codes;
the exceptions are `SemiColon` (0x3B) and `Equal` (0x3D), which carry the
values Gecko reports for those keys rather than the Windows codes 0xBA and
0xBB. Two names are deprecated misspellings kept for compatibility:

- `BackQuart` shares code 0xC0 with `BackQuote`;
- `SingleQuart` shares code 0xDE with `SingleQuote`.

The model has two modules.

- `KeyTable` (`keys.dfy`) holds the table itself:
  - the datatype `Keys`, with one constructor per enumeration member in
    declaration order;
  - `Code`, the code of each name, which promises that every code fits in
    the byte range 0x08..0xDE;
  - `IsDeprecated` and `Canonical`, which resolve each deprecated alias to
    the name its obsolescence message recommends;
  - `FromCode`, the table read backwards over the canonical names;
  - `Letter`, `Digit` and `FunctionKey`, which enumerate the letter,
    digit-row and function-key names;
  - `IsModifier` and `AreAliases`.
- `KeyFacts` (`key_facts.dfy`) proves the structural facts of the table:
  - looking up the code of any name in the reversed table gives back that
    name, or the replacement of a deprecated name;
  - names share a code exactly when they are an alias pair;
  - the letters, digits, function keys and modifiers occupy contiguous code
    blocks.

The round trip through `FromCode` is proved one run of consecutive
declarations at a time (`FromCodeOf…` helper lemmas), because a single proof
over all 95 names is too large for the solver. Injectivity and the alias
characterisation are derived from the round trip. The codes of individual
names (letters, digits, function keys, modifiers and the alias pairs) are
read off the table directly, and the block lemmas combine those with
injectivity.

## Model

| member | source | states |
|---|---|---|
| KeyTable.Code | Toolbelt.Blazor.HotKeys/Keys.cs:11-118 | Every name's code lies in the byte range, between 0x08 (Backspace) and 0xDE (SingleQuote) inclusive. |
| KeyTable.Canonical | Toolbelt.Blazor.HotKeys/Keys.cs:98-110 | Canonicalising never yields a deprecated name, and it is the identity on every name that is not deprecated. |
| KeyFacts.CanonicalIdempotent | Toolbelt.Blazor.HotKeys/Keys.cs:98-110 | Canonicalising twice gives the same name as canonicalising once. |
| KeyFacts.BackQuoteCode | Toolbelt.Blazor.HotKeys/Keys.cs:98-101 | The deprecated BackQuart and its replacement BackQuote both carry 0xC0. |
| KeyFacts.SingleQuoteCode | Toolbelt.Blazor.HotKeys/Keys.cs:107-110 | The deprecated SingleQuart and its replacement SingleQuote both carry 0xDE. |
| KeyFacts.CanonicalKeepsCode | Toolbelt.Blazor.HotKeys/Keys.cs:98-110 | Replacing a deprecated name by the name that replaced it leaves the code unchanged. |
| KeyFacts.FromCodeOfCode | Toolbelt.Blazor.HotKeys/Keys.cs:9-119 | Looking up the code of any name in the reversed table gives back that name, or the replacement of a deprecated name. |
| KeyFacts.SameCodeSameCanonical | Toolbelt.Blazor.HotKeys/Keys.cs:9-119 | Two names with equal codes canonicalise to the same name. |
| KeyFacts.SameCanonicalSameCode | Toolbelt.Blazor.HotKeys/Keys.cs:98-110 | Two names that canonicalise to the same name have equal codes. |
| KeyFacts.SameCodeIffSameCanonical | Toolbelt.Blazor.HotKeys/Keys.cs:9-119 | Two names have equal codes if and only if they canonicalise to the same name. |
| KeyFacts.CodeInjective | Toolbelt.Blazor.HotKeys/Keys.cs:9-119 | Among the names that are not deprecated, two have the same code if and only if they are the same name. |
| KeyFacts.AliasesOfSameCanonical | Toolbelt.Blazor.HotKeys/Keys.cs:98-110 | Two distinct names that canonicalise alike are one of the two alias pairs. |
| KeyTable.AreAliases | Toolbelt.Blazor.HotKeys/Keys.cs:98-110 | The two names of an alias pair are distinct and canonicalise to the same name. |
| KeyFacts.AliasesShareCode | Toolbelt.Blazor.HotKeys/Keys.cs:98-110 | The two names of an alias pair are distinct and share a code, and that code is 0xC0 or 0xDE. |
| KeyFacts.SharedCodes | Toolbelt.Blazor.HotKeys/Keys.cs:9-119 | Two distinct names share a code if and only if they form one of the two alias pairs, and the shared code is then 0xC0 or 0xDE. |
| KeyFacts.NameOfCode | Toolbelt.Blazor.HotKeys/Keys.cs:9-119 | A code other than 0xC0 and 0xDE is carried by at most one name. |
| KeyFacts.LetterCode | Toolbelt.Blazor.HotKeys/Keys.cs:43-68 | The i-th letter (A being letter 0) carries 0x41 + i, the ASCII code of that capital letter. |
| KeyFacts.LetterBlock | Toolbelt.Blazor.HotKeys/Keys.cs:43-68 | A name is one of A..Z if and only if its code lies in 0x41..0x5A. |
| KeyTable.Digit | Toolbelt.Blazor.HotKeys/Keys.cs:31-40 | The digit key Num<d> carries 0x30 + d, the ASCII code of the digit. |
| KeyFacts.DigitBlock | Toolbelt.Blazor.HotKeys/Keys.cs:31-40 | A name is one of Num0..Num9 if and only if its code lies in 0x30..0x39. |
| KeyFacts.FunctionKeyCode | Toolbelt.Blazor.HotKeys/Keys.cs:77-88 | The function key F<n>, for 1 <= n <= 12, carries 0x6F + n. |
| KeyFacts.FunctionKeyBlock | Toolbelt.Blazor.HotKeys/Keys.cs:77-88 | A name is one of F1..F12 if and only if its code lies in 0x70..0x7B. |
| KeyTable.IsModifier | Toolbelt.Blazor.HotKeys/Keys.cs:13-15 | Every modifier key's code lies in 0x10..0x12. |
| KeyFacts.ModifierCodes | Toolbelt.Blazor.HotKeys/Keys.cs:13-15 | Shift, Ctrl and Alt carry the adjacent codes 0x10, 0x11 and 0x12. |
| KeyFacts.ModifierBlock | Toolbelt.Blazor.HotKeys/Keys.cs:13-15 | A name is Shift, Ctrl or Alt if and only if its code lies in 0x10..0x12. |
| KeyFacts.ModifiersApart | Toolbelt.Blazor.HotKeys/Keys.cs:13-15 | No modifier key is a letter, a digit key or a function key, and no modifier's code equals the code of any letter, digit key or function key. |

## Left out

- The hotkey matching and dispatch engine is not part of this model. This
  covers the binding registry, exact modifier matching, the exclusion of text
  inputs and content-editable elements, prevent-default and the Ctrl
  double-tap detector. Their implementation is not among the files modelled.
  The browser test describes them only through their observable effect.
- The modifier-flag enumeration (Ctrl, Shift, Alt, Meta) is declared outside
  `Keys.cs` and is not part of this model. Only the modifier keys' entries in
  `Keys` are modelled.
- The end-to-end browser test `HotKeysOnBrowserTest.cs` is left out. It is
  browser automation with hosting, navigation, DOM queries and timed sleeps.
- The `EditorBrowsable` and `Obsolete` attributes are compiler and IDE
  metadata. Only the name-to-replacement mapping their messages state is
  modelled, as `Canonical`.
- The runtime's `Enum.ToString` and `Enum.Parse` behaviour on duplicate
  values is left out, because `Keys.cs` does not define it. `FromCode`
  returns the canonical name at a shared code by construction; it is not a
  model of `Enum.ToString`.
- Names as values: in the runtime, `BackQuart` and `BackQuote` are the same
  enumeration value, because an enumeration member is its code. The model
  keeps the names apart as constructors and compares them through `Code`.
- Undeclared values: a C# enumeration variable can hold any integer of its
  underlying type, such as `default(Keys)`, which is 0, or any cast
  integer, and those may lie outside 0x08..0xDE. The datatype `Keys` has
  only the declared members, so `Code` and its byte-range bound speak about
  the declared names only.
- FromCode: only one direction of the reversed table is proved
  (`FromCodeOfCode`). The converse, that `FromCode` returns a name only at
  that name's own code, is not proved, because its proof exceeds the
  solver's resource budget even when split by block.

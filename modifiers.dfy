/**
 * The override-modifier choice and its mapping to the modifier bits that
 * the OS reports on a pointer event (ModifierOption in DockMonitor.swift).
 */
module Modifiers {
  import opened Wrappers

  /** The five menu choices; their raw values are 0 to 4 in declaration order. */
  datatype ModifierOption = NoModifier | OptionKey | ControlKey | ShiftKey | CommandKey

  /** The single-bit members of CGEventFlags; an event's flags are a set of them. */
  datatype EventFlag =
    | MaskAlphaShift | MaskShift | MaskControl | MaskAlternate | MaskCommand
    | MaskHelp | MaskSecondaryFn | MaskNumericPad | MaskNonCoalesced

  /** The integer code a choice is stored and tagged with. */
  function RawValue(m: ModifierOption): (raw: int)
    ensures 0 <= raw <= 4
    ensures (raw == 0) == (m == NoModifier)
  {
    match m
    case NoModifier => 0
    case OptionKey => 1
    case ControlKey => 2
    case ShiftKey => 3
    case CommandKey => 4
  }

  /** `ModifierOption(rawValue:)`: the choice with that code, if any. */
  function FromRawValue(raw: int): (m: Option<ModifierOption>)
    ensures m.Some? <==> 0 <= raw <= 4
    ensures m.Some? ==> RawValue(m.value) == raw
  {
    if raw == 0 then Some(NoModifier)
    else if raw == 1 then Some(OptionKey)
    else if raw == 2 then Some(ControlKey)
    else if raw == 3 then Some(ShiftKey)
    else if raw == 4 then Some(CommandKey)
    else None
  }

  /** The raw code determines the choice: decoding an encoded choice gives it back. */
  lemma RawValueRoundTrip(m: ModifierOption)
    ensures FromRawValue(RawValue(m)) == Some(m)
  {
  }

  /** `cgFlag`: the event flag that bypasses clamping, or None for "never bypass". */
  function CgFlag(m: ModifierOption): (f: Option<EventFlag>)
    ensures f.None? <==> m == NoModifier
    ensures f.Some? ==> f.value in {MaskAlternate, MaskControl, MaskShift, MaskCommand}
  {
    match m
    case NoModifier => None
    case OptionKey => Some(MaskAlternate)
    case ControlKey => Some(MaskControl)
    case ShiftKey => Some(MaskShift)
    case CommandKey => Some(MaskCommand)
  }

  /** Distinct choices resolve to distinct flags. */
  lemma CgFlagInjective(m1: ModifierOption, m2: ModifierOption)
    requires CgFlag(m1) == CgFlag(m2)
    ensures m1 == m2
  {
  }
}

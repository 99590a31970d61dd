/**
 * The macro dispatcher `action_get_macro` and the `fn_actions` table of the
 * qwertyDvorak keymap, with the host-side meaning of the chords it returns.
 */
module Macros {
  import opened KeyCodes

  /** An unsigned 8-bit value, the type of the `id` argument. */
  newtype uint8 = x: int | 0 <= x < 256

  /** The `macro_id` enum; its members are numbered 0..5 in order. */
  datatype MacroId = LParenNo | RParenNo | LCurlyNo | RCurlyNo | LCqwNo | RCqwNo

  function Ordinal(m: MacroId): (n: uint8)
    ensures n < 6
  {
    match m
    case LParenNo => 0
    case RParenNo => 1
    case LCurlyNo => 2
    case RCurlyNo => 3
    case LCqwNo => 4
    case RCqwNo => 5
  }

  /** The `case` label of the switch in `action_get_macro` that `id` selects, if any. */
  function MacroIdOf(id: uint8): (r: Option<MacroId>)
    ensures r.Some? <==> id < 6
    ensures r.Some? ==> Ordinal(r.value) == id
  {
    if id == 0 then Some(LParenNo)
    else if id == 1 then Some(RParenNo)
    else if id == 2 then Some(LCurlyNo)
    else if id == 3 then Some(RCurlyNo)
    else if id == 4 then Some(LCqwNo)
    else if id == 5 then Some(RCqwNo)
    else None
  }

  /** One step of a QMK macro: D(k), T(k) and U(k). The END marker is implicit. */
  datatype MacroStep = KeyDown(key: KeyCode) | KeyTap(key: KeyCode) | KeyUp(key: KeyCode)

  /** `MACRO_NONE` or a `MACRO(...)` step list. */
  datatype MacroResult = MacroNone | MacroSteps(steps: seq<MacroStep>)

  /** The key each macro taps while shift is held. */
  function TapKey(m: MacroId): KeyCode
  {
    match m
    case LParenNo => Num(9)
    case RParenNo => Num(0)
    case LCurlyNo => Mins
    case RCurlyNo => Eql
    case LCqwNo => LBrc
    case RCqwNo => RBrc
  }

  /** The keys still held down after `steps`, starting with `held` down. */
  function HeldAfter(steps: seq<MacroStep>, held: set<KeyCode>): set<KeyCode>
    decreases |steps|
  {
    if steps == [] then held
    else match steps[0]
      case KeyDown(k) => HeldAfter(steps[1..], held + {k})
      case KeyTap(_) => HeldAfter(steps[1..], held)
      case KeyUp(k) => HeldAfter(steps[1..], held - {k})
  }

  /** `D(LSFT), T(k), U(LSFT)`: tap `k` with left shift held. */
  function ShiftedTap(k: KeyCode): seq<MacroStep>
  {
    [KeyDown(LSft), KeyTap(k), KeyUp(LSft)]
  }

  /** A shifted tap lets go of shift again. */
  lemma ShiftedTapReleases(k: KeyCode)
    ensures HeldAfter(ShiftedTap(k), {}) == {}
  {
    var s := ShiftedTap(k);
    var none: set<KeyCode> := {};
    assert s[1..][1..][1..] == [];
    assert {LSft} - {LSft} == none && none + {LSft} == {LSft};
    assert HeldAfter(s[1..][1..], {LSft}) == HeldAfter([], {LSft} - {LSft});
    assert HeldAfter(s[1..], {LSft}) == HeldAfter(s[1..][1..], {LSft});
    assert HeldAfter(s, {}) == HeldAfter(s[1..], {} + {LSft});
  }

  /** A shifted tap of a non-modifier types the shifted character of `k`, if it has one. */
  lemma ShiftedTapTypes(host: HostLayout, k: KeyCode)
    requires !IsModifier(k)
    ensures TypeSteps(host, ShiftedTap(k), {}) ==
      match HostChar(host, k, true) case Some(c) => [c] case None => []
  {
    var s := ShiftedTap(k);
    assert s[1..][1..] == [KeyUp(LSft)];
    assert TypeSteps(host, s[1..][1..], {LSft}) == [];
    assert HeldAfter([s[0]], {}) == {LSft};
  }

  /**
   * `action_get_macro(record, id, opt)`, with the key event reduced to its
   * `pressed` flag; `opt` does not influence the result.
   */
  function ActionGetMacro(id: uint8, pressed: bool): (r: MacroResult)
    ensures r.MacroSteps? <==> pressed && id < 6
    ensures r.MacroSteps? ==>
      |r.steps| == 3 && r.steps[0] == KeyDown(LSft) && r.steps[1].KeyTap?
      && r.steps[2] == KeyUp(LSft)
    ensures r.MacroSteps? ==> HeldAfter(r.steps, {}) == {}
  {
    match MacroIdOf(id)
    case None => MacroNone
    case Some(m) =>
      if pressed then ShiftedTapReleases(TapKey(m)); MacroSteps(ShiftedTap(TapKey(m)))
      else MacroNone
  }

  function ShiftHeld(held: set<KeyCode>): bool
  {
    LSft in held || RSft in held
  }

  /**
   * What a host reading keycodes with layout `host` types when it receives
   * `steps`, with the keys in `held` already down. A modifier going down
   * types nothing; any other key types its character when pressed.
   */
  function TypeSteps(host: HostLayout, steps: seq<MacroStep>, held: set<KeyCode>): seq<char>
    decreases |steps|
  {
    if steps == [] then []
    else
      var k := steps[0].key;
      var typed := if steps[0].KeyUp? || IsModifier(k) then None
                   else HostChar(host, k, ShiftHeld(held));
      (match typed case Some(c) => [c] case None => [])
      + TypeSteps(host, steps[1..], HeldAfter([steps[0]], held))
  }

  /** The character each macro is written to produce. */
  function IntendedChar(m: MacroId): char
  {
    match m
    case LParenNo => '('
    case RParenNo => ')'
    case LCurlyNo => '{'
    case RCurlyNo => '}'
    case LCqwNo => '{'
    case RCqwNo => '}'
  }

  /**
   * The host layout a macro is meant for: the parentheses work on both; the
   * `*CURLY_NO` braces are for a host that remaps to Dvorak in software, the
   * `*CQW_NO` braces for the firmware Dvorak layer on a QWERTY host.
   */
  predicate MeantFor(m: MacroId, host: HostLayout)
  {
    match m
    case LCurlyNo => host == SoftDvorak
    case RCurlyNo => host == SoftDvorak
    case LCqwNo => host == UsQwerty
    case RCqwNo => host == UsQwerty
    case _ => true
  }

  /** On the host it is meant for, each macro's chord types its one character. */
  lemma MacroTypesIntendedChar(m: MacroId, host: HostLayout)
    requires MeantFor(m, host)
    ensures ActionGetMacro(Ordinal(m), true).MacroSteps?
    ensures TypeSteps(host, ActionGetMacro(Ordinal(m), true).steps, {}) == [IntendedChar(m)]
  {
    TapKeyTypesIntendedChar(m, host);
    PressedMacroTypes(host, m);
  }

  /** Pressing macro `m` types what its key types shifted. */
  lemma PressedMacroTypes(host: HostLayout, m: MacroId)
    ensures ActionGetMacro(Ordinal(m), true).MacroSteps?
    ensures TypeSteps(host, ActionGetMacro(Ordinal(m), true).steps, {}) ==
      match HostChar(host, TapKey(m), true) case Some(c) => [c] case None => []
  {
    PressedMacroIsShiftedTap(m);
    assert !IsModifier(TapKey(m));
    ShiftedTapTypes(host, TapKey(m));
  }

  /** Pressing macro `m` sends the shifted tap of its key. */
  lemma PressedMacroIsShiftedTap(m: MacroId)
    ensures ActionGetMacro(Ordinal(m), true) == MacroSteps(ShiftedTap(TapKey(m)))
  {
    assert MacroIdOf(Ordinal(m)) == Some(m);
  }

  lemma TapKeyTypesIntendedChar(m: MacroId, host: HostLayout)
    requires MeantFor(m, host)
    ensures !IsModifier(TapKey(m))
    ensures HostChar(host, TapKey(m), true) == Some(IntendedChar(m))
  {
    match m
    case LParenNo =>
    case RParenNo =>
    case LCurlyNo =>
    case RCurlyNo =>
    case LCqwNo =>
    case RCqwNo =>
  }

  /**
   * Why the braces come in two pairs: on the host it is not meant for, a
   * brace macro types `_`, `?` or `+` instead of its brace.
   */
  lemma CurlyMacrosNeedTheirHost(m: MacroId, host: HostLayout)
    requires m in {LCurlyNo, RCurlyNo, LCqwNo, RCqwNo} && !MeantFor(m, host)
    ensures TypeSteps(host, ActionGetMacro(Ordinal(m), true).steps, {}) ==
      [if m == LCurlyNo then '_' else if m == LCqwNo then '?' else '+']
    ensures IntendedChar(m) !in TypeSteps(host, ActionGetMacro(Ordinal(m), true).steps, {})
  {
    PressedMacroTypes(host, m);
  }

  /** An entry of `fn_actions`: zero (no action) or `ACTION_MACRO(id)`. */
  datatype FnAction = ActionNo | ActionMacro(id: uint8)

  /** `fn_actions`: index 0 is left zero by the designated initialisers. */
  const FnActions: seq<FnAction> := [
    ActionNo,
    ActionMacro(Ordinal(LParenNo)),
    ActionMacro(Ordinal(RParenNo)),
    ActionMacro(Ordinal(LCurlyNo)),
    ActionMacro(Ordinal(RCurlyNo)),
    ActionMacro(Ordinal(LCqwNo)),
    ActionMacro(Ordinal(RCqwNo))
  ]

  /**
   * `fn_actions[i]` is `ACTION_MACRO(i - 1)` for i in 1..6, and every such
   * entry names a macro that the dispatcher answers with a chord on press.
   */
  lemma FnActionsNameEveryMacro()
    ensures |FnActions| == 7 && FnActions[0] == ActionNo
    ensures forall i :: 1 <= i < |FnActions| ==> FnActions[i] == ActionMacro((i - 1) as uint8)
    ensures forall m: MacroId :: FnActions[Ordinal(m) + 1] == ActionMacro(Ordinal(m))
    ensures forall i :: 1 <= i < |FnActions| ==> ActionGetMacro(FnActions[i].id, true).MacroSteps?
  {
  }
}

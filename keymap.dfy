/**
 * The `keymaps` table of the qwertyDvorak keymap: five layers, each the 76
 * arguments of one `KEYMAP(...)` call, 38 for the left hand followed by 38
 * for the right, in the order the source writes them. Each hand is written
 * as its upper part (rows 0 to 2, 20 arguments) followed by its lower part
 * (rows 3 and 4 and the thumb cluster, 18 arguments), so that facts about a
 * layer can be proved a quarter at a time.
 *
 * Which matrix row and column each argument lands on is decided by the
 * `KEYMAP` macro of the board header, which is not part of this model; the
 * positions here are argument positions.
 */
module Keymap {
  import opened KeyCodes
  import opened Macros

  /** The numbers the source gives its layers. Layer 3 is never defined. */
  const BASE: nat := 0
  const FKEYS: nat := 1
  const MCFT: nat := 2
  const DVORAK: nat := 4
  const DFKEYS: nat := 5

  /** What one key position does on one layer. */
  datatype Action =
    | Key(code: KeyCode)   // KC_*: emit a keycode
    | Trans                // KC_TRNS: fall through to the next active layer below
    | NoKey                // KC_NO (the all-zero entry): do nothing
    | Mo(layer: nat)       // MO(layer): layer active while held
    | Tg(layer: nat)       // TG(layer): toggle the layer on each press
    | Macro(id: MacroId)   // M(id): run action_get_macro with this id

  const KeysPerHand: nat := 38
  const KeysPerLayer: nat := 76

  /**
   * The number of arguments per line of one hand of `KEYMAP`: five key rows
   * (the third one short), then the thumb cluster as two, one and three keys.
   */
  const RowWidths: seq<nat> := [7, 7, 6, 7, 5, 2, 1, 3]

  datatype Hand = LeftHand | RightHand

  /** Where each of those rows starts, counted within the hand. */
  const RowStarts: seq<nat> := [0, 7, 14, 20, 27, 32, 34, 35]

  /** The rows follow each other without gap or overlap and fill the hand. */
  lemma RowsTileHand()
    ensures |RowStarts| == |RowWidths| && RowStarts[0] == 0
    ensures forall r :: 0 <= r < |RowWidths| - 1 ==> RowStarts[r] + RowWidths[r] == RowStarts[r + 1]
    ensures RowStarts[|RowWidths| - 1] + RowWidths[|RowWidths| - 1] == KeysPerHand
  {
  }

  /** The flat argument index of column `col` (from 0) of row `row` (from 0) of `hand`. */
  function Pos(hand: Hand, row: nat, col: nat): (i: nat)
    requires row < |RowWidths| && col < RowWidths[row]
    ensures i < KeysPerLayer
    ensures i < KeysPerHand <==> hand == LeftHand
  {
    RowsTileHand();
    (if hand == LeftHand then 0 else KeysPerHand) + RowStarts[row] + col
  }

  /** Different (hand, row, column) triples name different arguments. */
  lemma PosInjective(h1: Hand, r1: nat, c1: nat, h2: Hand, r2: nat, c2: nat)
    requires r1 < |RowWidths| && c1 < RowWidths[r1]
    requires r2 < |RowWidths| && c2 < RowWidths[r2]
    requires Pos(h1, r1, c1) == Pos(h2, r2, c2)
    ensures h1 == h2 && r1 == r2 && c1 == c2
  {
    RowsTileHand();
  }

  // Layer 0, BASE.

  const BaseLeftUpper: seq<Action> := [
    Key(Grv),    Key(Num(1)),    Key(Num(2)),    Key(Num(3)),   Key(Num(4)),   Key(Num(5)),   Key(Num(6)),
    Key(Tab),    Key(Alpha(Q)),  Key(Alpha(W)),  Key(Alpha(E)), Key(Alpha(R)), Key(Alpha(T)), Key(Esc),
    Key(LCtl),   Key(Alpha(A)),  Key(Alpha(S)),  Key(Alpha(D)), Key(Alpha(F)), Key(Alpha(G))
  ]

  const BaseLeftLower: seq<Action> := [
    Key(LSft),   Key(Alpha(Z)),  Key(Alpha(X)),  Key(Alpha(C)), Key(Alpha(V)), Key(Alpha(B)), Key(LGui),
    Mo(FKEYS),   Mo(FKEYS),      Tg(MCFT),       Key(LAlt),     Key(LGui),
    Key(LCtl), Key(LGui),
    Key(Home),
    Key(BSpc), Key(Del), Key(End)
  ]

  const BaseLeft: seq<Action> := BaseLeftUpper + BaseLeftLower

  const BaseRightUpper: seq<Action> := [
    Key(Num(5)), Key(Num(6)),   Key(Num(7)),   Key(Num(8)),    Key(Num(9)),   Key(Num(0)),   Key(Bsls),
    Key(Esc),    Key(Alpha(Y)), Key(Alpha(U)), Key(Alpha(I)),  Key(Alpha(O)), Key(Alpha(P)), Key(LBrc),
                 Key(Alpha(H)), Key(Alpha(J)), Key(Alpha(K)),  Key(Alpha(L)), Key(Scln),     Key(Quot)
  ]

  const BaseRightLower: seq<Action> := [
    Key(RGui),   Key(Alpha(N)), Key(Alpha(M)), Key(Comm),      Key(Dot),      Key(Slsh),     Key(RSft),
                                Key(Left),     Key(Down),      Key(Up),       Key(Right),    Mo(FKEYS),
    Key(RAlt), Key(RCtl),
    Key(PgUp),
    Key(PgDn), Key(Ent), Key(Spc)
  ]

  const BaseRight: seq<Action> := BaseRightUpper + BaseRightLower

  // Layer 1, FKEYS.

  const FKeysLeftUpper: seq<Action> := [
    Trans, Key(Func(1)), Key(Func(2)), Key(Func(3)), Key(Func(4)), Key(Func(5)), Key(Func(6)),
    Trans, Trans,        Trans,        Trans,        Trans,        Trans,        Tg(DVORAK),
    Trans, Trans,        Trans,        Trans,        Trans,        Trans
  ]

  const FKeysLeftLower: seq<Action> := [
    Trans, Trans,        Trans,        Trans,        Trans,        Trans,        Trans,
    Trans, Trans,        Trans,        Trans,        Trans,
    Trans, Trans,
    Trans,
    Trans, Trans, Trans
  ]

  const FKeysLeft: seq<Action> := FKeysLeftUpper + FKeysLeftLower

  const FKeysRightUpper: seq<Action> := [
    Key(Func(7)), Key(Func(8)), Key(Func(9)),     Key(Func(10)),    Key(Func(11)), Key(Func(12)), Key(RBrc),
    Trans,        Trans,        Macro(LParenNo),  Macro(RParenNo),  Trans,         Trans,         Key(RBrc),
                  Trans,        Key(Mins),        Key(Eql),         Trans,         Trans,         Key(RBrc)
  ]

  const FKeysRightLower: seq<Action> := [
    Trans,        Trans,        Macro(LCurlyNo),  Macro(RCurlyNo),  Trans,         Key(Up),       Trans,
                                Trans,            Key(Left),        Key(Down),     Key(Right),    Key(Right),
    Trans, Trans,
    Trans,
    Trans, Trans, Trans
  ]

  const FKeysRight: seq<Action> := FKeysRightUpper + FKeysRightLower

  // Layer 2, MCFT.

  const McftLeftUpper: seq<Action> := [
    Trans, Trans, Trans, Trans, Trans, Trans, Trans,
    Trans, Trans, Trans, Trans, Trans, Trans, Key(Esc),
    Trans, Trans, Trans, Trans, Trans, Trans
  ]

  const McftLeftLower: seq<Action> := [
    Trans, Trans, Trans, Trans, Trans, Trans, Trans,
    Trans, Trans, Trans, Trans, Trans,
    Trans, Trans,
    Trans,
    Key(Spc), Trans, Trans
  ]

  const McftLeft: seq<Action> := McftLeftUpper + McftLeftLower

  const McftRightUpper: seq<Action> := [
    Trans, Trans,     Trans, Trans, Trans, Trans, Trans,
    Trans, Trans,     Trans, Trans, Trans, Trans, Trans,
           Trans,     Trans, Trans, Trans, Trans, Trans
  ]

  const McftRightLower: seq<Action> := [
    Trans, Key(Ampr), Trans, Trans, Trans, Trans, Trans,
                      Trans, Trans, Trans, Trans, Trans,
    Trans, Trans,
    Trans,
    Trans, Trans, Trans
  ]

  const McftRight: seq<Action> := McftRightUpper + McftRightLower

  // Layer 4, DVORAK.

  const DvorakLeftUpper: seq<Action> := [
    Trans,      Key(Num(1)),   Key(Num(2)),   Key(Num(3)),   Key(Num(4)),   Key(Num(5)),   Key(Num(6)),
    Trans,      Key(Quot),     Key(Comm),     Key(Dot),      Key(Alpha(P)), Key(Alpha(Y)), Trans,
    Trans,      Key(Alpha(A)), Key(Alpha(O)), Key(Alpha(E)), Key(Alpha(U)), Key(Alpha(I))
  ]

  const DvorakLeftLower: seq<Action> := [
    Key(LSft),  Key(Scln),     Key(Alpha(Q)), Key(Alpha(J)), Key(Alpha(K)), Key(Alpha(X)), Trans,
    Mo(DFKEYS), Trans,         Trans,         Trans,         Trans,
    Trans, Trans,
    Trans,
    Key(BSpc), Trans, Trans
  ]

  const DvorakLeft: seq<Action> := DvorakLeftUpper + DvorakLeftLower

  const DvorakRightUpper: seq<Action> := [
    Key(Num(5)), Key(Num(6)),   Key(Num(7)),   Key(Num(8)),   Key(Num(9)),   Key(Num(0)),   Key(Bsls),
    Trans,       Key(Alpha(F)), Key(Alpha(G)), Key(Alpha(C)), Key(Alpha(R)), Key(Alpha(L)), Key(Slsh),
                 Key(Alpha(D)), Key(Alpha(H)), Key(Alpha(T)), Key(Alpha(N)), Key(Alpha(S)), Key(Mins)
  ]

  const DvorakRightLower: seq<Action> := [
    Trans,       Key(Alpha(B)), Key(Alpha(M)), Key(Alpha(W)), Key(Alpha(V)), Key(Alpha(Z)), Key(RSft),
                                Trans,         Trans,         Trans,         Trans,         Trans,
    Trans, Trans,
    Trans,
    Trans, Trans, Trans
  ]

  const DvorakRight: seq<Action> := DvorakRightUpper + DvorakRightLower

  // Layer 5, DFKEYS.

  const DFKeysLeftUpper: seq<Action> := [
    Trans, Key(Func(1)), Key(Func(2)), Key(Func(3)), Key(Func(4)), Key(Func(5)), Key(Func(6)),
    Trans, Trans,        Trans,        Trans,        Trans,        Trans,        Trans,
    Trans, Trans,        Trans,        Trans,        Trans,        Trans
  ]

  const DFKeysLeftLower: seq<Action> := [
    Trans, Trans,        Trans,        Trans,        Trans,        Trans,        Trans,
    Trans, Trans,        Trans,        Trans,        Trans,
    Trans, Trans,
    Trans,
    Trans, Trans, Trans
  ]

  const DFKeysLeft: seq<Action> := DFKeysLeftUpper + DFKeysLeftLower

  const DFKeysRightUpper: seq<Action> := [
    Key(Func(7)), Key(Func(8)), Key(Func(9)),     Key(Func(10)),    Key(Func(11)), Key(Func(12)), Key(RBrc),
    Trans,        Trans,        Macro(LParenNo),  Macro(RParenNo),  Trans,         Trans,         Key(RBrc),
                  Trans,        Key(LBrc),        Key(RBrc),        Trans,         Trans,         Key(RBrc)
  ]

  const DFKeysRightLower: seq<Action> := [
    Trans,        Trans,        Macro(LCqwNo),    Macro(RCqwNo),    Trans,         Key(Up),       Trans,
                                Trans,            Key(Left),        Key(Down),     Key(Right),    Key(Right),
    Trans, Trans,
    Trans,
    Trans, Trans, Trans
  ]

  const DFKeysRight: seq<Action> := DFKeysRightUpper + DFKeysRightLower

  const Base: seq<Action> := BaseLeft + BaseRight
  const FKeys: seq<Action> := FKeysLeft + FKeysRight
  const Mcft: seq<Action> := McftLeft + McftRight
  const Dvorak: seq<Action> := DvorakLeft + DvorakRight
  const DFKeys: seq<Action> := DFKeysLeft + DFKeysRight

  /**
   * `keymaps` as the C array holds it: indexed by layer number, six rows
   * because the highest designated index is 5, and row 3, which no
   * initialiser names, all zero.
   */
  const Keymaps: seq<seq<Action>> :=
    [Base, FKeys, Mcft, seq(KeysPerLayer, _ => NoKey), Dvorak, DFKeys]

  /** The layer numbers that have an initialiser. */
  const DefinedLayers: set<nat> := {BASE, FKEYS, MCFT, DVORAK, DFKEYS}
}

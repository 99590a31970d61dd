/**
 * What the five layers of the qwertyDvorak keymap promise: their shape, the
 * letters on BASE and DVORAK, DVORAK as the Dvorak substitution of BASE,
 * where the layer switches sit, and how the two function layers differ.
 *
 * Facts about single entries are proved on the four parts of a layer (the
 * upper and lower part of each hand) and then carried over to the layer.
 */
module KeymapProperties {
  import opened KeyCodes
  import opened Macros
  import opened Keymap

  /** A layer entry that names only keycodes and layers that exist. */
  predicate WellFormedAction(a: Action)
  {
    match a
    case Key(k) => ValidKeyCode(k)
    case Mo(l) => l in DefinedLayers
    case Tg(l) => l in DefinedLayers
    case _ => true
  }

  predicate IsLayerSwitch(a: Action)
  {
    a.Mo? || a.Tg?
  }

  /** A key of the alpha block. */
  predicate AlphaKey(a: Action)
  {
    a.Key? && InAlphaBlock(a.code)
  }

  predicate IsLetterKey(a: Action)
  {
    a.Key? && a.code.Alpha?
  }

  /** What a host with layout `host` types for one press of `a`, if `a` types at all. */
  function Types(host: HostLayout, a: Action): Option<seq<char>>
  {
    match a
    case Key(k) =>
      (match HostChar(host, k, false) case Some(c) => Some([c]) case None => None)
    case Macro(m) => Some(TypeSteps(host, ActionGetMacro(Ordinal(m), true).steps, {}))
    case _ => None
  }

  /** Each hand is 20 entries of upper rows and 18 of lower rows and thumb keys. */
  lemma HandShapes()
    ensures |BaseLeftUpper| == |BaseRightUpper| == 20 && |BaseLeftLower| == |BaseRightLower| == 18
    ensures |FKeysLeftUpper| == |FKeysRightUpper| == 20 && |FKeysLeftLower| == |FKeysRightLower| == 18
    ensures |McftLeftUpper| == |McftRightUpper| == 20 && |McftLeftLower| == |McftRightLower| == 18
    ensures |DvorakLeftUpper| == |DvorakRightUpper| == 20 && |DvorakLeftLower| == |DvorakRightLower| == 18
    ensures |DFKeysLeftUpper| == |DFKeysRightUpper| == 20 && |DFKeysLeftLower| == |DFKeysRightLower| == 18
    ensures |BaseLeft| == |BaseRight| == |FKeysLeft| == |FKeysRight| == |McftLeft| == |McftRight| == KeysPerHand
    ensures |DvorakLeft| == |DvorakRight| == |DFKeysLeft| == |DFKeysRight| == KeysPerHand
    ensures |Base| == |FKeys| == |Mcft| == |Dvorak| == |DFKeys| == KeysPerLayer
  {
  }

  // Entries of one layer on their own.

  /** The indices of the layer-switch entries of each row of `keymaps`. */
  function SwitchIndices(layer: nat): set<nat>
  {
    if layer == BASE then {27, 28, 29, 69}
    else if layer == FKEYS then {13}
    else if layer == DVORAK then {27}
    else {}
  }

  /** The indices at which MCFT is not transparent. */
  const McftKeys: set<nat> := {13, 35, 59}

  predicate DefinedEntry(a: Action)
  {
    WellFormedAction(a) && a != NoKey
  }

  /**
   * Entry `a` at index `i` of layer `layer`: well formed and not KC_NO, a
   * layer switch exactly at the layer's switch indices, and on MCFT
   * transparent except at its three keys.
   */
  predicate LayerEntryOk(layer: nat, a: Action, i: nat)
  {
    && DefinedEntry(a)
    && (IsLayerSwitch(a) <==> i in SwitchIndices(layer))
    && (layer == MCFT ==> (a != Trans <==> i in McftKeys))
  }

  predicate EntriesOk(layer: nat, s: seq<Action>, offset: nat)
  {
    forall i :: 0 <= i < |s| ==> LayerEntryOk(layer, s[i], i + offset)
  }

  lemma EntriesOkConcat(layer: nat, a: seq<Action>, b: seq<Action>, offset: nat)
    requires EntriesOk(layer, a, offset) && EntriesOk(layer, b, offset + |a|)
    ensures EntriesOk(layer, a + b, offset)
  {
    forall i | 0 <= i < |a + b|
      ensures LayerEntryOk(layer, (a + b)[i], i + offset)
    {
      if i >= |a| {
        assert (a + b)[i] == b[i - |a|];
      }
    }
  }

  /** A layer whose four parts are correct at their offsets is correct. */
  lemma EntriesOkLayer(layer: nat, lu: seq<Action>, ll: seq<Action>, ru: seq<Action>, rl: seq<Action>)
    requires EntriesOk(layer, lu, 0) && EntriesOk(layer, ll, |lu|)
    requires EntriesOk(layer, ru, |lu| + |ll|) && EntriesOk(layer, rl, |lu| + |ll| + |ru|)
    ensures EntriesOk(layer, (lu + ll) + (ru + rl), 0)
  {
    EntriesOkConcat(layer, lu, ll, 0);
    EntriesOkConcat(layer, ru, rl, |lu| + |ll|);
    EntriesOkConcat(layer, lu + ll, ru + rl, 0);
  }

  lemma BaseLeftUpperOk() ensures EntriesOk(BASE, BaseLeftUpper, 0) {}
  lemma BaseLeftLowerOk() ensures EntriesOk(BASE, BaseLeftLower, 20) {}
  lemma BaseRightUpperOk() ensures EntriesOk(BASE, BaseRightUpper, 38) {}
  lemma BaseRightLowerOk() ensures EntriesOk(BASE, BaseRightLower, 58) {}
  lemma FKeysLeftUpperOk() ensures EntriesOk(FKEYS, FKeysLeftUpper, 0) {}
  lemma FKeysLeftLowerOk() ensures EntriesOk(FKEYS, FKeysLeftLower, 20) {}
  lemma FKeysRightUpperOk() ensures EntriesOk(FKEYS, FKeysRightUpper, 38) {}
  lemma FKeysRightLowerOk() ensures EntriesOk(FKEYS, FKeysRightLower, 58) {}
  lemma McftLeftUpperOk() ensures EntriesOk(MCFT, McftLeftUpper, 0) {}
  lemma McftLeftLowerOk() ensures EntriesOk(MCFT, McftLeftLower, 20) {}
  lemma McftRightUpperOk() ensures EntriesOk(MCFT, McftRightUpper, 38) {}
  lemma McftRightLowerOk() ensures EntriesOk(MCFT, McftRightLower, 58) {}
  lemma DvorakLeftUpperOk() ensures EntriesOk(DVORAK, DvorakLeftUpper, 0) {}
  lemma DvorakLeftLowerOk() ensures EntriesOk(DVORAK, DvorakLeftLower, 20) {}
  lemma DvorakRightUpperOk() ensures EntriesOk(DVORAK, DvorakRightUpper, 38) {}
  lemma DvorakRightLowerOk() ensures EntriesOk(DVORAK, DvorakRightLower, 58) {}
  lemma DFKeysLeftUpperOk() ensures EntriesOk(DFKEYS, DFKeysLeftUpper, 0) {}
  lemma DFKeysLeftLowerOk() ensures EntriesOk(DFKEYS, DFKeysLeftLower, 20) {}
  lemma DFKeysRightUpperOk() ensures EntriesOk(DFKEYS, DFKeysRightUpper, 38) {}
  lemma DFKeysRightLowerOk() ensures EntriesOk(DFKEYS, DFKeysRightLower, 58) {}

  /** Every entry of every defined layer is correct for its layer. */
  lemma DefinedLayersOk()
    ensures EntriesOk(BASE, Base, 0) && EntriesOk(FKEYS, FKeys, 0) && EntriesOk(MCFT, Mcft, 0)
    ensures EntriesOk(DVORAK, Dvorak, 0) && EntriesOk(DFKEYS, DFKeys, 0)
  {
    HandShapes();
    BaseLeftUpperOk(); BaseLeftLowerOk(); BaseRightUpperOk(); BaseRightLowerOk();
    EntriesOkLayer(BASE, BaseLeftUpper, BaseLeftLower, BaseRightUpper, BaseRightLower);
    FKeysLeftUpperOk(); FKeysLeftLowerOk(); FKeysRightUpperOk(); FKeysRightLowerOk();
    EntriesOkLayer(FKEYS, FKeysLeftUpper, FKeysLeftLower, FKeysRightUpper, FKeysRightLower);
    McftLeftUpperOk(); McftLeftLowerOk(); McftRightUpperOk(); McftRightLowerOk();
    EntriesOkLayer(MCFT, McftLeftUpper, McftLeftLower, McftRightUpper, McftRightLower);
    DvorakLeftUpperOk(); DvorakLeftLowerOk(); DvorakRightUpperOk(); DvorakRightLowerOk();
    EntriesOkLayer(DVORAK, DvorakLeftUpper, DvorakLeftLower, DvorakRightUpper, DvorakRightLower);
    DFKeysLeftUpperOk(); DFKeysLeftLowerOk(); DFKeysRightUpperOk(); DFKeysRightLowerOk();
    EntriesOkLayer(DFKEYS, DFKeysLeftUpper, DFKeysLeftLower, DFKeysRightUpper, DFKeysRightLower);
  }

  /** The same, indexed through `keymaps`. */
  lemma KeymapsEntriesOk()
    ensures |Keymaps| == DFKEYS + 1
    ensures forall l :: 0 <= l < |Keymaps| ==> |Keymaps[l]| == KeysPerLayer
    ensures forall l, i :: l in DefinedLayers && 0 <= i < KeysPerLayer ==> LayerEntryOk(l, Keymaps[l][i], i)
  {
    HandShapes();
    DefinedLayersOk();
    forall l, i | l in DefinedLayers && 0 <= i < KeysPerLayer
      ensures LayerEntryOk(l, Keymaps[l][i], i)
    {
      assert l == BASE || l == FKEYS || l == MCFT || l == DVORAK || l == DFKEYS;
    }
  }

  /**
   * `keymaps` has six rows of 76 entries; the five defined layers use only
   * valid keycodes and existing layers and never KC_NO, and row 3 is all KC_NO.
   */
  lemma LayerShapes()
    ensures |Keymaps| == DFKEYS + 1
    ensures forall l :: 0 <= l < |Keymaps| ==> |Keymaps[l]| == KeysPerLayer
    ensures forall l, i :: l in DefinedLayers && 0 <= i < KeysPerLayer ==>
      WellFormedAction(Keymaps[l][i]) && Keymaps[l][i] != NoKey
    ensures forall i :: 0 <= i < KeysPerLayer ==> Keymaps[3][i] == NoKey
  {
    KeymapsEntriesOk();
  }

  /**
   * The layer switches of the whole table: BASE has `MO(FKEYS)` twice on
   * its left bottom row and once at the right end of the right one, with
   * `TG(MCFT)` beside the left pair; FKEYS has the one `TG(DVORAK)`, at the
   * last column of the left hand's second row; DVORAK has the one
   * `MO(DFKEYS)`; MCFT, DFKEYS and the empty row 3 have none.
   */
  lemma LayerSwitchPlacement()
    ensures forall l, i :: 0 <= l < |Keymaps| && 0 <= i < KeysPerLayer ==>
      (IsLayerSwitch(Keymaps[l][i]) <==> i in SwitchIndices(l))
    ensures Base[Pos(LeftHand, 4, 0)] == Base[Pos(LeftHand, 4, 1)] == Base[Pos(RightHand, 4, 4)] == Mo(FKEYS)
    ensures Base[Pos(LeftHand, 4, 2)] == Tg(MCFT)
    ensures FKeys[Pos(LeftHand, 1, 6)] == Tg(DVORAK)
    ensures Dvorak[Pos(LeftHand, 4, 0)] == Mo(DFKEYS)
  {
    KeymapsEntriesOk();
    forall l, i | 0 <= l < |Keymaps| && 0 <= i < KeysPerLayer
      ensures IsLayerSwitch(Keymaps[l][i]) <==> i in SwitchIndices(l)
    {
      if l == 3 {
        assert Keymaps[3][i] == NoKey;
      } else {
        assert l in DefinedLayers;
      }
    }
    HandShapes();
    assert Base[27] == BaseLeftLower[7] && Base[28] == BaseLeftLower[8] && Base[29] == BaseLeftLower[9];
    assert Base[69] == BaseRightLower[11];
    assert FKeys[13] == FKeysLeftUpper[13];
    assert Dvorak[27] == DvorakLeftLower[7];
  }

  /**
   * The whole table holds one `TG(DVORAK)`, on FKEYS; DFKEYS is transparent
   * at that index, and only DVORAK switches to DFKEYS.
   */
  lemma DvorakIsReachedOnlyThroughFKeys()
    ensures forall l, i :: 0 <= l < |Keymaps| && 0 <= i < KeysPerLayer ==>
      (Keymaps[l][i] == Tg(DVORAK) <==> l == FKEYS && i == Pos(LeftHand, 1, 6))
    ensures forall l, i :: 0 <= l < |Keymaps| && 0 <= i < KeysPerLayer ==>
      (Keymaps[l][i] == Mo(DFKEYS) <==> l == DVORAK && i == Pos(LeftHand, 4, 0))
    ensures forall l, i :: 0 <= l < |Keymaps| && 0 <= i < KeysPerLayer ==>
      Keymaps[l][i] != Tg(DFKEYS) && Keymaps[l][i] != Mo(DVORAK)
    ensures DFKeys[Pos(LeftHand, 1, 6)] == Trans
  {
    LayerSwitchPlacement();
    HandShapes();
    assert DFKeys[13] == DFKeysLeftUpper[13];
  }

  /** MCFT is transparent except for Esc, the left-thumb Space and `&`. */
  lemma McftOverridesThreeKeys()
    ensures forall i :: 0 <= i < KeysPerLayer ==> (Mcft[i] != Trans <==> i in {13, 35, 59})
    ensures Mcft[Pos(LeftHand, 1, 6)] == Key(Esc)
    ensures Mcft[Pos(LeftHand, 7, 0)] == Key(Spc) && Base[Pos(LeftHand, 7, 0)] == Key(BSpc)
    ensures Mcft[Pos(RightHand, 3, 1)] == Key(Ampr)
  {
    DefinedLayersOk();
    HandShapes();
    assert Mcft[13] == McftLeftUpper[13];
    assert Mcft[35] == McftLeftLower[15] && Base[35] == BaseLeftLower[15];
    assert Mcft[59] == McftRightLower[1];
  }

  // DVORAK against BASE.

  /** `P` holds of the entries of `a` and `b` at each index, counted from `offset`. */
  predicate Pairwise(P: (Action, Action, nat) -> bool, a: seq<Action>, b: seq<Action>, offset: nat)
  {
    |a| == |b| && forall i :: 0 <= i < |a| ==> P(a[i], b[i], i + offset)
  }

  lemma PairwiseConcat(P: (Action, Action, nat) -> bool,
                       a1: seq<Action>, a2: seq<Action>, b1: seq<Action>, b2: seq<Action>, offset: nat)
    requires Pairwise(P, a1, b1, offset) && Pairwise(P, a2, b2, offset + |a1|)
    ensures Pairwise(P, a1 + a2, b1 + b2, offset)
  {
    var a, b := a1 + a2, b1 + b2;
    forall i | 0 <= i < |a|
      ensures P(a[i], b[i], i + offset)
    {
      if i >= |a1| {
        assert a[i] == a2[i - |a1|] && b[i] == b2[i - |a1|];
      }
    }
  }

  /** Two layers that agree part by part at the parts' offsets agree. */
  lemma PairwiseLayer(P: (Action, Action, nat) -> bool,
                      alu: seq<Action>, all: seq<Action>, aru: seq<Action>, arl: seq<Action>,
                      blu: seq<Action>, bll: seq<Action>, bru: seq<Action>, brl: seq<Action>)
    requires Pairwise(P, alu, blu, 0) && Pairwise(P, all, bll, |alu|)
    requires Pairwise(P, aru, bru, |alu| + |all|) && Pairwise(P, arl, brl, |alu| + |all| + |aru|)
    ensures Pairwise(P, (alu + all) + (aru + arl), (blu + bll) + (bru + brl), 0)
  {
    PairwiseConcat(P, alu, all, blu, bll, 0);
    PairwiseConcat(P, aru, arl, bru, brl, |alu| + |all|);
    PairwiseConcat(P, alu + all, aru + arl, blu + bll, bru + brl, 0);
  }

  /** Where BASE has each letter. */
  function BaseLetterIndex(l: Letter): nat
  {
    match l
    case Q => 8 case W => 9 case E => 10 case R => 11 case T => 12
    case A => 15 case S => 16 case D => 17 case F => 18 case G => 19
    case Z => 21 case X => 22 case C => 23 case V => 24 case B => 25
    case Y => 46 case U => 47 case I => 48 case O => 49 case P => 50
    case H => 52 case J => 53 case K => 54 case L => 55
    case N => 59 case M => 60
  }

  /** Where DVORAK has each letter. */
  function DvorakLetterIndex(l: Letter): nat
  {
    match l
    case P => 11 case Y => 12
    case A => 15 case O => 16 case E => 17 case U => 18 case I => 19
    case Q => 22 case J => 23 case K => 24 case X => 25
    case F => 46 case G => 47 case C => 48 case R => 49 case L => 50
    case D => 52 case H => 53 case T => 54 case N => 55 case S => 56
    case B => 59 case M => 60 case W => 61 case V => 62 case Z => 63
  }

  /** Where BASE has each alpha-block key; `None` for the three it lacks. */
  function BaseAlphaIndex(k: KeyCode): Option<nat>
  {
    match k
    case Alpha(l) => Some(BaseLetterIndex(l))
    case LBrc => Some(51)
    case Scln => Some(56)
    case Quot => Some(57)
    case Comm => Some(61)
    case Dot => Some(62)
    case Slsh => Some(63)
    case _ => None
  }

  /** The index of BASE's first `MO(FKEYS)`: left hand, bottom key row, first column. */
  function FirstFKeysSwitch(): (i: nat)
    ensures i < KeysPerHand
  {
    Pos(LeftHand, 4, 0)
  }

  /**
   * DVORAK entry `d` against BASE entry `b` at index `i`: alpha-block keys
   * sit at the same indices on both, and every other DVORAK entry repeats
   * BASE's, is transparent, or is the one switch to DFKEYS.
   */
  predicate DvorakFramesBase(b: Action, d: Action, i: nat)
  {
    && (AlphaKey(d) <==> AlphaKey(b))
    && (!AlphaKey(b) ==> d == b || d == Trans || i == FirstFKeysSwitch())
  }

  lemma DvorakLeftUpperFramesBase()
    ensures |BaseLeftUpper| == |DvorakLeftUpper|
    ensures forall i :: 0 <= i < |BaseLeftUpper| ==> DvorakFramesBase(BaseLeftUpper[i], DvorakLeftUpper[i], i + 0)
  {
  }

  lemma DvorakLeftLowerFramesBase()
    ensures |BaseLeftLower| == |DvorakLeftLower|
    ensures forall i :: 0 <= i < |BaseLeftLower| ==> DvorakFramesBase(BaseLeftLower[i], DvorakLeftLower[i], i + 20)
  {
    assert FirstFKeysSwitch() == 27;
  }

  lemma DvorakRightUpperFramesBase()
    ensures |BaseRightUpper| == |DvorakRightUpper|
    ensures forall i :: 0 <= i < |BaseRightUpper| ==> DvorakFramesBase(BaseRightUpper[i], DvorakRightUpper[i], i + 38)
  {
  }

  lemma DvorakRightLowerFramesBase()
    ensures |BaseRightLower| == |DvorakRightLower|
    ensures forall i :: 0 <= i < |BaseRightLower| ==> DvorakFramesBase(BaseRightLower[i], DvorakRightLower[i], i + 58)
  {
  }

  /** `P` holds of each entry of `s` with its index, counted from `offset`. */
  predicate Pointwise(P: (Action, nat) -> bool, s: seq<Action>, offset: nat)
  {
    forall i :: 0 <= i < |s| ==> P(s[i], i + offset)
  }

  lemma PointwiseConcat(P: (Action, nat) -> bool, a: seq<Action>, b: seq<Action>, offset: nat)
    requires Pointwise(P, a, offset) && Pointwise(P, b, offset + |a|)
    ensures Pointwise(P, a + b, offset)
  {
    forall i | 0 <= i < |a + b|
      ensures P((a + b)[i], i + offset)
    {
      if i >= |a| {
        assert (a + b)[i] == b[i - |a|];
      }
    }
  }

  lemma PointwiseLayer(P: (Action, nat) -> bool, lu: seq<Action>, ll: seq<Action>, ru: seq<Action>, rl: seq<Action>)
    requires Pointwise(P, lu, 0) && Pointwise(P, ll, |lu|)
    requires Pointwise(P, ru, |lu| + |ll|) && Pointwise(P, rl, |lu| + |ll| + |ru|)
    ensures Pointwise(P, (lu + ll) + (ru + rl), 0)
  {
    PointwiseConcat(P, lu, ll, 0);
    PointwiseConcat(P, ru, rl, |lu| + |ll|);
    PointwiseConcat(P, lu + ll, ru + rl, 0);
  }

  /** BASE's alpha-block keys sit where `BaseAlphaIndex` says. */
  predicate BaseAlphaAt(a: Action, i: nat)
  {
    AlphaKey(a) ==> BaseAlphaIndex(a.code) == Some(i)
  }

  /** DVORAK's letters sit where `DvorakLetterIndex` says. */
  predicate DvorakLetterAt(a: Action, i: nat)
  {
    IsLetterKey(a) ==> DvorakLetterIndex(a.code.letter) == i
  }

  lemma BaseLeftUpperAlpha()
    ensures forall i :: 0 <= i < |BaseLeftUpper| ==> BaseAlphaAt(BaseLeftUpper[i], i + 0)
  {
  }
  lemma BaseLeftLowerAlpha()
    ensures forall i :: 0 <= i < |BaseLeftLower| ==> BaseAlphaAt(BaseLeftLower[i], i + 20)
  {
  }
  lemma BaseRightUpperAlpha()
    ensures forall i :: 0 <= i < |BaseRightUpper| ==> BaseAlphaAt(BaseRightUpper[i], i + 38)
  {
  }
  lemma BaseRightLowerAlpha()
    ensures forall i :: 0 <= i < |BaseRightLower| ==> BaseAlphaAt(BaseRightLower[i], i + 58)
  {
  }
  lemma DvorakLeftUpperLetters()
    ensures forall i :: 0 <= i < |DvorakLeftUpper| ==> DvorakLetterAt(DvorakLeftUpper[i], i + 0)
  {
  }
  lemma DvorakLeftLowerLetters()
    ensures forall i :: 0 <= i < |DvorakLeftLower| ==> DvorakLetterAt(DvorakLeftLower[i], i + 20)
  {
  }
  lemma DvorakRightUpperLetters()
    ensures forall i :: 0 <= i < |DvorakRightUpper| ==> DvorakLetterAt(DvorakRightUpper[i], i + 38)
  {
  }
  lemma DvorakRightLowerLetters()
    ensures forall i :: 0 <= i < |DvorakRightLower| ==> DvorakLetterAt(DvorakRightLower[i], i + 58)
  {
  }

  lemma DvorakFramesBaseEverywhere()
    ensures Pairwise(DvorakFramesBase, Base, Dvorak, 0)
  {
    HandShapes();
    DvorakLeftUpperFramesBase();
    DvorakLeftLowerFramesBase();
    DvorakRightUpperFramesBase();
    DvorakRightLowerFramesBase();
    assert Pairwise(DvorakFramesBase, BaseLeftUpper, DvorakLeftUpper, 0);
    assert Pairwise(DvorakFramesBase, BaseLeftLower, DvorakLeftLower, 20);
    assert Pairwise(DvorakFramesBase, BaseRightUpper, DvorakRightUpper, 38);
    assert Pairwise(DvorakFramesBase, BaseRightLower, DvorakRightLower, 58);
    PairwiseLayer(DvorakFramesBase,
      BaseLeftUpper, BaseLeftLower, BaseRightUpper, BaseRightLower,
      DvorakLeftUpper, DvorakLeftLower, DvorakRightUpper, DvorakRightLower);
  }

  lemma BaseAlphaEverywhere()
    ensures Pointwise(BaseAlphaAt, Base, 0)
  {
    HandShapes();
    BaseLeftUpperAlpha(); BaseLeftLowerAlpha(); BaseRightUpperAlpha(); BaseRightLowerAlpha();
    assert Pointwise(BaseAlphaAt, BaseLeftUpper, 0) && Pointwise(BaseAlphaAt, BaseLeftLower, 20);
    assert Pointwise(BaseAlphaAt, BaseRightUpper, 38) && Pointwise(BaseAlphaAt, BaseRightLower, 58);
    PointwiseLayer(BaseAlphaAt, BaseLeftUpper, BaseLeftLower, BaseRightUpper, BaseRightLower);
  }

  lemma DvorakLettersEverywhere()
    ensures Pointwise(DvorakLetterAt, Dvorak, 0)
  {
    HandShapes();
    DvorakLeftUpperLetters(); DvorakLeftLowerLetters(); DvorakRightUpperLetters(); DvorakRightLowerLetters();
    assert Pointwise(DvorakLetterAt, DvorakLeftUpper, 0) && Pointwise(DvorakLetterAt, DvorakLeftLower, 20);
    assert Pointwise(DvorakLetterAt, DvorakRightUpper, 38) && Pointwise(DvorakLetterAt, DvorakRightLower, 58);
    PointwiseLayer(DvorakLetterAt, DvorakLeftUpper, DvorakLeftLower, DvorakRightUpper, DvorakRightLower);
  }

  /** At the index where BASE has alpha-block key `k`, DVORAK has its substitute. */
  lemma DvorakAtBaseAlphaIndex(k: KeyCode)
    requires BaseAlphaIndex(k).Some?
    ensures BaseAlphaIndex(k).value < KeysPerLayer
    ensures Base[BaseAlphaIndex(k).value] == Key(k)
    ensures Dvorak[BaseAlphaIndex(k).value] == Key(DvorakOf(k))
  {
    HandShapes();
    match k {
      case Alpha(l) =>
        match l {
          case A => case B => case C => case D => case E => case F => case G =>
          case H => case I => case J => case K => case L => case M => case N =>
          case O => case P => case Q => case R => case S => case T => case U =>
          case V => case W => case X => case Y => case Z =>
        }
      case _ =>
    }
  }

  /** Each letter sits on DVORAK at the index `DvorakLetterIndex` gives. */
  lemma DvorakLetterIndexHolds(l: Letter)
    ensures DvorakLetterIndex(l) < |Dvorak| && Dvorak[DvorakLetterIndex(l)] == Key(Alpha(l))
  {
    HandShapes();
    match l {
      case A => case B => case C => case D => case E => case F => case G =>
      case H => case I => case J => case K => case L => case M => case N =>
      case O => case P => case Q => case R => case S => case T => case U =>
      case V => case W => case X => case Y => case Z =>
    }
  }

  /** Each letter sits on BASE at the index `BaseLetterIndex` gives. */
  lemma BaseLetterIndexHolds(l: Letter)
    ensures BaseLetterIndex(l) < |Base| && Base[BaseLetterIndex(l)] == Key(Alpha(l))
  {
    DvorakAtBaseAlphaIndex(Alpha(l));
  }

  /** At every alpha-block key of BASE, DVORAK holds its Dvorak substitute. */
  lemma DvorakSubstitutesAlpha()
    ensures |Dvorak| == |Base| == KeysPerLayer
    ensures forall i :: 0 <= i < KeysPerLayer && AlphaKey(Base[i]) ==>
      Dvorak[i] == Key(DvorakOf(Base[i].code))
  {
    HandShapes();
    BaseAlphaEverywhere();
    forall i | 0 <= i < KeysPerLayer && AlphaKey(Base[i])
      ensures Dvorak[i] == Key(DvorakOf(Base[i].code))
    {
      assert BaseAlphaAt(Base[i], i);
      DvorakAtBaseAlphaIndex(Base[i].code);
    }
  }

  /**
   * DVORAK is BASE with the standard QWERTY -> Dvorak substitution applied
   * to the whole alpha block; outside it DVORAK only repeats BASE, turns
   * entries transparent, and swaps the first `MO(FKEYS)` for `MO(DFKEYS)`.
   */
  lemma DvorakSubstitutesBase()
    ensures |Dvorak| == |Base| == KeysPerLayer
    ensures forall i :: 0 <= i < KeysPerLayer ==> (AlphaKey(Dvorak[i]) <==> AlphaKey(Base[i]))
    ensures forall i :: 0 <= i < KeysPerLayer && AlphaKey(Base[i]) ==>
      Dvorak[i] == Key(DvorakOf(Base[i].code))
    ensures forall i :: 0 <= i < KeysPerLayer && !AlphaKey(Base[i]) && i != FirstFKeysSwitch() ==>
      Dvorak[i] == Base[i] || Dvorak[i] == Trans
    ensures Base[FirstFKeysSwitch()] == Mo(FKEYS) && Dvorak[FirstFKeysSwitch()] == Mo(DFKEYS)
    ensures forall i :: 0 <= i < FirstFKeysSwitch() ==> Base[i] != Mo(FKEYS)
  {
    DvorakFramesBaseEverywhere();
    DvorakSubstitutesAlpha();
    LayerSwitchPlacement();
    assert forall i :: 0 <= i < FirstFKeysSwitch() ==> !IsLayerSwitch(Keymaps[BASE][i]);
  }

  /**
   * The point of the DVORAK layer: on a US QWERTY host, every DVORAK key
   * that is not transparent types what the BASE key at the same index types
   * on a host that remaps to Dvorak in software.
   */
  lemma FirmwareDvorakTypesLikeSoftDvorak()
    ensures forall i :: 0 <= i < KeysPerLayer && Dvorak[i].Key? ==>
      Types(UsQwerty, Dvorak[i]) == Types(SoftDvorak, Base[i])
  {
    DvorakSubstitutesBase();
    forall i | 0 <= i < KeysPerLayer && Dvorak[i].Key?
      ensures Types(UsQwerty, Dvorak[i]) == Types(SoftDvorak, Base[i])
    {
      DvorakOfMatchesSoftDvorak(Base[i].code, false);
      DvorakKeepsBlock(Base[i].code);
    }
  }

  // Each letter exactly once.

  /** `s` holds `x` at index `k` only: then it holds `x` exactly once. */
  lemma {:induction false} CountOnce<T>(s: seq<T>, x: T, k: nat)
    requires k < |s| && s[k] == x
    requires forall i :: 0 <= i < |s| && s[i] == x ==> i == k
    ensures multiset(s)[x] == 1
  {
    var n := |s| - 1;
    assert s == s[..n] + [s[n]];
    if k == n {
      assert x !in s[..n];
    } else {
      CountOnce(s[..n], x, k);
    }
  }

  /**
   * If `idx` gives each letter's index in `s`, and every letter key of `s`
   * sits at its letter's index, then `s` holds each letter exactly once.
   */
  lemma EachLetterOnce(s: seq<Action>, idx: Letter -> nat)
    requires forall i :: 0 <= i < |s| && IsLetterKey(s[i]) ==> idx(s[i].code.letter) == i
    requires forall l: Letter :: idx(l) < |s| && s[idx(l)] == Key(Alpha(l))
    ensures forall l: Letter :: multiset(s)[Key(Alpha(l))] == 1
  {
    forall l: Letter
      ensures multiset(s)[Key(Alpha(l))] == 1
    {
      CountOnce(s, Key(Alpha(l)), idx(l));
    }
  }

  /** BASE holds each of the 26 letter keys exactly once. */
  lemma BaseHasEachLetterOnce()
    ensures forall l: Letter :: multiset(Base)[Key(Alpha(l))] == 1
  {
    BaseAlphaEverywhere();
    forall i | 0 <= i < |Base| && IsLetterKey(Base[i])
      ensures BaseLetterIndex(Base[i].code.letter) == i
    {
      assert AlphaKey(Base[i]) && BaseAlphaAt(Base[i], i);
    }
    forall l: Letter ensures BaseLetterIndex(l) < |Base| && Base[BaseLetterIndex(l)] == Key(Alpha(l)) {
      BaseLetterIndexHolds(l);
    }
    EachLetterOnce(Base, BaseLetterIndex);
  }

  /** DVORAK holds each of the 26 letter keys exactly once. */
  lemma DvorakHasEachLetterOnce()
    ensures forall l: Letter :: multiset(Dvorak)[Key(Alpha(l))] == 1
  {
    DvorakLettersEverywhere();
    assert forall i :: 0 <= i < |Dvorak| ==> DvorakLetterAt(Dvorak[i], i);
    forall l: Letter ensures DvorakLetterIndex(l) < |Dvorak| && Dvorak[DvorakLetterIndex(l)] == Key(Alpha(l)) {
      DvorakLetterIndexHolds(l);
    }
    EachLetterOnce(Dvorak, DvorakLetterIndex);
  }

  // FKEYS against DFKEYS.

  /** The indices at which FKEYS and DFKEYS differ. */
  const FunctionLayerChanges: set<nat> := {13, 53, 54, 60, 61}

  predicate FunctionLayersAgreeAt(f: Action, d: Action, i: nat)
  {
    f != d <==> i in FunctionLayerChanges
  }

  lemma FunctionLayersLeftAgree()
    ensures |FKeysLeftUpper| == |DFKeysLeftUpper| && |FKeysLeftLower| == |DFKeysLeftLower|
    ensures forall i :: 0 <= i < |FKeysLeftUpper| ==> FunctionLayersAgreeAt(FKeysLeftUpper[i], DFKeysLeftUpper[i], i)
    ensures forall i :: 0 <= i < |FKeysLeftLower| ==> FunctionLayersAgreeAt(FKeysLeftLower[i], DFKeysLeftLower[i], i + 20)
  {
  }

  lemma FunctionLayersRightUpperAgree()
    ensures |FKeysRightUpper| == |DFKeysRightUpper|
    ensures forall i :: 0 <= i < |FKeysRightUpper| ==> FunctionLayersAgreeAt(FKeysRightUpper[i], DFKeysRightUpper[i], i + 38)
  {
  }

  lemma FunctionLayersRightLowerAgree()
    ensures |FKeysRightLower| == |DFKeysRightLower|
    ensures forall i :: 0 <= i < |FKeysRightLower| ==> FunctionLayersAgreeAt(FKeysRightLower[i], DFKeysRightLower[i], i + 58)
  {
  }

  /**
   * DFKEYS is FKEYS except for the DVORAK toggle, which it drops, and the
   * four bracket and brace keys, which it replaces.
   */
  lemma FunctionLayersDiffer()
    ensures |FKeys| == |DFKeys| == KeysPerLayer
    ensures forall i :: 0 <= i < KeysPerLayer ==> (FKeys[i] != DFKeys[i] <==> i in {13, 53, 54, 60, 61})
  {
    HandShapes();
    FunctionLayersLeftAgree();
    FunctionLayersRightUpperAgree();
    FunctionLayersRightLowerAgree();
    assert Pairwise(FunctionLayersAgreeAt, FKeysLeftUpper, DFKeysLeftUpper, 0);
    assert Pairwise(FunctionLayersAgreeAt, FKeysLeftLower, DFKeysLeftLower, 20);
    assert Pairwise(FunctionLayersAgreeAt, FKeysRightUpper, DFKeysRightUpper, 38);
    assert Pairwise(FunctionLayersAgreeAt, FKeysRightLower, DFKeysRightLower, 58);
    PairwiseLayer(FunctionLayersAgreeAt,
      FKeysLeftUpper, FKeysLeftLower, FKeysRightUpper, FKeysRightLower,
      DFKeysLeftUpper, DFKeysLeftLower, DFKeysRightUpper, DFKeysRightLower);
  }

  /**
   * Where the bracket block sits on the right hand, in argument columns (the
   * place within the row as written): columns 2-3 of row 1, 1-2 of row 2 and
   * 2-3 of row 3. Right-hand row 2 has no key in its first physical column,
   * so its argument columns are one to the left of the rows around it.
   */
  lemma BracketBlockPositions()
    ensures Pos(RightHand, 1, 2) == 47 && Pos(RightHand, 1, 3) == 48
    ensures Pos(RightHand, 2, 1) == 53 && Pos(RightHand, 2, 2) == 54
    ensures Pos(RightHand, 3, 2) == 60 && Pos(RightHand, 3, 3) == 61
  {
  }

  /** The six bracket-block entries of FKEYS and DFKEYS. */
  lemma BracketBlockEntries()
    ensures FKeys[47] == DFKeys[47] == Macro(LParenNo)
    ensures FKeys[48] == DFKeys[48] == Macro(RParenNo)
    ensures FKeys[53] == Key(Mins) && DFKeys[53] == Key(LBrc)
    ensures FKeys[54] == Key(Eql) && DFKeys[54] == Key(RBrc)
    ensures FKeys[60] == Macro(LCurlyNo) && DFKeys[60] == Macro(LCqwNo)
    ensures FKeys[61] == Macro(RCurlyNo) && DFKeys[61] == Macro(RCqwNo)
  {
    HandShapes();
    assert FKeys[47] == FKeysRightUpper[9] && DFKeys[47] == DFKeysRightUpper[9];
    assert FKeys[48] == FKeysRightUpper[10] && DFKeys[48] == DFKeysRightUpper[10];
    assert FKeys[53] == FKeysRightUpper[15] && DFKeys[53] == DFKeysRightUpper[15];
    assert FKeys[54] == FKeysRightUpper[16] && DFKeys[54] == DFKeysRightUpper[16];
    assert FKeys[60] == FKeysRightLower[2] && DFKeys[60] == DFKeysRightLower[2];
    assert FKeys[61] == FKeysRightLower[3] && DFKeys[61] == DFKeysRightLower[3];
  }

  /** A macro key meant for a software-Dvorak host and one meant for QWERTY that type the same. */
  lemma MacrosTypeAlike(soft: MacroId, qwerty: MacroId)
    requires MeantFor(soft, SoftDvorak) && MeantFor(qwerty, UsQwerty)
    requires IntendedChar(soft) == IntendedChar(qwerty)
    ensures Types(SoftDvorak, Macro(soft)) == Types(UsQwerty, Macro(qwerty)) == Some([IntendedChar(soft)])
  {
    MacroTypesIntendedChar(soft, SoftDvorak);
    MacroTypesIntendedChar(qwerty, UsQwerty);
  }

  /**
   * The bracket block: the keys that type ( ) [ ] { } when FKEYS is used on
   * a software-Dvorak host type the same characters when DFKEYS is used on a
   * QWERTY host.
   */
  lemma BracketBlockTypesTheSame()
    ensures Types(SoftDvorak, FKeys[47]) == Types(UsQwerty, DFKeys[47]) == Some("(")
    ensures Types(SoftDvorak, FKeys[48]) == Types(UsQwerty, DFKeys[48]) == Some(")")
    ensures Types(SoftDvorak, FKeys[53]) == Types(UsQwerty, DFKeys[53]) == Some("[")
    ensures Types(SoftDvorak, FKeys[54]) == Types(UsQwerty, DFKeys[54]) == Some("]")
    ensures Types(SoftDvorak, FKeys[60]) == Types(UsQwerty, DFKeys[60]) == Some("{")
    ensures Types(SoftDvorak, FKeys[61]) == Types(UsQwerty, DFKeys[61]) == Some("}")
  {
    BracketBlockEntries();
    MacrosTypeAlike(LParenNo, LParenNo);
    MacrosTypeAlike(RParenNo, RParenNo);
    MacrosTypeAlike(LCurlyNo, LCqwNo);
    MacrosTypeAlike(RCurlyNo, RCqwNo);
    BracketKeysTypeTheSame();
  }

  /** Minus and equals on a software-Dvorak host are the bracket keys on QWERTY. */
  lemma BracketKeysTypeTheSame()
    ensures Types(SoftDvorak, Key(Mins)) == Types(UsQwerty, Key(LBrc)) == Some("[")
    ensures Types(SoftDvorak, Key(Eql)) == Types(UsQwerty, Key(RBrc)) == Some("]")
  {
  }
}

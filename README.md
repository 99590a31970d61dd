# qwertyDvorak keymap for the ErgoDox EZ, in Dafny

This project models the `qwertyDvorak` keymap of the ErgoDox EZ. The keymap has three parts:

- **`keymaps`.** This table gives five layers:
  - BASE (0): QWERTY.
  - FKEYS (1): F-keys, arrows and a bracket block.
  - MCFT (2): a Minecraft overlay that puts Space under the left thumb.
  - DVORAK (4): a firmware QWERTY→Dvorak remap.
  - DFKEYS (5): the function layer used with DVORAK.

  Each layer is written as the 76 arguments of one `KEYMAP(...)` call, 38 for the left hand followed by 38 for the right.
- **Macros.** There are six key-chord macros, each a shifted tap of one key, and the `fn_actions` table that names them.
- **`matrix_scan_user`.** On every scan it switches the board LED off and shows the highest active layer number, in binary, on the three right-hand LEDs.

What is proved:

- **Layer shapes.** Every layer has 76 well-formed entries. Row 3, which has no initialiser, is all `KC_NO`.
- **Letters.** Each of the 26 letters appears exactly once on BASE and exactly once on DVORAK.
- **DVORAK is the Dvorak substitution of BASE.** At every alpha-block key, DVORAK holds the standard Dvorak keycode of BASE's key. Everywhere else it is transparent or repeats BASE, with one exception: the first `MO(FKEYS)` is replaced by `MO(DFKEYS)`.
- **Typing equivalence.** For every keycode DVORAK itself sends, a QWERTY host types what a software-Dvorak host types for BASE's key at the same position. Transparent entries depend on layer resolution, which is not modelled.
- **Layer switches.** Each layer has its switches at known positions. There is a single `TG(DVORAK)` in the whole table, on FKEYS.
- **FKEYS versus DFKEYS.** DFKEYS differs from FKEYS at exactly five indices, and its bracket block types ( ) [ ] { } on the host it is meant for.
- **Macros.** Each one is a release-balanced shift chord that types its intended character.
- **LEDs.** The right LEDs encode the highest layer modulo 8, whatever they showed before.

Layers hold abstract keycodes (`KeyCodes.KeyCode`), not their 16-bit encodings. What a key types is given by two host layouts, `UsQwerty` and `SoftDvorak`. Both are written as explicit character tables in `KeyCodes.UsUnshifted` and `KeyCodes.DvorakUnshifted`. These tables are the independent reference that the firmware Dvorak layer is checked against.

Where the layer diagrams in the source comments disagree with the code, or the code could be misread, the model follows the code:

- **BASE bottom row.** The diagram above BASE labels the left keys `L1 L2 L4` (keymap.c:32). The code has `MO(FKEYS), MO(FKEYS), TG(MCFT)` (keymap.c:50).
- **DFKEYS toggle.** The diagram above DFKEYS draws a "Dvorak Layer" key (keymap.c:196). The code has `KC_TRNS` there (keymap.c:216). DVORAK is therefore toggled only from FKEYS.
- **DFKEYS bracket block.** The same diagram shows `[ ] { }`. The code sends `KC_LBRC`, `KC_RBRC` and the `*CQW_NO` macros. Those keycodes type `[ ] { }` only on a QWERTY host, which is where DFKEYS is used.
- **LED indicator.** Reading the three bit tests of `matrix_scan_user` as tests on `layer_state` would be wrong. The code tests bits of `biton32(layer_state)`, the index of the highest active layer (keymap.c:273). With BASE, FKEYS and MCFT all on (`0b111`), only LED 2 is lit (`StatusLeds.IndicatorShowsHighestLayerOnly`).

Files:

- `keycodes.dfy`: keycodes, host layouts and the Dvorak substitution.
- `macros.dfy`: `action_get_macro` and `fn_actions`.
- `keymap.dfy`: the layer table.
- `keymap_properties.dfy`: properties of the table.
- `leds.dfy`: the LED routine, as a class.

## Model

All source paths are in `keyboard/ergodox_ez/keymaps/qwertyDvorak/`.

| member | source | states |
|---|---|---|
| KeyCodes.DvorakRoundTrip | keyboard/ergodox_ez/keymaps/qwertyDvorak/keymap.c:1-4 | The QWERTY→Dvorak keycode substitution that the Dvorak layer is built from is a bijection: `QwertyOf` undoes `DvorakOf`, and `DvorakOf` undoes `QwertyOf`. |
| KeyCodes.QwertyUndoesDvorak | keyboard/ergodox_ez/keymaps/qwertyDvorak/keymap.c:1-4 | `QwertyOf(DvorakOf(k)) == k` for every keycode. |
| KeyCodes.DvorakUndoesQwerty | keyboard/ergodox_ez/keymaps/qwertyDvorak/keymap.c:1-4 | `DvorakOf(QwertyOf(k)) == k` for every keycode. |
| KeyCodes.DvorakOfMatchesUnshifted | keyboard/ergodox_ez/keymaps/qwertyDvorak/keymap.c:1-4 | Without shift, a QWERTY host reads `DvorakOf(k)` as the character a software-Dvorak host reads for `k`. Only `KC_AMPR` maps to `KC_AMPR`. |
| KeyCodes.DvorakKeepsBlock | keyboard/ergodox_ez/keymaps/qwertyDvorak/keymap.c:148-168 | The substitution moves keys only within the alpha block. It is the identity outside it and keeps keycodes valid. |
| KeyCodes.DvorakOfMatchesSoftDvorak | keyboard/ergodox_ez/keymaps/qwertyDvorak/keymap.c:1-4 | Sending `DvorakOf(k)` to a QWERTY host types exactly what a host with software Dvorak remapping types for `k`, shifted or not. |
| Keymap.Pos | keyboard/ergodox_ez/keymaps/qwertyDvorak/keymap.c:44-63 | A (hand, row, column) argument position lies inside the 76-entry layer. It is on the left half exactly when the hand is the left one. |
| Keymap.PosInjective | keyboard/ergodox_ez/keymaps/qwertyDvorak/keymap.c:44-63 | Different (hand, row, column) triples name different arguments of `KEYMAP`. |
| Keymap.RowsTileHand | keyboard/ergodox_ez/keymaps/qwertyDvorak/keymap.c:46-53 | The rows of one hand (7, 7, 6, 7, 5, then 2, 1 and 3 thumb keys) follow each other without gap or overlap and fill the 38 arguments of the hand. |
| KeymapProperties.HandShapes | keyboard/ergodox_ez/keymaps/qwertyDvorak/keymap.c:44-232 | Every hand of every layer has 38 entries. |
| KeymapProperties.LayerShapes | keyboard/ergodox_ez/keymaps/qwertyDvorak/keymap.c:20-233 | `keymaps` has 6 rows of 76 entries. Every defined layer holds only valid keycodes and switches to defined layers, and never `KC_NO`. Row 3 is all `KC_NO`. |
| KeymapProperties.DefinedLayersOk | keyboard/ergodox_ez/keymaps/qwertyDvorak/keymap.c:44-232 | Every entry of the five defined layers is defined, is a layer switch exactly at that layer's switch indices, and on MCFT is non-transparent exactly at 13, 35 and 59. |
| KeymapProperties.KeymapsEntriesOk | keyboard/ergodox_ez/keymaps/qwertyDvorak/keymap.c:20-233 | The same per-entry facts, over the `keymaps` table as indexed by layer number. |
| KeymapProperties.BaseLetterIndexHolds | keyboard/ergodox_ez/keymaps/qwertyDvorak/keymap.c:47-58 | Each letter sits on BASE at its table index. |
| KeymapProperties.DvorakLetterIndexHolds | keyboard/ergodox_ez/keymaps/qwertyDvorak/keymap.c:174-185 | Each letter sits on DVORAK at its table index. |
| KeymapProperties.BaseHasEachLetterOnce | keyboard/ergodox_ez/keymaps/qwertyDvorak/keymap.c:44-63 | Each of the 26 letter keycodes occurs exactly once on BASE. |
| KeymapProperties.DvorakHasEachLetterOnce | keyboard/ergodox_ez/keymaps/qwertyDvorak/keymap.c:171-190 | Each of the 26 letter keycodes occurs exactly once on DVORAK. |
| KeymapProperties.FirstFKeysSwitch | keyboard/ergodox_ez/keymaps/qwertyDvorak/keymap.c:50 | The first `MO(FKEYS)` of BASE is on the left hand. |
| KeymapProperties.DvorakAtBaseAlphaIndex | keyboard/ergodox_ez/keymaps/qwertyDvorak/keymap.c:171-190 | For every alpha-block key of BASE, DVORAK holds its Dvorak substitute at the position BASE holds the key. |
| KeymapProperties.DvorakFramesBaseEverywhere | keyboard/ergodox_ez/keymaps/qwertyDvorak/keymap.c:171-190 | At every index, DVORAK has an alpha-block key exactly where BASE has one. Elsewhere DVORAK repeats BASE or is `KC_TRNS`, except at BASE's first `MO(FKEYS)`. |
| KeymapProperties.BaseAlphaEverywhere | keyboard/ergodox_ez/keymaps/qwertyDvorak/keymap.c:44-63 | Every alpha-block key of BASE is at the index its key's table entry gives. |
| KeymapProperties.DvorakLettersEverywhere | keyboard/ergodox_ez/keymaps/qwertyDvorak/keymap.c:171-190 | Every letter of DVORAK is at the index its letter's table entry gives. |
| KeymapProperties.DvorakSubstitutesAlpha | keyboard/ergodox_ez/keymaps/qwertyDvorak/keymap.c:171-190 | At every alpha-block key of BASE, DVORAK holds `DvorakOf` of that key. |
| KeymapProperties.DvorakSubstitutesBase | keyboard/ergodox_ez/keymaps/qwertyDvorak/keymap.c:171-190 | DVORAK has an alpha key exactly where BASE does, and there it is `DvorakOf` of BASE's key. Everywhere else DVORAK repeats BASE or is `KC_TRNS`, except at index 27. There BASE's first `MO(FKEYS)` becomes `MO(DFKEYS)`, and no `MO(FKEYS)` precedes it. |
| KeymapProperties.FirmwareDvorakTypesLikeSoftDvorak | keyboard/ergodox_ez/keymaps/qwertyDvorak/keymap.c:1-4 | A QWERTY host types for each keycode of DVORAK what a software-Dvorak host types for BASE's key at the same position. |
| KeymapProperties.LayerSwitchPlacement | keyboard/ergodox_ez/keymaps/qwertyDvorak/keymap.c:20-233 | Over all 6 × 76 entries there is a layer switch exactly at BASE {27, 28, 29, 69}, FKEYS {13} and DVORAK {27}. The switches at those indices are `MO(FKEYS)`, `TG(MCFT)`, `TG(DVORAK)` and `MO(DFKEYS)`. |
| KeymapProperties.DvorakIsReachedOnlyThroughFKeys | keyboard/ergodox_ez/keymaps/qwertyDvorak/keymap.c:89 | `TG(DVORAK)` occurs exactly once, on FKEYS at left row 1, column 6. `MO(DFKEYS)` occurs only on DVORAK at index 27. Nothing else switches to DVORAK or DFKEYS, and DFKEYS is `KC_TRNS` at index 13. |
| KeymapProperties.FunctionLayersDiffer | keyboard/ergodox_ez/keymaps/qwertyDvorak/keymap.c:213-232 | FKEYS and DFKEYS differ exactly at indices 13, 53, 54, 60 and 61. |
| KeymapProperties.BracketBlockPositions | keyboard/ergodox_ez/keymaps/qwertyDvorak/keymap.c:98-100 | The bracket block occupies right-hand row 1 columns 2–3, row 2 columns 1–2 and row 3 columns 2–3, which are indices 47, 48, 53, 54, 60 and 61. |
| KeymapProperties.BracketBlockEntries | keyboard/ergodox_ez/keymaps/qwertyDvorak/keymap.c:225-227 | At those indices FKEYS has `M(LPAREN_NO)`, `M(RPAREN_NO)`, `KC_MINS`, `KC_EQL`, `M(LCURLY_NO)` and `M(RCURLY_NO)`. DFKEYS has the parentheses, `KC_LBRC`, `KC_RBRC`, `M(LCQW_NO)` and `M(RCQW_NO)`. |
| KeymapProperties.MacrosTypeAlike | keyboard/ergodox_ez/keymaps/qwertyDvorak/keymap.c:238-240 | A macro meant for a software-Dvorak host and one meant for a QWERTY host with the same intended character type the same single character on their hosts. |
| KeymapProperties.BracketKeysTypeTheSame | keyboard/ergodox_ez/keymaps/qwertyDvorak/keymap.c:99 | `KC_MINS` and `KC_EQL` on a software-Dvorak host type `[` and `]`, as `KC_LBRC` and `KC_RBRC` do on a QWERTY host. |
| KeymapProperties.BracketBlockTypesTheSame | keyboard/ergodox_ez/keymaps/qwertyDvorak/keymap.c:98-100 | The bracket block of FKEYS on a software-Dvorak host and of DFKEYS on a QWERTY host types ( ) [ ] { } alike. |
| KeymapProperties.McftOverridesThreeKeys | keyboard/ergodox_ez/keymaps/qwertyDvorak/keymap.c:128-147 | MCFT is `KC_TRNS` except at 13 (Esc), 35 (Space, where BASE has Backspace) and 59 (`&`). |
| Macros.Ordinal | keyboard/ergodox_ez/keymaps/qwertyDvorak/keymap.c:16-18 | The `macro_id` enum members are numbered below 6. |
| Macros.MacroIdOf | keyboard/ergodox_ez/keymaps/qwertyDvorak/keymap.c:248-261 | The switch selects a case exactly for id < 6, and the selected member has that id. |
| Macros.ShiftedTapReleases | keyboard/ergodox_ez/keymaps/qwertyDvorak/keymap.c:250 | `D(LSFT), T(k), U(LSFT)` leaves no key held. |
| Macros.ShiftedTapTypes | keyboard/ergodox_ez/keymaps/qwertyDvorak/keymap.c:250 | On any host, a shifted tap of a non-modifier types the shifted character of the key, and nothing else. |
| Macros.ActionGetMacro | keyboard/ergodox_ez/keymaps/qwertyDvorak/keymap.c:244-263 | A step list is returned exactly on a press with id < 6; release or an unknown id gives `MACRO_NONE`. The list is always down-shift, tap, up-shift, and leaves nothing held. |
| Macros.PressedMacroIsShiftedTap | keyboard/ergodox_ez/keymaps/qwertyDvorak/keymap.c:248-261 | Pressing macro `m` returns the shifted tap of its own key: `9`, `0`, `-`, `=`, `[` or `]`. |
| Macros.PressedMacroTypes | keyboard/ergodox_ez/keymaps/qwertyDvorak/keymap.c:248-261 | On any host, pressing macro `m` types the shifted character of its key, if that key has one. |
| Macros.TapKeyTypesIntendedChar | keyboard/ergodox_ez/keymaps/qwertyDvorak/keymap.c:248-261 | On the host a macro is meant for, its key shifted types the macro's intended character. |
| Macros.MacroTypesIntendedChar | keyboard/ergodox_ez/keymaps/qwertyDvorak/keymap.c:238-260 | On the host it is meant for, each macro on press types exactly its intended character: ( ) { } { }. |
| Macros.CurlyMacrosNeedTheirHost | keyboard/ergodox_ez/keymaps/qwertyDvorak/keymap.c:253-260 | On the host it is not meant for, each brace macro types `_`, `+`, `?` or `+` (for `{` `}` `{` `}` respectively), never its intended brace. |
| Macros.FnActionsNameEveryMacro | keyboard/ergodox_ez/keymaps/qwertyDvorak/keymap.c:235-242 | `fn_actions` has 7 entries. Entry 0 is zero, and entry i is `ACTION_MACRO(i - 1)` for i in 1..6. Each of those names a macro that answers a press with a chord. |
| StatusLeds.BitOn32 | keyboard/ergodox_ez/keymaps/qwertyDvorak/keymap.c:273 | `biton32` gives a bit index below 32: 0 for the empty mask, otherwise the n with 2^n ≤ bits < 2^(n+1). |
| StatusLeds.BitOn32Unique | keyboard/ergodox_ez/keymaps/qwertyDvorak/keymap.c:273 | That bracket identifies the index uniquely. |
| StatusLeds.Indicator | keyboard/ergodox_ez/keymaps/qwertyDvorak/keymap.c:275-287 | The board LED is off, and right LED n is on exactly when bit n-1 of the layer number is set. |
| StatusLeds.HighestBitOf32 | keyboard/ergodox_ez/keymaps/qwertyDvorak/keymap.c:273 | The highest set bit of a 32-bit mask is below 32 and brackets the mask between two powers of two. |
| StatusLeds.IndicatorShowsLayer | keyboard/ergodox_ez/keymaps/qwertyDvorak/keymap.c:275-287 | Read as a binary number, the three right LEDs give back the layer number modulo 8. |
| StatusLeds.IndicatorDistinguishes | keyboard/ergodox_ez/keymaps/qwertyDvorak/keymap.c:275-287 | Two layers light the same LEDs exactly when they agree modulo 8. |
| StatusLeds.LowBitsOfLayer | keyboard/ergodox_ez/keymaps/qwertyDvorak/keymap.c:276-286 | `layer & 1`, `layer & 2` and `layer & 4` on the 8-bit `layer` are the three low arithmetic bits. |
| StatusLeds.Board.MatrixScanUser | keyboard/ergodox_ez/keymaps/qwertyDvorak/keymap.c:271-289 | After a scan the four LEDs equal `Indicator(biton32(layer_state))`, whatever they were before. `layer_state` is not changed. |
| StatusLeds.DvorakLightsLed3 | keyboard/ergodox_ez/keymaps/qwertyDvorak/keymap.c:273-287 | For every mask whose highest set bit is DVORAK's (0x10 ≤ bits < 0x20), `biton32` gives 4 and only LED 3 is lit. |
| StatusLeds.DFKeysLightsLeds1And3 | keyboard/ergodox_ez/keymaps/qwertyDvorak/keymap.c:273-287 | For every mask whose highest set bit is DFKEYS's (0x20 ≤ bits < 0x40), `biton32` gives 5 and LEDs 1 and 3 are lit. |
| StatusLeds.IndicatorShowsHighestLayerOnly | keyboard/ergodox_ez/keymaps/qwertyDvorak/keymap.c:273-287 | The LEDs show the highest layer, not the set of active layers. Every mask with highest bit 0x4, such as 0b111, lights LED 2 alone. Masks 0 and 1 light nothing. Masks with highest bit 0x2 light LED 1 alone. |

## Left out

- The `KEYMAP` macro's mapping of the 76 arguments onto the 6×14 key matrix. It lives in the board header, which is not part of this model, so positions are argument positions.
- Layer resolution at run time: how the firmware walks the active layers through `KC_TRNS`, and how `MO` and `TG` change `layer_state`. These belong to the QMK core, not this keymap.
- Keycode numbers, `PROGMEM` storage, and the byte encoding of `MACRO(...)` step lists are not modelled. Keycodes and macro steps are abstract datatypes.
- USB HID reporting is represented only by the host character tables `UsQwerty` and `SoftDvorak`. Host-side autorepeat, dead keys and non-US layouts are not modelled.
- BitOn32: the QMK core's `biton32` body, a chain of shifts, is not part of this model. The function states its contract and computes it as the highest set bit.
- ActionGetMacro: the `keyrecord_t` is reduced to its `pressed` flag, and `opt` is dropped because the source never reads it.
- StatusLeds.Board.MatrixScanUser: the `ergodox_board_led_off` and `ergodox_right_led_N_on/off` driver calls are modelled as writes to four boolean fields. Their electrical effect is not modelled, and the `NULL` return is dropped.
- `matrix_init_user` is not modelled: it does nothing and returns `NULL`. The constructor `StatusLeds.Board.constructor` starts with every LED off, a choice the source does not make.

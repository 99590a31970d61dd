/**
 * The keycodes that the qwertyDvorak keymap uses, the characters a host
 * types for them, and the standard QWERTY -> Dvorak substitution that the
 * firmware Dvorak layer is built from.
 *
 * Keycodes are abstract: their 16-bit QMK encodings are not modelled.
 */
module KeyCodes {

  datatype Option<T> = None | Some(value: T)

  /** The 26 letter keys, named after their US QWERTY legends. */
  datatype Letter =
    | A | B | C | D | E | F | G | H | I | J | K | L | M
    | N | O | P | Q | R | S | T | U | V | W | X | Y | Z

  /** The QMK basic keycodes that appear in the five layers. */
  datatype KeyCode =
    | Alpha(letter: Letter)   // KC_A .. KC_Z
    | Num(digit: nat)         // KC_0 .. KC_9
    | Func(n: nat)            // KC_F1 .. KC_F12
    | Grv | Mins | Eql | LBrc | RBrc | Bsls | Scln | Quot | Comm | Dot | Slsh
    | Ampr                    // KC_AMPR: shift + 7, a keycode that carries its own shift
    | Tab | Esc | BSpc | Del | Ent | Spc
    | Home | End | PgUp | PgDn | Left | Down | Up | Right
    | LCtl | LSft | LAlt | LGui | RCtl | RSft | RAlt | RGui

  /** KC_0..KC_9 and KC_F1..KC_F12 are the only numbered keycodes. */
  predicate ValidKeyCode(k: KeyCode)
  {
    match k
    case Num(d) => d <= 9
    case Func(n) => 1 <= n <= 12
    case _ => true
  }

  predicate IsModifier(k: KeyCode)
  {
    k in {LCtl, LSft, LAlt, LGui, RCtl, RSft, RAlt, RGui}
  }

  /**
   * The keys a Dvorak layout moves: the letters and the eleven punctuation
   * keys between and beside them.
   */
  predicate InAlphaBlock(k: KeyCode)
  {
    k.Alpha? || k in {Scln, Quot, Comm, Dot, Slsh, LBrc, RBrc, Mins, Eql}
  }

  function LetterChar(l: Letter): (c: char)
    ensures 'a' <= c <= 'z'
  {
    match l
    case A => 'a' case B => 'b' case C => 'c' case D => 'd' case E => 'e'
    case F => 'f' case G => 'g' case H => 'h' case I => 'i' case J => 'j'
    case K => 'k' case L => 'l' case M => 'm' case N => 'n' case O => 'o'
    case P => 'p' case Q => 'q' case R => 'r' case S => 's' case T => 't'
    case U => 'u' case V => 'v' case W => 'w' case X => 'x' case Y => 'y'
    case Z => 'z'
  }

  /** The unshifted character a host with the US QWERTY layout types for `k`. */
  function UsUnshifted(k: KeyCode): Option<char>
  {
    match k
    case Alpha(l) => Some(LetterChar(l))
    case Num(d) => if d <= 9 then Some(('0' as int + d) as char) else None
    case Grv => Some('`')
    case Mins => Some('-')
    case Eql => Some('=')
    case LBrc => Some('[')
    case RBrc => Some(']')
    case Bsls => Some('\\')
    case Scln => Some(';')
    case Quot => Some('\'')
    case Comm => Some(',')
    case Dot => Some('.')
    case Slsh => Some('/')
    case Spc => Some(' ')
    case _ => None
  }

  /**
   * The unshifted character a host doing the standard Dvorak remapping in
   * software types for the physical key whose QWERTY keycode is `k`.
   * Keys outside the alpha block keep their QWERTY meaning.
   */
  function DvorakUnshifted(k: KeyCode): Option<char>
  {
    match k
    case Alpha(l) =>
      Some(match l
        case Q => '\'' case W => ',' case E => '.' case R => 'p' case T => 'y'
        case Y => 'f' case U => 'g' case I => 'c' case O => 'r' case P => 'l'
        case A => 'a' case S => 'o' case D => 'e' case F => 'u' case G => 'i'
        case H => 'd' case J => 'h' case K => 't' case L => 'n'
        case Z => ';' case X => 'q' case C => 'j' case V => 'k' case B => 'x'
        case N => 'b' case M => 'm')
    case Mins => Some('[')
    case Eql => Some(']')
    case LBrc => Some('/')
    case RBrc => Some('=')
    case Scln => Some('s')
    case Quot => Some('-')
    case Comm => Some('w')
    case Dot => Some('v')
    case Slsh => Some('z')
    case _ => UsUnshifted(k)
  }

  /**
   * The character that shift turns `c` into. Both layouts use the US
   * shift pairs: Dvorak moves keycaps, not the pairs printed on them.
   */
  function ShiftOf(c: char): char
  {
    if 'a' <= c <= 'z' then (c as int - 32) as char
    else match c
      case '1' => '!' case '2' => '@' case '3' => '#' case '4' => '$'
      case '5' => '%' case '6' => '^' case '7' => '&' case '8' => '*'
      case '9' => '(' case '0' => ')' case '`' => '~' case '-' => '_'
      case '=' => '+' case '[' => '{' case ']' => '}' case '\\' => '|'
      case ';' => ':' case '\'' => '"' case ',' => '<' case '.' => '>'
      case '/' => '?' case _ => c
  }

  /** How the host computer reads the keycodes it receives. */
  datatype HostLayout = UsQwerty | SoftDvorak

  /** The character the host types for `k` while shift is held or not. */
  function HostChar(host: HostLayout, k: KeyCode, shifted: bool): Option<char>
  {
    if k == Ampr then Some('&')
    else
      var base := if host == UsQwerty then UsUnshifted(k) else DvorakUnshifted(k);
      match base
      case None => None
      case Some(c) => Some(if shifted then ShiftOf(c) else c)
  }

  /**
   * The standard QWERTY -> Dvorak substitution on keycodes: the keycode that
   * a US QWERTY host reads as the Dvorak character of the physical key `k`.
   * The identity outside the alpha block.
   */
  function DvorakOf(k: KeyCode): KeyCode
  {
    match k
    case Alpha(l) =>
      (match l
      case Q => Quot case W => Comm case E => Dot case R => Alpha(P) case T => Alpha(Y)
      case Y => Alpha(F) case U => Alpha(G) case I => Alpha(C) case O => Alpha(R)
      case P => Alpha(L)
      case A => Alpha(A) case S => Alpha(O) case D => Alpha(E) case F => Alpha(U)
      case G => Alpha(I) case H => Alpha(D) case J => Alpha(H) case K => Alpha(T)
      case L => Alpha(N)
      case Z => Scln case X => Alpha(Q) case C => Alpha(J) case V => Alpha(K)
      case B => Alpha(X) case N => Alpha(B) case M => Alpha(M))
    case LBrc => Slsh
    case RBrc => Eql
    case Scln => Alpha(S)
    case Quot => Mins
    case Comm => Alpha(W)
    case Dot => Alpha(V)
    case Slsh => Alpha(Z)
    case Mins => LBrc
    case Eql => RBrc
    case _ => k
  }

  /** The Dvorak -> QWERTY direction of the same substitution. */
  function QwertyOf(k: KeyCode): KeyCode
  {
    match k
    case Alpha(l) =>
      (match l
      case P => Alpha(R) case Y => Alpha(T) case F => Alpha(Y) case G => Alpha(U)
      case C => Alpha(I) case R => Alpha(O) case L => Alpha(P)
      case A => Alpha(A) case O => Alpha(S) case E => Alpha(D) case U => Alpha(F)
      case I => Alpha(G) case D => Alpha(H) case H => Alpha(J) case T => Alpha(K)
      case N => Alpha(L) case S => Scln
      case Q => Alpha(X) case J => Alpha(C) case K => Alpha(V) case X => Alpha(B)
      case B => Alpha(N) case M => Alpha(M) case W => Comm case V => Dot
      case Z => Slsh)
    case Quot => Alpha(Q)
    case Comm => Alpha(W)
    case Dot => Alpha(E)
    case Slsh => LBrc
    case Eql => RBrc
    case Mins => Quot
    case Scln => Alpha(Z)
    case LBrc => Mins
    case RBrc => Eql
    case _ => k
  }

  /** The substitution is a bijection: QwertyOf undoes DvorakOf and back. */
  lemma DvorakRoundTrip(k: KeyCode)
    ensures QwertyOf(DvorakOf(k)) == k
    ensures DvorakOf(QwertyOf(k)) == k
  {
    QwertyUndoesDvorak(k);
    DvorakUndoesQwerty(k);
  }

  lemma QwertyUndoesDvorak(k: KeyCode)
    ensures QwertyOf(DvorakOf(k)) == k
  {
    if k.Alpha? {
      QwertyUndoesDvorakLetter(k.letter);
    }
  }

  lemma QwertyUndoesDvorakLetter(l: Letter)
    ensures QwertyOf(DvorakOf(Alpha(l))) == Alpha(l)
  {
    match l {
      case A => case B => case C => case D => case E => case F => case G =>
      case H => case I => case J => case K => case L => case M => case N =>
      case O => case P => case Q => case R => case S => case T => case U =>
      case V => case W => case X => case Y => case Z =>
    }
  }

  lemma DvorakUndoesQwerty(k: KeyCode)
    ensures DvorakOf(QwertyOf(k)) == k
  {
    if k.Alpha? {
      DvorakUndoesQwertyLetter(k.letter);
    }
  }

  lemma DvorakUndoesQwertyLetter(l: Letter)
    ensures DvorakOf(QwertyOf(Alpha(l))) == Alpha(l)
  {
    match l {
      case A => case B => case C => case D => case E => case F => case G =>
      case H => case I => case J => case K => case L => case M => case N =>
      case O => case P => case Q => case R => case S => case T => case U =>
      case V => case W => case X => case Y => case Z =>
    }
  }

  /** The substitution moves keys only inside the alpha block. */
  lemma DvorakKeepsBlock(k: KeyCode)
    ensures InAlphaBlock(DvorakOf(k)) <==> InAlphaBlock(k)
    ensures !InAlphaBlock(k) ==> DvorakOf(k) == k
    ensures ValidKeyCode(DvorakOf(k)) <==> ValidKeyCode(k)
  {
  }

  /**
   * Sending DvorakOf(k) to a US QWERTY host types exactly what a software
   * Dvorak host types for k, shifted or not.
   */
  lemma DvorakOfMatchesSoftDvorak(k: KeyCode, shifted: bool)
    ensures HostChar(UsQwerty, DvorakOf(k), shifted) == HostChar(SoftDvorak, k, shifted)
  {
    DvorakOfMatchesUnshifted(k);
  }

  /** The unshifted half: the substituted keycode reads on QWERTY as the key reads on Dvorak. */
  lemma DvorakOfMatchesUnshifted(k: KeyCode)
    ensures DvorakOf(k) == Ampr <==> k == Ampr
    ensures UsUnshifted(DvorakOf(k)) == DvorakUnshifted(k)
  {
    if k.Alpha? {
      DvorakOfMatchesUnshiftedLetter(k.letter);
    }
  }

  lemma DvorakOfMatchesUnshiftedLetter(l: Letter)
    ensures DvorakOf(Alpha(l)) != Ampr
    ensures UsUnshifted(DvorakOf(Alpha(l))) == DvorakUnshifted(Alpha(l))
  {
    match l {
      case A => case B => case C => case D => case E => case F => case G =>
      case H => case I => case J => case K => case L => case M => case N =>
      case O => case P => case Q => case R => case S => case T => case U =>
      case V => case W => case X => case Y => case Z =>
    }
  }
}

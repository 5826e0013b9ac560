/**
 Double-quoted scalars as text (sections 5.7 and 7.3.1 of YAML 1.2): the units that the text is made
 of, and the string that it stands for. Bit masks and shifts on bytes are written as arithmetic.
 */
module YamlText {
  import opened Wire
  import opened Wrappers

  type Bytes = seq<byte>

  const TAB: byte := 0x09
  const LF: byte := 0x0A
  const CR: byte := 0x0D
  const SPACE: byte := 0x20
  const QUOTE: byte := 0x22
  const BACKSLASH: byte := 0x5C

  // ----- Characters -----

  type CodePoint = c: nat | c <= 0x10FFFF && !(0xD800 <= c <= 0xDFFF)

  function Utf8(c: CodePoint): (s: Bytes)
    ensures 1 <= |s| <= 4
  {
    if c <= 0x7F then [c]
    else if c <= 0x7FF then [0xC0 + c / 64, 0x80 + c % 64]
    else if c <= 0xFFFF then [0xE0 + c / 4096, 0x80 + c / 64 % 64, 0x80 + c % 64]
    else [0xF0 + c / 262144, 0x80 + c / 4096 % 64, 0x80 + c / 64 % 64, 0x80 + c % 64]
  }

  function Utf8All(cs: seq<CodePoint>): Bytes {
    if cs == [] then [] else Utf8(cs[0]) + Utf8All(cs[1..])
  }

  /** The byte at a position; the buffer is filled up with zeros. */
  function At(b: Bytes, i: nat): byte {
    if i < |b| then b[i] else 0
  }

  function Width(b: byte): nat {
    if b < 0x80 then 1
    else if 0xC0 <= b < 0xE0 then 2
    else if 0xE0 <= b < 0xF0 then 3
    else if 0xF0 <= b < 0xF8 then 4
    else 0
  }

  predicate IsBlank(b: Bytes, i: nat) {
    At(b, i) == SPACE || At(b, i) == TAB
  }

  /** Carriage return, line feed, next line, line separator, paragraph separator. */
  predicate IsBreak(b: Bytes, i: nat) {
    || At(b, i) == CR || At(b, i) == LF
    || (At(b, i) == 0xC2 && At(b, i + 1) == 0x85)
    || (At(b, i) == 0xE2 && At(b, i + 1) == 0x80 && (At(b, i + 2) == 0xA8 || At(b, i + 2) == 0xA9))
  }

  predicate IsBlankZ(b: Bytes, i: nat) {
    IsBlank(b, i) || IsBreak(b, i) || At(b, i) == 0
  }

  predicate IsCrLf(b: Bytes, i: nat) {
    At(b, i) == CR && At(b, i + 1) == LF
  }

  function BreakWidth(b: Bytes, i: nat): nat {
    if IsCrLf(b, i) then 2 else Width(At(b, i))
  }

  /** A line break as it is kept: separators stay, everything else becomes a line feed. */
  function Normal(b: Bytes, i: nat): Bytes {
    if At(b, i) == 0xE2 then [At(b, i), At(b, i + 1), At(b, i + 2)] else [LF]
  }

  // ----- Escapes -----

  function HexDigit(d: nat): byte
    requires d < 16
  {
    if d < 10 then 0x30 + d else 0x41 + d - 10
  }

  predicate IsHex(b: byte) {
    0x30 <= b <= 0x39 || 0x41 <= b <= 0x46 || 0x61 <= b <= 0x66
  }

  function AsHex(b: byte): nat
    requires IsHex(b)
  {
    if 0x41 <= b <= 0x46 then b - 0x41 + 10 else if 0x61 <= b <= 0x66 then b - 0x61 + 10 else b - 0x30
  }

  /** The last `n` hexadecimal digits of `v`. */
  function Hex(v: nat, n: nat): (s: Bytes)
    ensures |s| == n
  {
    if n == 0 then [] else Hex(v / 16, n - 1) + [HexDigit(v % 16)]
  }

  /** The number that `n` hexadecimal digits stand for. */
  function HexValue(b: Bytes, i: nat, n: nat): Option<nat> {
    if n == 0 then Some(0)
    else
      match HexValue(b, i, n - 1)
      case None => None
      case Some(v) => if IsHex(At(b, i + n - 1)) then Some(16 * v + AsHex(At(b, i + n - 1))) else None
  }

  /** What a single letter behind a backslash stands for. */
  function Letter(b: byte): Option<Bytes> {
    if b == 0x30 then Some([0x00])              // 0
    else if b == 0x61 then Some([0x07])         // a
    else if b == 0x62 then Some([0x08])         // b
    else if b == 0x74 || b == TAB then Some([TAB])
    else if b == 0x6E then Some([LF])           // n
    else if b == 0x76 then Some([0x0B])         // v
    else if b == 0x66 then Some([0x0C])         // f
    else if b == 0x72 then Some([CR])           // r
    else if b == 0x65 then Some([0x1B])         // e
    else if b == SPACE then Some([SPACE])
    else if b == QUOTE then Some([QUOTE])
    else if b == 0x27 then Some([0x27])         // '
    else if b == BACKSLASH then Some([BACKSLASH])
    else if b == 0x4E then Some([0xC2, 0x85])   // N
    else if b == 0x5F then Some([0xC2, 0xA0])   // _
    else if b == 0x4C then Some([0xE2, 0x80, 0xA8])  // L
    else if b == 0x50 then Some([0xE2, 0x80, 0xA9])  // P
    else None
  }

  /** The number of hexadecimal digits that follow x, u or U. */
  function CodeLength(b: byte): nat {
    if b == 0x78 then 2 else if b == 0x75 then 4 else if b == 0x55 then 8 else 0
  }

  // ----- Units -----

  datatype Unit =
    | Raw(bytes: Bytes)
    | Escape(code: Bytes, meaning: Bytes)
    | EscapedBreak(bytes: Bytes)
    | Blank(bytes: Bytes)
    | Break(bytes: Bytes, normal: Bytes)

  function TextOf(u: Unit): Bytes {
    match u
    case Raw(bytes) => bytes
    case Escape(code, _) => [BACKSLASH] + code
    case EscapedBreak(bytes) => [BACKSLASH] + bytes
    case Blank(bytes) => bytes
    case Break(bytes, _) => bytes
  }

  function Slice(b: Bytes, i: nat, n: nat): Option<Bytes> {
    if i + n <= |b| then Some(b[i..i + n]) else None
  }

  /** The escape whose letter is at `i`. */
  function NextEscape(b: Bytes, i: nat): Option<Unit> {
    var letter := Letter(At(b, i));
    var n := CodeLength(At(b, i));
    if i >= |b| then None
    else if letter.Some? then Some(Escape([b[i]], letter.value))
    else if n == 0 then None
    else
      match HexValue(b, i + 1, n)
      case None => None
      case Some(v) =>
        if i + 1 + n > |b| || v > 0x10FFFF || 0xD800 <= v <= 0xDFFF then None
        else Some(Escape(b[i..i + 1 + n], Utf8(v)))
  }

  /** The unit at `i`; nothing at the end of the input and where the text is malformed. */
  function NextUnit(b: Bytes, i: nat): (u: Option<Unit>)
    ensures u.Some? ==> TextOf(u.value) != [] && i + |TextOf(u.value)| <= |b|
  {
    if i >= |b| || b[i] == 0 then None
    else if IsBlank(b, i) then Some(Blank([b[i]]))
    else if IsBreak(b, i) then
      match Slice(b, i, BreakWidth(b, i))
      case None => None
      case Some(k) => if k == [] then None else Some(Break(k, Normal(b, i)))
    else if b[i] == BACKSLASH && IsBreak(b, i + 1) then
      match Slice(b, i + 1, BreakWidth(b, i + 1))
      case None => None
      case Some(k) => Some(EscapedBreak(k))
    else if b[i] == BACKSLASH then NextEscape(b, i + 1)
    else
      match Slice(b, i, Width(b[i]))
      case None => None
      case Some(c) => if c == [] then None else Some(Raw(c))
  }

  // ----- What the units stand for -----

  /** White space that has not been followed by anything yet. */
  datatype Gap = Gap(spaces: Bytes, broken: bool, lead: Bytes, trail: Bytes)

  const NO_GAP := Gap([], false, [], [])

  /** A single line break folds into a space; otherwise the breaks behind the first one are kept. */
  function Folded(g: Gap): Bytes {
    if !g.broken then g.spaces
    else if g.lead != [] && g.lead[0] == LF then if g.trail == [] then [SPACE] else g.trail
    else g.lead + g.trail
  }

  /** What has been read: complete characters, and a gap behind them. */
  datatype Reading = Reading(done: Bytes, gap: Gap)

  function Settled(r: Reading): Bytes {
    r.done + Folded(r.gap)
  }

  function Feed(r: Reading, u: Unit): Reading {
    var g := r.gap;
    match u
    case Raw(bytes) => Reading(Settled(r) + bytes, NO_GAP)
    case Escape(_, meaning) => Reading(Settled(r) + meaning, NO_GAP)
    case EscapedBreak(_) => Reading(Settled(r), NO_GAP.(broken := true))
    case Blank(bytes) => if g.broken then r else r.(gap := g.(spaces := g.spaces + bytes))
    case Break(_, normal) =>
      if g.broken then r.(gap := g.(trail := g.trail + normal)) else r.(gap := Gap([], true, normal, []))
  }

  predicate EndsLine(u: Unit) {
    u.Break? || u.EscapedBreak?
  }

  /** `---` or `...`, followed by white space or the end of the input. */
  predicate IsDocumentIndicator(b: Bytes, i: nat) {
    && ((At(b, i) == 0x2D && At(b, i + 1) == 0x2D && At(b, i + 2) == 0x2D)
        || (At(b, i) == 0x2E && At(b, i + 1) == 0x2E && At(b, i + 2) == 0x2E))
    && IsBlankZ(b, i + 3)
  }

  /** The value of the scalar whose text goes on at `i`, and the position behind its closing quote. */
  function Scan(b: Bytes, i: nat, lineStart: bool, r: Reading): Option<(Bytes, nat)>
    decreases |b| - i
  {
    if At(b, i) == QUOTE then Some((Settled(r), i + 1))
    else if lineStart && IsDocumentIndicator(b, i) then None
    else
      match NextUnit(b, i)
      case None => None
      case Some(u) => Scan(b, i + |TextOf(u)|, EndsLine(u), Feed(r, u))
  }
}

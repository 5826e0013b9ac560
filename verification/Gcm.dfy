/**
 Galois counter mode with a tag of twelve bytes (sections 6.4, 6.5 and 7 of NIST SP 800-38D), over an
 arbitrary block cipher.
 */
module Gcm {
  import opened Wrappers
  import opened GcmField

  datatype Byte = Byte(bits: bv8)

  const NIL := Byte(0)
  const FULL := Byte(255)

  const TAG: nat := 12
  const STANDARD_NONCE: nat := 12

  /** A block cipher under a fixed key. */
  type Cipher = f: seq<Byte> -> seq<Byte> | forall b :: |b| == 16 ==> |f(b)| == 16 witness (b => b)

  // ----- Words and bytes -----

  function GetUint64(d: seq<Byte>): bv64
    requires |d| >= 8
  {
    ((d[0].bits as bv64) << 56) | ((d[1].bits as bv64) << 48) | ((d[2].bits as bv64) << 40)
    | ((d[3].bits as bv64) << 32)
    | ((d[4].bits as bv64) << 24) | ((d[5].bits as bv64) << 16) | ((d[6].bits as bv64) << 8) | (d[7].bits as bv64)
  }

  function Low(v: bv64): Byte {
    Byte((v & 0xff) as bv8)
  }

  function PutUint64(v: bv64): (d: seq<Byte>)
    ensures |d| == 8
  {
    [Low(v >> 56), Low(v >> 48), Low(v >> 40), Low(v >> 32), Low(v >> 24), Low(v >> 16), Low(v >> 8), Low(v)]
  }

  lemma GetOfPut(v: bv64)
    ensures GetUint64(PutUint64(v)) == v
  {
  }

  function Word32(a: bv8, b: bv8, c: bv8, d: bv8): bv32 {
    ((a as bv32) << 24) | ((b as bv32) << 16) | ((c as bv32) << 8) | (d as bv32)
  }

  function First(v: bv32): bv8 {
    ((v >> 24) & 0xff) as bv8
  }

  function Second(v: bv32): bv8 {
    ((v >> 16) & 0xff) as bv8
  }

  function Third(v: bv32): bv8 {
    ((v >> 8) & 0xff) as bv8
  }

  function Fourth(v: bv32): bv8 {
    (v & 0xff) as bv8
  }

  function Succ32(v: bv32): bv32 {
    v + 1
  }

  function Up(b: Byte): Byte {
    Byte(b.bits + 1)
  }

  function Xor8(a: Byte, b: Byte): Byte {
    Byte(a.bits ^ b.bits)
  }

  function Next32(a: Byte, b: Byte, c: Byte, d: Byte): (r: seq<Byte>)
    ensures |r| == 4
  {
    var v := Succ32(Word32(a.bits, b.bits, c.bits, d.bits));
    [Byte(First(v)), Byte(Second(v)), Byte(Third(v)), Byte(Fourth(v))]
  }

  /** The last four bytes counted up by one, modulo 2^32 (section 6.2). */
  function Inc32(block: seq<Byte>): (r: seq<Byte>)
    requires |block| == 16
    ensures |r| == 16
  {
    block[..12] + Next32(block[12], block[13], block[14], block[15])
  }

  lemma CarryFourth(a: bv8, b: bv8, c: bv8, d: bv8)
    ensures Fourth(Succ32(Word32(a, b, c, d))) == d + 1
  {
  }

  lemma CarryThird(a: bv8, b: bv8, c: bv8, d: bv8)
    ensures Third(Succ32(Word32(a, b, c, d))) == if d == 255 then c + 1 else c
  {
  }

  lemma CarrySecond(a: bv8, b: bv8, c: bv8, d: bv8)
    ensures Second(Succ32(Word32(a, b, c, d))) == if d == 255 && c == 255 then b + 1 else b
  {
  }

  lemma CarryFirst(a: bv8, b: bv8, c: bv8, d: bv8)
    ensures First(Succ32(Word32(a, b, c, d))) == if d == 255 && c == 255 && b == 255 then a + 1 else a
  {
  }

  /** The carry goes through the bytes that are full. */
  lemma Carry(a: Byte, b: Byte, c: Byte, d: Byte)
    ensures Next32(a, b, c, d)
            == [if d == FULL && c == FULL && b == FULL then Up(a) else a, if d == FULL && c == FULL then Up(b) else b,
                if d == FULL then Up(c) else c, Up(d)]
  {
    hide Word32, First, Second, Third, Fourth, Succ32;
    CarryFirst(a.bits, b.bits, c.bits, d.bits);
    CarrySecond(a.bits, b.bits, c.bits, d.bits);
    CarryThird(a.bits, b.bits, c.bits, d.bits);
    CarryFourth(a.bits, b.bits, c.bits, d.bits);
  }

  // ----- GHASH (section 6.4) -----

  function Zeros(n: nat): (z: seq<Byte>)
    ensures |z| == n
  {
    seq(n, _ => NIL)
  }

  function BlockElement(b: seq<Byte>): Element
    requires |b| >= 16
  {
    Element(GetUint64(b), GetUint64(b[8..]))
  }

  function ElementBytes(e: Element): (b: seq<Byte>)
    ensures |b| == 16
  {
    PutUint64(e.low) + PutUint64(e.high)
  }

  /** The blocks of the data, the last one filled up with zeros. */
  function Blocks(data: seq<Byte>): seq<Element> {
    hide BlockElement;
    if data == [] then []
    else if |data| < 16 then [BlockElement(data + Zeros(16 - |data|))]
    else [BlockElement(data)] + Blocks(data[16..])
  }

  function Ghash(h: Element, y: Element, blocks: seq<Element>): Element
    decreases |blocks|
  {
    if blocks == [] then y else Ghash(h, Product(Add(y, blocks[0]), h), blocks[1..])
  }

  lemma {:induction false} GhashParts(h: Element, y: Element, a: seq<Element>, b: seq<Element>)
    ensures Ghash(h, y, a + b) == Ghash(h, Ghash(h, y, a), b)
    decreases |a|
  {
    hide Product, Add;
    if a == [] {
      assert a + b == b;
    } else {
      assert (a + b)[1..] == a[1..] + b;
      GhashParts(h, Product(Add(y, a[0]), h), a[1..], b);
    }
  }

  lemma GhashOne(h: Element, y: Element, b: Element)
    ensures Ghash(h, y, [b]) == Product(Add(y, b), h)
  {
    hide Product, Add;
    assert [b][1..] == [];
  }

  /** The number of bits in `n` bytes, as a 64-bit word. */
  function BitLength(n: nat): bv64 {
    (n * 8 % 0x1_0000_0000_0000_0000) as bv64
  }

  // ----- The mode, as the standard defines it -----

  function HashKey(c: Cipher): Element {
    BlockElement(c(Zeros(16)))
  }

  /** The pre-counter block (section 7.1, step 2). */
  function PreCounter(c: Cipher, nonce: seq<Byte>): (b: seq<Byte>)
    ensures |b| == 16
  {
    hide Ghash, HashKey, PutUint64, ElementBytes, BitLength;
    if |nonce| == STANDARD_NONCE then nonce + [NIL, NIL, NIL, Byte(1)]
    else ElementBytes(Ghash(HashKey(c), ZERO, Blocks(nonce) + [Element(0, BitLength(|nonce|))]))
  }

  function CounterAt(counter: seq<Byte>, i: nat): (b: seq<Byte>)
    requires |counter| == 16
    ensures |b| == 16
  {
    if i == 0 then counter else Inc32(CounterAt(counter, i - 1))
  }

  /** Byte `k` of the key stream that starts with the given counter (section 6.5). */
  function KeyStream(c: Cipher, counter: seq<Byte>, k: nat): Byte
    requires |counter| == 16
  {
    c(CounterAt(counter, k / 16))[k % 16]
  }

  function Crypt(c: Cipher, counter: seq<Byte>, x: seq<Byte>): (r: seq<Byte>)
    requires |counter| == 16
    ensures |r| == |x|
  {
    seq(|x|, k requires 0 <= k < |x| => Xor8(x[k], KeyStream(c, counter, k)))
  }

  function XorBytes(a: seq<Byte>, b: seq<Byte>): (r: seq<Byte>)
    requires |a| <= |b|
    ensures |r| == |a|
  {
    seq(|a|, i requires 0 <= i < |a| => Xor8(a[i], b[i]))
  }

  /** The tag of sixteen bytes before it is cut (section 7.1, steps 4 to 6). */
  function FullTag(c: Cipher, nonce: seq<Byte>, ciphertext: seq<Byte>, data: seq<Byte>): (t: seq<Byte>)
    ensures |t| == 16
  {
    hide Ghash, HashKey, PutUint64, PreCounter, ElementBytes, BitLength;
    var lengths := Element(BitLength(|data|), BitLength(|ciphertext|));
    XorBytes(ElementBytes(Ghash(HashKey(c), ZERO, Blocks(data) + Blocks(ciphertext) + [lengths])),
             c(PreCounter(c, nonce)))
  }

  function Sealed(c: Cipher, nonce: seq<Byte>, plaintext: seq<Byte>, data: seq<Byte>): (r: seq<Byte>)
    ensures |r| == |plaintext| + TAG
  {
    var ciphertext := Crypt(c, Inc32(PreCounter(c, nonce)), plaintext);
    ciphertext + FullTag(c, nonce, ciphertext, data)[..TAG]
  }

  /** The plaintext, if the tag is right. */
  function Unsealed(c: Cipher, nonce: seq<Byte>, text: seq<Byte>, data: seq<Byte>): Option<seq<Byte>> {
    if |text| < TAG then None
    else
      var n := |text| - TAG;
      if FullTag(c, nonce, text[..n], data)[..TAG] != text[n..] then None
      else Some(Crypt(c, Inc32(PreCounter(c, nonce)), text[..n]))
  }

  lemma CryptTwice(c: Cipher, counter: seq<Byte>, x: seq<Byte>)
    requires |counter| == 16
    ensures Crypt(c, counter, Crypt(c, counter, x)) == x
  {
    hide KeyStream, Xor8;
    forall k | 0 <= k < |x|
      ensures Crypt(c, counter, Crypt(c, counter, x))[k] == x[k]
    {
      XorTwice(x[k], KeyStream(c, counter, k));
    }
  }

  lemma XorTwice(a: Byte, b: Byte)
    ensures Xor8(Xor8(a, b), b) == a
  {
  }

  /** Opening succeeds on exactly the sealed texts, and it gives back what was sealed. */
  lemma OpenIffSealed(c: Cipher, nonce: seq<Byte>, text: seq<Byte>, data: seq<Byte>, plaintext: seq<Byte>)
    ensures Unsealed(c, nonce, text, data) == Some(plaintext) <==> text == Sealed(c, nonce, plaintext, data)
  {
    hide FullTag, Crypt, PreCounter, Inc32;
    var counter := Inc32(PreCounter(c, nonce));
    CryptTwice(c, counter, plaintext);
    if |text| >= TAG {
      var n := |text| - TAG;
      CryptTwice(c, counter, text[..n]);
      assert text == text[..n] + text[n..];
    }
    var sealed := Sealed(c, nonce, plaintext, data);
    assert sealed[..|plaintext|] == Crypt(c, counter, plaintext);
  }

  // ----- The implementation -----

  class GcmMode {
    const cipher: Cipher
    const nonceSize: nat
    const productTable: array<Element>

    ghost predicate Valid()
      reads productTable
    {
      IsTable(productTable[..], HashKey(cipher))
    }

    constructor (cipher: Cipher, size: nat)
      ensures Valid() && this.cipher == cipher && nonceSize == size && fresh(productTable)
    {
      this.cipher, nonceSize := cipher, size;
      var table := MakeTable(HashKey(cipher));
      productTable := table;
    }

    method UpdateBlocks(y: Element, blocks: seq<Byte>, ghost n: nat) returns (r: Element)
      requires Valid() && |blocks| == 16 * n
      ensures r == Ghash(HashKey(cipher), y, Blocks(blocks))
    {
      hide Product, Add, GetUint64, IsTable, HashKey;
      ghost var h, m := HashKey(cipher), n;
      r := y;
      var rest := blocks;
      while |rest| > 0
        invariant |rest| == 16 * m
        invariant Ghash(h, y, Blocks(blocks)) == Ghash(h, r, Blocks(rest))
      {
        FirstBlock(h, r, rest);
        r := Add(r, Element(GetUint64(rest), GetUint64(rest[8..])));
        r := Mul(productTable, r, h);
        rest, m := rest[16..], m - 1;
      }
    }

    method Update(y: Element, data: seq<Byte>) returns (r: Element)
      requires Valid()
      ensures r == Ghash(HashKey(cipher), y, Blocks(data))
    {
      hide Ghash, IsTable, HashKey, Blocks;
      var fullBlocks := |data| / 16 * 16;
      r := UpdateBlocks(y, data[..fullBlocks], |data| / 16);
      BlocksParts(data, |data| / 16);
      GhashParts(HashKey(cipher), y, Blocks(data[..fullBlocks]), Blocks(data[fullBlocks..]));
      if |data| != fullBlocks {
        var partial := data[fullBlocks..] + Zeros(16 - (|data| - fullBlocks));
        PartialBlock(data[fullBlocks..]);
        r := UpdateBlocks(r, partial, 1);
      } else {
        NoBlocks(HashKey(cipher), r, data[fullBlocks..]);
      }
    }

    method DeriveCounter(nonce: seq<Byte>) returns (counter: array<Byte>)
      requires Valid()
      ensures fresh(counter) && counter[..] == PreCounter(cipher, nonce)
    {
      hide Ghash, IsTable, HashKey, Product, ElementBytes, BitLength, Blocks;
      counter := new Byte[16](_ => NIL);
      if |nonce| == STANDARD_NONCE {
        forall i | 0 <= i < STANDARD_NONCE {
          counter[i] := nonce[i];
        }
        counter[15] := Byte(1);
        assert counter[..] == nonce + [NIL, NIL, NIL, Byte(1)];
      } else {
        ghost var h := HashKey(cipher);
        var y := Update(ZERO, nonce);
        LengthsAdded(h, Blocks(nonce), y, 0, BitLength(|nonce|));
        y := Element(y.low, Xor(y.high, BitLength(|nonce|)));
        y := Mul(productTable, y, h);
        var bytes := ElementBytes(y);
        forall i | 0 <= i < 16 {
          counter[i] := bytes[i];
        }
        assert counter[..] == bytes;
      }
    }

    /** Encrypt or decrypt `input` to the front of `out`. */
    method CounterCrypt(out: array<Byte>, input: seq<Byte>, counter: array<Byte>)
      requires |input| <= out.Length && counter.Length == 16 && out != counter
      modifies out, counter
      ensures out[..|input|] == Crypt(cipher, old(counter[..]), input)
      ensures out[|input|..] == old(out[|input|..])
    {
      hide Inc32, CounterAt, KeyStream, Crypt;
      ghost var start, before := counter[..], out[..];
      var pos := 0;
      ghost var n := 0;
      CounterStart(start);
      ghost var crypted := Crypt(cipher, start, input);
      while |input| - pos >= 16
        invariant pos == 16 * n <= |input| && counter[..] == CounterAt(start, n)
        invariant out[..] == crypted[..pos] + before[pos..]
      {
        ghost var o := out[..];
        CryptBlock(out, input, counter, pos, 16, start, n);
        Extends(o, out[..], crypted, before, pos, 16);
        pos, n := pos + 16, n + 1;
      }
      if |input| - pos > 0 {
        ghost var o := out[..];
        CryptBlock(out, input, counter, pos, |input| - pos, start, n);
        Extends(o, out[..], crypted, before, pos, |input| - pos);
      }
      assert crypted[..|input|] == crypted;
    }

    /** The next `len` bytes, at most one block. */
    method CryptBlock(out: array<Byte>, input: seq<Byte>, counter: array<Byte>, pos: nat, len: nat,
                      ghost start: seq<Byte>, ghost n: nat)
      requires pos + len <= |input| <= out.Length && counter.Length == 16 && out != counter
      requires len <= 16 && pos == 16 * n && |start| == 16 && counter[..] == CounterAt(start, n)
      modifies out, counter
      ensures counter[..] == CounterAt(start, n + 1)
      ensures forall k :: pos <= k < pos + len ==> out[k] == Crypt(cipher, start, input)[k]
      ensures forall k :: 0 <= k < out.Length && !(pos <= k < pos + len) ==> out[k] == old(out[k])
    {
      hide *;
      var mask := cipher(counter[..]);
      IncCounter(counter);
      CounterNext(start, n);
      XorInto(out, input, mask, pos, len);
      forall k | pos <= k < pos + len
        ensures Xor8(input[k], mask[k - pos]) == Crypt(cipher, start, input)[k]
      {
        CryptAt(cipher, start, input, n, k - pos, k);
      }
    }

    method Auth(ciphertext: seq<Byte>, additionalData: seq<Byte>, tagMask: seq<Byte>) returns (out: seq<Byte>)
      requires Valid() && |tagMask| == 16
      ensures out == XorBytes(ElementBytes(Ghash(HashKey(cipher), ZERO, Blocks(additionalData) + Blocks(ciphertext)
                                                                        + [Element(BitLength(|additionalData|),
                                                                                   BitLength(|ciphertext|))])), tagMask)
    {
      hide Ghash, IsTable, HashKey, Product, ElementBytes, BitLength, Blocks, XorBytes;
      ghost var h := HashKey(cipher);
      var y := Update(ZERO, additionalData);
      y := Update(y, ciphertext);
      GhashParts(h, ZERO, Blocks(additionalData), Blocks(ciphertext));
      LengthsAdded(h, Blocks(additionalData) + Blocks(ciphertext), y, BitLength(|additionalData|),
                   BitLength(|ciphertext|));
      y := Element(Xor(y.low, BitLength(|additionalData|)), Xor(y.high, BitLength(|ciphertext|)));
      y := Mul(productTable, y, h);
      out := XorBytes(ElementBytes(y), tagMask);
    }

    /** The counter for the text and the mask of the tag. */
    method Prepare(nonce: seq<Byte>) returns (counter: array<Byte>, tagMask: seq<Byte>)
      requires Valid()
      ensures fresh(counter) && counter[..] == Inc32(PreCounter(cipher, nonce))
              && tagMask == cipher(PreCounter(cipher, nonce))
      ensures |tagMask| == 16
    {
      hide PreCounter, Inc32, IsTable;
      counter := DeriveCounter(nonce);
      tagMask := cipher(counter[..]);
      IncCounter(counter);
    }

    /** Append the sealed text to `dst`. */
    method Seal(dst: seq<Byte>, nonce: seq<Byte>, plaintext: seq<Byte>, data: seq<Byte>) returns (ret: seq<Byte>)
      requires Valid() && |nonce| == nonceSize
      ensures ret == dst + Sealed(cipher, nonce, plaintext, data)
    {
      hide Crypt, PreCounter, Inc32, IsTable, HashKey, Ghash, ElementBytes, BitLength, XorBytes;
      var out := new Byte[|plaintext| + TAG](_ => NIL);
      var counter, tagMask := Prepare(nonce);
      CounterCrypt(out, plaintext, counter);
      var ciphertext := out[..|plaintext|];
      var tag := Auth(ciphertext, data, tagMask);
      ret := dst + (ciphertext + tag[..TAG]);
    }

    /** The plaintext behind `dst`, or nothing if the tag does not fit. */
    method Open(dst: seq<Byte>, nonce: seq<Byte>, text: seq<Byte>, data: seq<Byte>) returns (ret: Option<seq<Byte>>)
      requires Valid() && |nonce| == nonceSize
      ensures ret == match Unsealed(cipher, nonce, text, data)
                     case None => None
                     case Some(plaintext) => Some(dst + plaintext)
    {
      hide Crypt, PreCounter, Inc32, IsTable, HashKey, Ghash, ElementBytes, BitLength, XorBytes;
      if |text| < TAG {
        return None;
      }
      var tag := text[|text| - TAG..];
      var ciphertext := text[..|text| - TAG];
      var counter, tagMask := Prepare(nonce);
      var expectedTag := Auth(ciphertext, data, tagMask);
      if expectedTag[..TAG] != tag {
        return None;
      }
      var out := new Byte[|ciphertext|](_ => NIL);
      CounterCrypt(out, ciphertext, counter);
      assert out[..|ciphertext|] == out[..];
      return Some(dst + out[..]);
    }
  }

  lemma Extends(old': seq<Byte>, new': seq<Byte>, crypted: seq<Byte>, before: seq<Byte>, pos: nat, len: nat)
    requires pos + len <= |crypted| <= |before| == |old'| == |new'| && old' == crypted[..pos] + before[pos..]
    requires forall k :: pos <= k < pos + len ==> new'[k] == crypted[k]
    requires forall k :: 0 <= k < |new'| && !(pos <= k < pos + len) ==> new'[k] == old'[k]
    ensures new' == crypted[..pos + len] + before[pos + len..]
  {
  }

  method XorInto(out: array<Byte>, input: seq<Byte>, mask: seq<Byte>, pos: nat, len: nat)
    requires pos + len <= |input| <= out.Length && len <= |mask|
    modifies out
    ensures forall k :: pos <= k < pos + len ==> out[k] == Xor8(input[k], mask[k - pos])
    ensures forall k :: 0 <= k < out.Length && !(pos <= k < pos + len) ==> out[k] == old(out[k])
  {
    hide Xor8;
    for i := 0 to len
      invariant forall k :: pos <= k < pos + i ==> out[k] == Xor8(input[k], mask[k - pos])
      invariant forall k :: 0 <= k < out.Length && !(pos <= k < pos + i) ==> out[k] == old(out[k])
    {
      out[pos + i] := Xor8(input[pos + i], mask[i]);
    }
  }

  /** Count the last four bytes up. */
  method IncCounter(counter: array<Byte>)
    requires counter.Length == 16
    modifies counter
    ensures counter[..] == Inc32(old(counter[..]))
  {
    hide Next32, Up, Inc32;
    ghost var b := counter[..];
    var i := 15;
    while i >= 12
      invariant 11 <= i <= 15
      invariant forall j :: i < j < 16 ==> b[j] == FULL && counter[j] == NIL
      invariant forall j :: 0 <= j <= i ==> counter[j] == b[j]
    {
      NoCarry(b[i]);
      counter[i] := Up(counter[i]);
      if counter[i] != NIL {
        break;
      }
      i := i - 1;
    }
    Counted(b, counter[..], i);
  }

  lemma NoCarry(x: Byte)
    ensures Up(x) == NIL <==> x == FULL
  {
  }

  lemma Inc32Is(b: seq<Byte>)
    requires |b| == 16
    ensures Inc32(b) == b[..12] + Next32(b[12], b[13], b[14], b[15])
  {
  }

  /** Byte `i` was counted up and the bytes behind it started again. */
  lemma Counted(b: seq<Byte>, c: seq<Byte>, i: int)
    requires |b| == |c| == 16 && 11 <= i <= 15
    requires forall j :: i < j < 16 ==> b[j] == FULL && c[j] == NIL
    requires forall j :: 0 <= j < 16 && (j < i || i == 11 == j) ==> c[j] == b[j]
    requires i > 11 ==> b[i] != FULL && c[i] == Up(b[i])
    ensures c == Inc32(b)
  {
    hide Up, Next32, Inc32, NIL, FULL;
    NoCarry(FULL);
    Inc32Is(b);
    assert c[..12] == b[..12];
    assert c == c[..12] + [c[12], c[13], c[14], c[15]];
    CountedFour(b[12], b[13], b[14], b[15], c[12], c[13], c[14], c[15], i);
  }

  lemma CountedFour(a: Byte, b: Byte, c: Byte, d: Byte, a': Byte, b': Byte, c': Byte, d': Byte, i: int)
    requires i == 15 ==> d != FULL && [a', b', c', d'] == [a, b, c, Up(d)]
    requires i == 14 ==> c != FULL && d == FULL && [a', b', c', d'] == [a, b, Up(c), NIL]
    requires i == 13 ==> b != FULL && c == d == FULL && [a', b', c', d'] == [a, Up(b), NIL, NIL]
    requires i == 12 || i == 11 ==> b == c == d == FULL && [a', b', c', d'] == [Up(a), NIL, NIL, NIL]
    requires 11 <= i <= 15
    ensures [a', b', c', d'] == Next32(a, b, c, d)
  {
    hide Up, Next32;
    NoCarry(FULL);
    Carry(a, b, c, d);
  }

  lemma CounterStart(start: seq<Byte>)
    requires |start| == 16
    ensures CounterAt(start, 0) == start
  {
  }

  lemma CounterNext(start: seq<Byte>, n: nat)
    requires |start| == 16
    ensures CounterAt(start, n + 1) == Inc32(CounterAt(start, n))
  {
  }

  lemma CryptAt(c: Cipher, start: seq<Byte>, x: seq<Byte>, n: nat, i: nat, k: nat)
    requires |start| == 16 && i < 16 && k == 16 * n + i < |x|
    ensures Crypt(c, start, x)[k] == Xor8(x[k], c(CounterAt(start, n))[i])
  {
    Stream(c, start, n, i, k);
    hide KeyStream, CounterAt, Xor8;
  }

  lemma Stream(c: Cipher, start: seq<Byte>, n: nat, i: nat, k: nat)
    requires |start| == 16 && i < 16 && k == 16 * n + i
    ensures KeyStream(c, start, k) == c(CounterAt(start, n))[i]
  {
    hide CounterAt;
    Quotient(n, i);
  }

  lemma Quotient(n: nat, i: nat)
    requires i < 16
    ensures (16 * n + i) / 16 == n && (16 * n + i) % 16 == i
  {
  }

  lemma FirstBlock(h: Element, y: Element, data: seq<Byte>)
    requires |data| >= 16
    ensures Ghash(h, y, Blocks(data)) == Ghash(h, Product(Add(y, BlockElement(data)), h), Blocks(data[16..]))
  {
    hide Product, Add, BlockElement;
    assert Blocks(data)[1..] == Blocks(data[16..]);
  }

  lemma {:induction false} BlocksParts(data: seq<Byte>, n: nat)
    requires 16 * n <= |data|
    ensures Blocks(data) == Blocks(data[..16 * n]) + Blocks(data[16 * n..])
    decreases n
  {
    hide BlockElement;
    if n > 0 {
      var rest, m := data[16..], 16 * (n - 1);
      BlocksParts(rest, n - 1);
      assert data[..16 * n][16..] == rest[..m] && data[16 * n..] == rest[m..];
      SameBlock(data, data[..16 * n]);
    } else {
      assert data[..0] == [] && data[0..] == data;
    }
  }

  lemma SameBlock(a: seq<Byte>, b: seq<Byte>)
    requires |a| >= 16 && |b| >= 16 && a[..16] == b[..16]
    ensures BlockElement(a) == BlockElement(b)
  {
    hide GetUint64;
    assert a[..16][..8] == a[..8] && b[..16][..8] == b[..8];
    assert a[..16][8..] == a[8..][..8] && b[..16][8..] == b[8..][..8];
    SameWord(a, b);
    SameWord(a[8..], b[8..]);
  }

  lemma SameWord(a: seq<Byte>, b: seq<Byte>)
    requires |a| >= 8 && |b| >= 8 && a[..8] == b[..8]
    ensures GetUint64(a) == GetUint64(b)
  {
    assert forall i :: 0 <= i < 8 ==> a[i] == a[..8][i] && b[i] == b[..8][i];
  }

  lemma PartialBlock(data: seq<Byte>)
    requires 0 < |data| < 16
    ensures Blocks(data) == Blocks(data + Zeros(16 - |data|))
  {
    hide BlockElement;
    assert (data + Zeros(16 - |data|))[16..] == [];
  }

  lemma NoBlocks(h: Element, y: Element, data: seq<Byte>)
    requires data == []
    ensures Ghash(h, y, Blocks(data)) == y
  {
  }

  /** Adding two length words and multiplying is hashing the block of the lengths. */
  lemma LengthsAdded(h: Element, blocks: seq<Element>, y: Element, a: bv64, b: bv64)
    requires y == Ghash(h, ZERO, blocks)
    ensures Ghash(h, ZERO, blocks + [Element(a, b)]) == Product(Element(Xor(y.low, a), Xor(y.high, b)), h)
    ensures Xor(y.low, 0) == y.low
  {
    hide Product, Ghash;
    XorLaws(y.low, 0);
    hide Xor;
    GhashParts(h, ZERO, blocks, [Element(a, b)]);
    GhashOne(h, y, Element(a, b));
  }
}

/** WEP encapsulation and decapsulation (common/cmm_wep.c) and the wrapping of the group key for
    EAPOL-Key frames (common/cmm_tkip.c), both over ARC4. */
module Wep {
  import opened Common
  import opened Crc32
  import Arc4

  const LEN_WEP_IV_HDR := 4
  const LEN_ICV := 4
  const MAX_KEY := 13

  // ---------- the check value, as the four bytes that travel ----------

  function Icv(data: Bytes): bv32 {
    Xor(BitSerial(INIT_FCS, data), COMPLEMENT)
  }

  function ToBytes(x: bv32): (b: Bytes)
    ensures |b| == LEN_ICV
  {
    [Low(x), Low(x >> 8), Low(x >> 16), Low(x >> 24)]
  }

  function FromBytes(b: Bytes): bv32
    requires |b| == LEN_ICV
  {
    Widen(b[0]) | (Widen(b[1]) << 8) | (Widen(b[2]) << 16) | (Widen(b[3]) << 24)
  }

  lemma Serial1(fcs: bv32, b: bv8, rest: Bytes)
    ensures BitSerial(fcs, [b] + rest) == BitSerial(Shift8(Xor(fcs, Widen(b))), rest)
  {
    hide Shift8, Xor, Widen;
    assert ([b] + rest)[1..] == rest;
  }

  lemma Serial3(fcs: bv32, b0: bv8, b1: bv8, b2: bv8, rest: Bytes)
    ensures BitSerial(fcs, [b0, b1, b2] + rest) ==
      BitSerial(Shift8(Xor(Shift8(Xor(Shift8(Xor(fcs, Widen(b0))), Widen(b1))), Widen(b2))), rest)
  {
    hide Shift8, Xor, Widen, BitSerial;
    assert [b0, b1, b2] + rest == [b0] + ([b1] + ([b2] + rest));
    Serial1(fcs, b0, [b1] + ([b2] + rest));
    Serial1(Shift8(Xor(fcs, Widen(b0))), b1, [b2] + rest);
    Serial1(Shift8(Xor(Shift8(Xor(fcs, Widen(b0))), Widen(b1))), b2, rest);
  }

  lemma DigitSteps()
    ensures Shift8(Xor(Shift8(Xor(Shift8(Xor(0xffffffff, 0x31)), 0x32)), 0x33)) == 0x77b79c2d
    ensures Shift8(Xor(Shift8(Xor(Shift8(Xor(0x77b79c2d, 0x34)), 0x35)), 0x36)) == 0xf68d2c9e
    ensures Shift8(Xor(Shift8(Xor(Shift8(Xor(0xf68d2c9e, 0x37)), 0x38)), 0x39)) == 0x340bc6d9
  {
    assert Shift8(Xor(0xffffffff, 0x31)) == 0x7c231048 && Shift8(Xor(0x7c231048, 0x32)) == 0xb0acbb32;
    assert Shift8(Xor(0x77b79c2d, 0x34)) == 0x641c1f5c && Shift8(Xor(0x641c1f5c, 0x35)) == 0x340ac5e3;
    assert Shift8(Xor(0xf68d2c9e, 0x37)) == 0xaffc9660 && Shift8(Xor(0xaffc9660, 0x38)) == 0x651f2550;
  }

  /** The check value of the nine digits 1 to 9, as the CRC catalogue has it, low-order byte first. */
  lemma IcvOfDigits()
    ensures ToBytes(Icv([0x31, 0x32, 0x33, 0x34, 0x35, 0x36, 0x37, 0x38, 0x39])) == [0x26, 0x39, 0xf4, 0xcb]
  {
    var d: Bytes := [0x31, 0x32, 0x33, 0x34, 0x35, 0x36, 0x37, 0x38, 0x39];
    assert BitSerial(INIT_FCS, d) == 0x340bc6d9 by {
      hide Shift8, Xor;
      assert d == [0x31, 0x32, 0x33] + d[3..] && d[3..] == [0x34, 0x35, 0x36] + d[6..];
      assert d[6..] == [0x37, 0x38, 0x39] + [];
      Serial3(INIT_FCS, 0x31, 0x32, 0x33, d[3..]);
      Serial3(0x77b79c2d, 0x34, 0x35, 0x36, d[6..]);
      Serial3(0xf68d2c9e, 0x37, 0x38, 0x39, []);
      DigitSteps();
    }
    hide BitSerial;
  }

  lemma FromToBytes(x: bv32)
    ensures FromBytes(ToBytes(x)) == x
  {
  }

  lemma FourBytes(b0: bv8, b1: bv8, b2: bv8, b3: bv8)
    ensures var x := Widen(b0) | (Widen(b1) << 8) | (Widen(b2) << 16) | (Widen(b3) << 24);
            Low(x) == b0 && Low(x >> 8) == b1 && Low(x >> 16) == b2 && Low(x >> 24) == b3
  {
  }

  lemma ToFromBytes(b: Bytes)
    requires |b| == LEN_ICV
    ensures ToBytes(FromBytes(b)) == b
  {
    FourBytes(b[0], b[1], b[2], b[3]);
  }

  // ---------- what travels ----------

  // RTMPInitWepEngine: the seed is the initialization vector followed by the key.
  function Engine(iv: Bytes, key: Bytes): (c: Arc4.Ctx)
    requires key != []
    ensures Arc4.Ready(c)
  {
    Arc4.Init(iv + key)
  }

  // The data and its check value, enciphered.
  function Seal(iv: Bytes, key: Bytes, data: Bytes): Bytes
    requires key != []
  {
    Arc4.Crypt(Engine(iv, key), data + ToBytes(Icv(data)))
  }

  // A frame: the header of four bytes whose first three are the initialization vector, then the body.
  function Open(key: Bytes, frame: Bytes): Option<Bytes>
    requires key != [] && LEN_WEP_IV_HDR + LEN_ICV <= |frame|
  {
    var p := Arc4.Crypt(Engine(frame[..3], key), frame[LEN_WEP_IV_HDR..]);
    var n := |p| - LEN_ICV;
    if Icv(p[..n]) == FromBytes(p[n..]) then Some(p[..n]) else None
  }

  // What decapsulation makes of any key and any bytes.
  function Decapsulated(key: Bytes, frame: Bytes): Option<Bytes> {
    if key == [] || |frame| < LEN_WEP_IV_HDR + LEN_ICV then None else Open(key, frame)
  }

  // RTMPConstructWEPIVHdr
  function Header(keyIdx: bv8, pn: Bytes): (h: Bytes)
    requires |pn| == 3
    ensures |h| == LEN_WEP_IV_HDR && h[..3] == pn && h[3] & 0x3f == 0 && h[3] >> 6 == keyIdx & 0x03
  {
    pn + [keyIdx << 6]
  }

  /** A frame opens to data exactly when its body is the sealing of data under its own vector. */
  lemma OpensIff(key: Bytes, frame: Bytes, data: Bytes)
    requires key != [] && LEN_WEP_IV_HDR + LEN_ICV <= |frame|
    ensures Open(key, frame) == Some(data) <==> frame[LEN_WEP_IV_HDR..] == Seal(frame[..3], key, data)
  {
    hide Icv, FromBytes, ToBytes, Engine, Arc4.Crypt;
    var c, body := Engine(frame[..3], key), frame[LEN_WEP_IV_HDR..];
    var p := Arc4.Crypt(c, body);
    var n := |p| - LEN_ICV;
    if Open(key, frame) == Some(data) {
      assert data == p[..n];
      ToFromBytes(p[n..]);
      assert p == data + ToBytes(Icv(data));
      Arc4.CryptTwice(c, body);
    }
    var plain := data + ToBytes(Icv(data));
    if body == Seal(frame[..3], key, data) {
      Arc4.CryptTwice(c, plain);
      assert p == plain && p[..n] == data && p[n..] == ToBytes(Icv(data));
      FromToBytes(Icv(data));
    }
  }

  /** The round trip, for every key index, vector, key and plaintext. */
  lemma OpenSealed(keyIdx: bv8, pn: Bytes, key: Bytes, data: Bytes)
    requires |pn| == 3 && key != []
    ensures Open(key, Header(keyIdx, pn) + Seal(pn, key, data)) == Some(data)
  {
    hide Seal, Open, Header;
    SealLength(pn, key, data);
    var h := Header(keyIdx, pn);
    var frame := h + Seal(pn, key, data);
    assert frame[..3] == h[..3] && frame[LEN_WEP_IV_HDR..] == Seal(pn, key, data);
    OpensIff(key, frame, data);
  }

  lemma SealLength(iv: Bytes, key: Bytes, data: Bytes)
    requires key != []
    ensures |Seal(iv, key, data)| == |data| + LEN_ICV
  {
  }

  // ---------- in place ----------

  method CalcIcv(buf: array<bv8>, len: nat) returns (x: bv32)
    requires len <= buf.Length
    ensures x == Icv(buf[..len])
  {
    var fcs := CalcFcs(INIT_FCS, buf, 0, len);
    assert buf[0..0 + len] == buf[..len];
    x := Xor(fcs, COMPLEMENT);
  }

  method PutIcv(buf: array<bv8>, at: nat, x: bv32)
    requires at + LEN_ICV <= buf.Length
    modifies buf
    ensures buf[..at + LEN_ICV] == old(buf[..at]) + ToBytes(x)
    ensures buf[at + LEN_ICV..] == old(buf[at + LEN_ICV..])
  {
    hide Low;
    buf[at], buf[at + 1], buf[at + 2], buf[at + 3] := Low(x), Low(x >> 8), Low(x >> 16), Low(x >> 24);
  }

  method GetIcv(buf: array<bv8>, at: nat) returns (x: bv32)
    requires at + LEN_ICV <= buf.Length
    ensures x == FromBytes(buf[at..at + LEN_ICV])
  {
    x := Widen(buf[at]) | (Widen(buf[at + 1]) << 8) | (Widen(buf[at + 2]) << 16) | (Widen(buf[at + 3]) << 24);
  }

  // ARC4_Compute to the front of its own buffer, with a cipher of its own.
  method Cover(iv: Bytes, key: Bytes, buf: array<bv8>, src: nat, len: nat)
    requires key != [] && src + len <= buf.Length
    modifies buf
    ensures buf[..len] == Arc4.Crypt(Engine(iv, key), old(buf[src..src + len]))
    ensures buf[len..] == old(buf[len..])
  {
    hide Arc4.Ready, Arc4.Init, Arc4.Run, Arc4.Crypt;
    var cipher := new Arc4.Cipher(iv + key);
    cipher.Compute(buf, src, len, buf, 0);
    assert buf[0..0 + len] == buf[..len] && buf[0 + len..] == buf[len..];
  }

  /** RTMPSoftEncryptWEP: append the check value to the first len bytes and encipher both where they are. */
  method Encrypt(ivHdr: Bytes, key: Bytes, buf: array<bv8>, len: nat) returns (ok: bool)
    requires |ivHdr| == LEN_WEP_IV_HDR && |key| <= MAX_KEY && len + LEN_ICV <= buf.Length
    modifies buf
    ensures ok <==> key != []
    ensures ok ==> buf[..len + LEN_ICV] == Seal(ivHdr[..3], key, old(buf[..len]))
    ensures ok ==> buf[len + LEN_ICV..] == old(buf[len + LEN_ICV..])
    ensures !ok ==> buf[..] == old(buf[..])
  {
    hide Arc4.Crypt, Icv, ToBytes, Engine;
    if key == [] {
      return false;
    }
    var fcs := CalcIcv(buf, len);
    PutIcv(buf, len, fcs);
    assert buf[0..0 + (len + LEN_ICV)] == buf[..len + LEN_ICV];
    Cover(ivHdr[..3], key, buf, 0, len + LEN_ICV);
    ok := true;
  }

  // ---------- the 16-bit length of a received frame ----------

  function Minus16(a: nat, b: nat): nat {
    (a - b) % 0x1_0000
  }

  function PlainLen(count: nat): nat {
    Minus16(Minus16(count, LEN_WEP_IV_HDR), LEN_ICV)
  }

  /** The plaintext and its check value lie inside the received frame if and only if the frame has room
      for header and check value. */
  lemma PlainLenFitsIff(count: nat)
    requires LEN_WEP_IV_HDR < count < 0x1_0000
    ensures PlainLen(count) + LEN_ICV <= count <==> LEN_WEP_IV_HDR + LEN_ICV <= count
    ensures LEN_WEP_IV_HDR + LEN_ICV <= count ==> PlainLen(count) == count - LEN_WEP_IV_HDR - LEN_ICV
  {
  }

  /** A frame of five bytes passes the only test of the length, and its plaintext is taken to be 65533
      bytes long. */
  lemma ShortFrameWraps()
    ensures LEN_WEP_IV_HDR < 5 && PlainLen(5) == 65533
  {
  }

  // The memory from the start of the frame on, once the body of the frame has been deciphered to its front.
  function Deciphered(key: Bytes, mem: Bytes, count: nat): (d: Bytes)
    requires key != [] && LEN_WEP_IV_HDR < count <= |mem|
    ensures |d| == |mem|
  {
    Arc4.Crypt(Engine(mem[..3], key), mem[LEN_WEP_IV_HDR..count]) + mem[count - LEN_WEP_IV_HDR..]
  }

  lemma DecipheredIs(key: Bytes, mem: Bytes, count: nat, d: Bytes, n: nat)
    requires key != [] && LEN_WEP_IV_HDR < count <= |mem| == |d| && n == count - LEN_WEP_IV_HDR
    requires d[..n] == Arc4.Crypt(Engine(mem[..3], key), mem[LEN_WEP_IV_HDR..count]) && d[n..] == mem[n..]
    ensures d == Deciphered(key, mem, count)
  {
    hide Arc4.Crypt, Engine;
    assert d == d[..n] + d[n..];
  }

  // What is accepted of it.
  function Accepted(key: Bytes, mem: Bytes, count: nat): Option<Bytes>
    requires key != [] && LEN_WEP_IV_HDR < count <= |mem| && PlainLen(count) + LEN_ICV <= |mem|
  {
    var d, n := Deciphered(key, mem, count), PlainLen(count);
    if Icv(d[..n]) == FromBytes(d[n..n + LEN_ICV]) then Some(d[..n]) else None
  }

  /** For a frame with room for header and check value that is decapsulation of the frame alone. */
  lemma AcceptedIsDecapsulated(key: Bytes, mem: Bytes, count: nat)
    requires key != [] && LEN_WEP_IV_HDR + LEN_ICV <= count <= |mem| && count < 0x1_0000
    ensures PlainLen(count) + LEN_ICV <= count && Accepted(key, mem, count) == Decapsulated(key, mem[..count])
  {
    PlainLenFitsIff(count);
    hide Arc4.Crypt, Icv, FromBytes, Engine;
    var f, n, d := mem[..count], PlainLen(count), Deciphered(key, mem, count);
    assert f[..3] == mem[..3] && f[LEN_WEP_IV_HDR..] == mem[LEN_WEP_IV_HDR..count];
    var p := Arc4.Crypt(Engine(f[..3], key), f[LEN_WEP_IV_HDR..]);
    assert d[..n] == p[..n] && d[n..n + LEN_ICV] == p[n..];
  }

  /** RTMPSoftDecryptWEP: decipher the body of the frame to the front of the same buffer, over the
      header, and check it. The new length is that of the plaintext when the frame is accepted. buf is
      the memory from the frame on, as far as the routine looks at it. */
  method Decrypt(key: Bytes, buf: array<bv8>, count: nat) returns (ok: bool, count': nat)
    requires |key| <= MAX_KEY && 3 <= buf.Length && count <= buf.Length && count < 0x1_0000
    requires key != [] && LEN_WEP_IV_HDR < count ==> PlainLen(count) + LEN_ICV <= buf.Length
    modifies buf
    ensures ok <==> key != [] && LEN_WEP_IV_HDR < count && Accepted(key, old(buf[..]), count).Some?
    ensures ok ==> count' == PlainLen(count) && Accepted(key, old(buf[..]), count) == Some(buf[..count'])
    ensures count <= LEN_WEP_IV_HDR || LEN_WEP_IV_HDR + LEN_ICV <= count ==>
      && (ok <==> Decapsulated(key, old(buf[..])[..count]).Some?)
      && (ok ==> Decapsulated(key, old(buf[..])[..count]) == Some(buf[..count']))
    ensures !ok ==> count' == count
    ensures key == [] || count <= LEN_WEP_IV_HDR ==> buf[..] == old(buf[..])
  {
    hide Arc4.Crypt, Icv, FromBytes, Engine, Open, Deciphered;
    if key == [] || count <= LEN_WEP_IV_HDR {
      return false, count;
    }
    ghost var mem := buf[..];
    if LEN_WEP_IV_HDR + LEN_ICV <= count {
      AcceptedIsDecapsulated(key, mem, count);
    }
    var ciphertextLen := Minus16(count, LEN_WEP_IV_HDR);
    var plaintextLen := Minus16(ciphertextLen, LEN_ICV);
    assert buf[..3] == mem[..3] && buf[LEN_WEP_IV_HDR..LEN_WEP_IV_HDR + ciphertextLen] == mem[LEN_WEP_IV_HDR..count];
    Cover(buf[..3], key, buf, LEN_WEP_IV_HDR, ciphertextLen);
    ghost var d := Deciphered(key, mem, count);
    DecipheredIs(key, mem, count, buf[..], ciphertextLen);
    assert buf[..plaintextLen] == d[..plaintextLen];
    assert buf[plaintextLen..plaintextLen + LEN_ICV] == d[plaintextLen..plaintextLen + LEN_ICV];
    var trail := GetIcv(buf, plaintextLen);
    var fcs := CalcIcv(buf, plaintextLen);
    if fcs != trail {
      return false, count;
    }
    return true, plaintextLen;
  }

  // ---------- the group key ----------

  const DISCARDED := 256

  // TKIP_GTK_KEY_WRAP: the first 256 bytes of the keystream of the vector and the key are discarded.
  function GtkWrap(iv: Bytes, kek: Bytes, text: Bytes): Bytes
    requires iv + kek != []
  {
    Arc4.Crypt(Arc4.Run(Arc4.Init(iv + kek), DISCARDED), text)
  }

  /** TKIP_GTK_KEY_UNWRAP is the same computation, and undoes the wrapping at every length. */
  lemma GtkUnwrapsWrapped(iv: Bytes, kek: Bytes, text: Bytes)
    requires iv + kek != []
    ensures GtkWrap(iv, kek, GtkWrap(iv, kek, text)) == text
  {
    hide Arc4.Crypt, Arc4.Run, Arc4.Init, Arc4.Ready;
    Arc4.CryptTwice(Arc4.Run(Arc4.Init(iv + kek), DISCARDED), text);
  }

  /** Wrapping is enciphering any 256 bytes and the text with the cipher of vector and key, and dropping the
      256. */
  lemma GtkWrapDrops(iv: Bytes, kek: Bytes, junk: Bytes, text: Bytes)
    requires iv + kek != [] && |junk| == 256
    ensures GtkWrap(iv, kek, text) == Arc4.Crypt(Arc4.Init(iv + kek), junk + text)[256..]
  {
    hide Arc4.Crypt, Arc4.Run, Arc4.Init, Arc4.Ready;
    Arc4.DiscardDrops(Arc4.Init(iv + kek), junk, text);
  }

  method WrapGtk(iv: Bytes, kek: Bytes, input: array<bv8>, len: nat, output: array<bv8>)
    requires |iv| == |kek| == 16 && len <= input.Length && len <= output.Length
    modifies output
    ensures output[..len] == GtkWrap(iv, kek, old(input[..len]))
    ensures output[len..] == old(output[len..])
  {
    hide Arc4.Ready, Arc4.Init, Arc4.Run, Arc4.Crypt;
    var cipher := new Arc4.Cipher(iv + kek);
    cipher.Discard(DISCARDED);
    assert input[0..0 + len] == input[..len];
    cipher.Compute(input, 0, len, output, 0);
    assert output[0..0 + len] == output[..len] && output[0 + len..] == output[len..];
  }
}

/** Fernet framing and block padding, over primitives of which only their inverse laws are known. */
module Vaults {
  import opened Chunks

  newtype Byte = n: int | 0 <= n < 0x100
  type Bytes = seq<Byte>
  type Payload = map<string, string>

  const VERSION: Byte := 0x80
  const STAMP := 8
  const IV := 16
  const MAC := 32
  const BLOCK := 16

  /** Text and binary codecs, the MAC, the block cipher and the digest, as far as the vault knows them. */
  datatype Primitives = Primitives(
    encode: Bytes -> string, decode: string -> Option<Bytes>,
    render: Payload -> Bytes, parse: Bytes -> Option<Payload>,
    mac: (Bytes, Bytes) -> Bytes,
    encipher: (Bytes, Bytes) -> Bytes, decipher: (Bytes, Bytes) -> Bytes,
    xor: (Byte, Byte) -> Byte)

  ghost predicate Lawful(p: Primitives) {
    && (forall x :: p.decode(p.encode(x)) == Some(x))
    && (forall x :: p.parse(p.render(x)) == Some(x))
    && (forall k, x :: |p.mac(k, x)| == MAC)
    && (forall a, b :: p.xor(p.xor(a, b), b) == a)
    && (forall k, x: Bytes :: |x| == BLOCK ==> |p.encipher(k, x)| == BLOCK && |p.decipher(k, x)| == BLOCK)
    && (forall k, x: Bytes :: |x| == BLOCK ==>
        p.decipher(k, p.encipher(k, x)) == x && p.encipher(k, p.decipher(k, x)) == x)
  }

  // ---- padding ----

  function Repeat(b: Byte, n: nat): Bytes {
    seq(n, i => b)
  }

  function PadSize(n: nat, size: nat): nat
    requires 0 < size < 256
  {
    size - n % size
  }

  function Pad(data: Bytes, size: nat): Bytes
    requires 0 < size < 256
  {
    data + Repeat(PadSize(|data|, size) as Byte, PadSize(|data|, size))
  }

  function Unpad(data: Bytes, size: nat): Option<Bytes> {
    if data == [] || size == 0 || |data| % size != 0 then None
    else
      var pad := data[|data| - 1] as int;
      if pad == 0 || pad > size || pad > |data| then None
      else if exists i :: |data| - pad <= i < |data| && data[i] as int != pad then None
      else Some(data[..|data| - pad])
  }

  /** Quotient and remainder are unique. */
  lemma DivisionIs(a: nat, size: nat, q: nat, r: nat)
    requires r < size && a == size * q + r
    ensures a / size == q && a % size == r
  {
    var p, m := a / size, a % size;
    assert a == size * p + m;
    if p < q {
      Grows(size, p, q);
    } else if q < p {
      Grows(size, q, p);
    }
  }

  lemma {:induction false} Grows(size: nat, p: nat, q: nat)
    requires p < q
    ensures size * q >= size * p + size
  {
    assert size * q == size * (q - 1) + size;
    if p < q - 1 {
      Grows(size, p, q - 1);
    }
  }

  lemma MultipleOf(n: nat, size: nat)
    requires size > 0
    ensures (n + (size - n % size)) % size == 0
  {
    assert n == size * (n / size) + n % size;
    assert n + (size - n % size) == size * (n / size + 1);
    DivisionIs(n + (size - n % size), size, n / size + 1, 0);
  }

  lemma PadFacts(data: Bytes, size: nat)
    requires 0 < size < 256
    ensures var out := Pad(data, size);
            && |out| > 0 && |out| % size == 0 && |data| < |out| <= |data| + size
            && out[..|data|] == data
  {
    MultipleOf(|data|, size);
  }

  /** Unpadding undoes padding. */
  lemma PadThenUnpad(data: Bytes, size: nat)
    requires 0 < size < 256
    ensures Unpad(Pad(data, size), size) == Some(data)
  {
    PadFacts(data, size);
  }

  /** Unpadding accepts exactly what padding produces. */
  lemma UnpadAcceptsImage(data: Bytes, size: nat, x: Bytes)
    requires 0 < size < 256
    ensures Unpad(data, size) == Some(x) <==> data == Pad(x, size)
  {
    if data == Pad(x, size) {
      PadThenUnpad(x, size);
    }
    if Unpad(data, size) == Some(x) {
      var pad := data[|data| - 1] as int;
      assert |data| == |x| + pad && 0 < pad <= size && |data| % size == 0;
      PadSizeIs(|x|, size, pad);
      forall i | |x| <= i < |data| ensures data[i] == pad as Byte {
        assert data[i] as int == pad;
      }
      assert data == x + Repeat(pad as Byte, pad);
    }
  }

  /** Only one size of padding fits. */
  lemma PadSizeIs(n: nat, size: nat, pad: nat)
    requires 0 < size < 256 && 0 < pad <= size && (n + pad) % size == 0
    ensures pad == PadSize(n, size)
  {
    MultipleOf(n, size);
    var other := PadSize(n, size);
    if pad < other {
      ModGap(n + pad, other - pad, size);
    } else if other < pad {
      ModGap(n + other, pad - other, size);
    }
  }

  lemma ModGap(a: nat, gap: nat, size: nat)
    requires size > 0 && a % size == 0
    ensures 0 < gap < size ==> (a + gap) % size != 0
  {
    if 0 < gap < size {
      DivisionIs(a + gap, size, a / size, gap);
    }
  }

  method Pkcs7Pad(data: array<Byte>, size: nat) returns (out: array<Byte>)
    requires 0 < size < 256
    ensures fresh(out) && out[..] == Pad(data[..], size)
  {
    var pad := size - data.Length % size;
    out := new Byte[data.Length + pad];
    forall i | 0 <= i < data.Length {
      out[i] := data[i];
    }
    for i := data.Length to out.Length
      invariant out[..data.Length] == data[..]
      invariant forall j :: data.Length <= j < i ==> out[j] == pad as Byte
    {
      out[i] := pad as Byte;
    }
    assert out[..] == data[..] + Repeat(pad as Byte, pad);
  }

  method Pkcs7Unpad(data: array<Byte>, size: nat) returns (plain: Option<Bytes>)
    requires size > 0
    ensures plain == Unpad(data[..], size)
  {
    if data.Length == 0 || data.Length % size != 0 {
      return None;
    }
    var pad := data[data.Length - 1] as int;
    if pad == 0 || pad > size || pad > data.Length {
      return None;
    }
    for i := data.Length - pad to data.Length
      invariant forall j :: data.Length - pad <= j < i ==> data[..][j] as int == pad
    {
      if data[i] as int != pad {
        assert data[..][i] as int != pad;
        return None;
      }
    }
    return Some(data[..data.Length - pad]);
  }

  // ---- cipher block chaining ----

  function Xor(p: Primitives, a: Bytes, b: Bytes): Bytes
    requires |a| == |b|
  {
    seq(|a|, i requires 0 <= i < |a| => p.xor(a[i], b[i]))
  }

  lemma XorTwice(p: Primitives, a: Bytes, b: Bytes)
    requires Lawful(p) && |a| == |b|
    ensures Xor(p, Xor(p, a, b), b) == a
  {
  }

  /** A law of one block, with the rest of `Lawful` out of the way. */
  lemma BlockLaw(p: Primitives, key: Bytes, x: Bytes)
    requires Lawful(p) && |x| == BLOCK
    ensures |p.encipher(key, x)| == BLOCK && |p.decipher(key, x)| == BLOCK
    ensures p.decipher(key, p.encipher(key, x)) == x && p.encipher(key, p.decipher(key, x)) == x
  {
  }

  predicate Whole(data: Bytes) {
    |data| % BLOCK == 0
  }

  lemma WholeParts(data: Bytes)
    requires Whole(data) && data != []
    ensures |data| >= BLOCK && |data[..BLOCK]| == BLOCK && Whole(data[BLOCK..]) && |data[BLOCK..]| < |data|
              && data == data[..BLOCK] + data[BLOCK..]
  {
  }

  ghost function Chained(p: Primitives, key: Bytes, iv: Bytes, data: Bytes): (out: Bytes)
    requires Lawful(p) && |iv| == BLOCK && Whole(data)
    ensures |out| == |data|
    decreases |data|
  {
    if data == [] then []
    else
      WholeParts(data);
      var plain := Xor(p, data[..BLOCK], iv);
      BlockLaw(p, key, plain);
      p.encipher(key, plain) + Chained(p, key, p.encipher(key, plain), data[BLOCK..])
  }

  ghost function Unchained(p: Primitives, key: Bytes, iv: Bytes, data: Bytes): (out: Bytes)
    requires Lawful(p) && |iv| == BLOCK && Whole(data)
    ensures |out| == |data|
    decreases |data|
  {
    if data == [] then []
    else
      WholeParts(data);
      BlockLaw(p, key, data[..BLOCK]);
      Xor(p, p.decipher(key, data[..BLOCK]), iv) + Unchained(p, key, data[..BLOCK], data[BLOCK..])
  }

  lemma {:induction false} ChainThenUnchain(p: Primitives, key: Bytes, iv: Bytes, data: Bytes)
    requires Lawful(p) && |iv| == BLOCK && Whole(data)
    ensures Unchained(p, key, iv, Chained(p, key, iv, data)) == data
    decreases |data|
  {
    if data != [] {
      WholeParts(data);
      hide Lawful, Whole;
      var head, rest := data[..BLOCK], data[BLOCK..];
      var plain := Xor(p, head, iv);
      BlockLaw(p, key, plain);
      XorTwice(p, head, iv);
      var block := p.encipher(key, plain);
      ChainThenUnchain(p, key, block, rest);
      FirstBlock(p, key, iv, data, block, Chained(p, key, block, rest));
    }
  }

  lemma WholeJoin(block: Bytes, rest: Bytes)
    requires |block| == BLOCK && Whole(rest)
    ensures Whole(block + rest) && (block + rest)[..BLOCK] == block && (block + rest)[BLOCK..] == rest
              && block + rest != []
  {
  }

  /** Decrypting a first block and a rest. */
  lemma FirstBlock(p: Primitives, key: Bytes, iv: Bytes, data: Bytes, block: Bytes, rest: Bytes)
    requires Lawful(p) && |iv| == BLOCK && |block| == BLOCK && Whole(rest)
    ensures Whole(block + rest) && |p.decipher(key, block)| == BLOCK
    ensures Unchained(p, key, iv, block + rest) == Xor(p, p.decipher(key, block), iv) + Unchained(p, key, block, rest)
  {
    BlockLaw(p, key, block);
    WholeJoin(block, rest);
    hide Lawful, Xor, Whole;
  }

  lemma FirstPlain(p: Primitives, key: Bytes, iv: Bytes, head: Bytes, rest: Bytes)
    requires Lawful(p) && |iv| == BLOCK && |head| == BLOCK && Whole(rest)
    ensures Whole(head + rest) && |p.encipher(key, Xor(p, head, iv))| == BLOCK
    ensures Chained(p, key, iv, head + rest)
              == p.encipher(key, Xor(p, head, iv)) + Chained(p, key, p.encipher(key, Xor(p, head, iv)), rest)
  {
    BlockLaw(p, key, Xor(p, head, iv));
    WholeJoin(head, rest);
    hide Lawful, Xor, Whole;
  }

  lemma {:induction false} UnchainThenChain(p: Primitives, key: Bytes, iv: Bytes, data: Bytes)
    requires Lawful(p) && |iv| == BLOCK && Whole(data)
    ensures Whole(Unchained(p, key, iv, data)) && Chained(p, key, iv, Unchained(p, key, iv, data)) == data
    decreases |data|
  {
    if data != [] {
      WholeParts(data);
      var head, rest := data[..BLOCK], data[BLOCK..];
      BlockLaw(p, key, head);
      XorTwice(p, p.decipher(key, head), iv);
      UnchainThenChain(p, key, head, rest);
      hide Lawful;
      FirstPlain(p, key, iv, Xor(p, p.decipher(key, head), iv), Unchained(p, key, head, rest));
    }
  }

  method EncryptBlocks(p: Primitives, key: Bytes, iv: Bytes, data: Bytes) returns (out: Bytes)
    requires Lawful(p) && |iv| == BLOCK && Whole(data)
    ensures out == Chained(p, key, iv, data)
  {
    out := [];
    var chain, rest := iv, data;
    while rest != []
      invariant |chain| == BLOCK && Whole(rest) && out + Chained(p, key, chain, rest) == Chained(p, key, iv, data)
      decreases |rest|
    {
      WholeParts(rest);
      BlockLaw(p, key, Xor(p, rest[..BLOCK], chain));
      hide Lawful, Xor, Whole;
      FirstPlain(p, key, chain, rest[..BLOCK], rest[BLOCK..]);
      chain := p.encipher(key, Xor(p, rest[..BLOCK], chain));
      out := out + chain;
      rest := rest[BLOCK..];
    }
  }

  method DecryptBlocks(p: Primitives, key: Bytes, iv: Bytes, data: Bytes) returns (out: Bytes)
    requires Lawful(p) && |iv| == BLOCK && Whole(data)
    ensures out == Unchained(p, key, iv, data)
  {
    out := [];
    var chain, rest := iv, data;
    while rest != []
      invariant |chain| == BLOCK && Whole(rest) && out + Unchained(p, key, chain, rest) == Unchained(p, key, iv, data)
      decreases |rest|
    {
      WholeParts(rest);
      BlockLaw(p, key, rest[..BLOCK]);
      hide Lawful, Xor, Whole;
      FirstBlock(p, key, chain, rest, rest[..BLOCK], rest[BLOCK..]);
      out := out + Xor(p, p.decipher(key, rest[..BLOCK]), chain);
      chain := rest[..BLOCK];
      rest := rest[BLOCK..];
    }
  }

  // ---- the frame ----

  function Unsigned(seconds: int): nat {
    seconds % 0x1_0000_0000_0000_0000
  }

  /** Seconds as eight bytes, the most significant first; negative times wrap around. */
  function Stamp(seconds: int): Bytes {
    var t := Unsigned(seconds);
    seq(STAMP, i requires 0 <= i < STAMP => (t / Power(7 - i) % 0x100) as Byte)
  }

  function Power(n: nat): (r: nat)
    ensures r > 0
  {
    if n == 0 then 1 else 0x100 * Power(n - 1)
  }

  /** The number that bytes spell, the most significant first. */
  function BigEndian(bytes: Bytes): nat {
    if bytes == [] then 0 else BigEndian(bytes[..|bytes| - 1]) * 0x100 + bytes[|bytes| - 1] as nat
  }

  /** The stamp reads back as the time, modulo sixty-four bits: exactly, for every time since 1970. */
  lemma StampReads(seconds: int)
    ensures |Stamp(seconds)| == STAMP && BigEndian(Stamp(seconds)) == Unsigned(seconds)
    ensures 0 <= seconds < 0x1_0000_0000_0000_0000 ==> BigEndian(Stamp(seconds)) == seconds
  {
    StampSize(seconds);
    SmallTimes(seconds);
    hide Stamp, Power, Unsigned, BigEndian;
    StampPrefix(seconds, STAMP);
    PowerZero();
    WholeStamp(Unsigned(seconds), Power(STAMP - STAMP));
    assert Stamp(seconds)[..STAMP] == Stamp(seconds);
  }

  lemma SmallTimes(seconds: int)
    ensures 0 <= seconds < 0x1_0000_0000_0000_0000 ==> Unsigned(seconds) == seconds
  {
  }

  lemma PowerZero()
    ensures Power(0) == 1
  {
  }

  lemma WholeStamp(t: nat, p: nat)
    requires p == 1
    ensures t / p == t
  {
  }

  lemma {:induction false} StampPrefix(seconds: int, n: nat)
    requires n <= STAMP
    ensures |Stamp(seconds)| == STAMP
    ensures BigEndian(Stamp(seconds)[..n]) == Unsigned(seconds) / Power(STAMP - n)
  {
    hide *;
    StampSize(seconds);
    if n > 0 {
      StampPrefix(seconds, n - 1);
      StampByte(seconds, n - 1);
      PowerStep(STAMP - n);
      OneMoreByte(Stamp(seconds), n);
      DivideTwice(Unsigned(seconds), Power(STAMP - n));
    } else {
      NoBytes(seconds);
    }
  }

  lemma StampSize(seconds: int)
    ensures |Stamp(seconds)| == STAMP
  {
  }

  lemma StampByte(seconds: int, i: nat)
    requires i < STAMP
    ensures |Stamp(seconds)| == STAMP
    ensures Stamp(seconds)[i] as nat == Unsigned(seconds) / Power(STAMP - (i + 1)) % 0x100
  {
  }

  lemma PowerStep(n: nat)
    ensures Power(n + 1) == 0x100 * Power(n)
  {
  }

  lemma NoBytes(seconds: int)
    ensures |Stamp(seconds)| == STAMP && BigEndian(Stamp(seconds)[..0]) == Unsigned(seconds) / Power(STAMP)
  {
    PowerIs();
    var t := Unsigned(seconds);
    assert t < 0x1_0000_0000_0000_0000;
    hide Stamp, Power, Unsigned;
    Quotient(t, 0x1_0000_0000_0000_0000, 0, t);
  }

  lemma OneMoreByte(bytes: Bytes, n: nat)
    requires 0 < n <= |bytes|
    ensures BigEndian(bytes[..n]) == BigEndian(bytes[..n - 1]) * 0x100 + bytes[n - 1] as nat
  {
    assert bytes[..n][..n - 1] == bytes[..n - 1];
  }

  lemma PowerIs()
    ensures Power(8) == 0x1_0000_0000_0000_0000
  {
    assert Power(0) == 1 && Power(1) == 0x100 && Power(2) == 0x1_0000 && Power(4) == 0x1_0000_0000;
  }

  lemma DivideTwice(t: nat, p: nat)
    requires p > 0
    ensures t / (0x100 * p) * 0x100 + t / p % 0x100 == t / p
  {
    var q, r := t / p, t % p;
    var a, b := q / 0x100, q % 0x100;
    assert t == q * p + r && q == a * 0x100 + b;
    Regrouped(a, b, p);
    AtMost(b, p);
    Quotient(t, 0x100 * p, a, b * p + r);
  }

  lemma Regrouped(a: nat, b: nat, p: nat)
    ensures (a * 0x100 + b) * p == a * (0x100 * p) + b * p
  {
  }

  lemma AtMost(b: nat, p: nat)
    requires b < 0x100
    ensures b * p + p <= 0x100 * p
  {
    assert (b + 1) * p <= 0x100 * p;
  }

  lemma Quotient(t: nat, d: nat, q: nat, r: nat)
    requires d > 0 && t == q * d + r && r < d
    ensures t / d == q
  {
    assert t == t / d * d + t % d;
    Multiples(t / d, q, d);
  }

  lemma Multiples(k: nat, q: nat, d: nat)
    ensures k > q ==> k * d >= q * d + d
    ensures k < q ==> k * d + d <= q * d
  {
    if k > q {
      Scaled(q + 1, k, d);
    } else if k < q {
      Scaled(k + 1, q, d);
    }
  }

  lemma {:induction false} Scaled(a: nat, b: nat, d: nat)
    requires a <= b
    ensures a * d <= b * d
  {
    if a < b {
      Scaled(a, b - 1, d);
    }
  }

  datatype Keys = Keys(signing: Bytes, cipher: Bytes)

  ghost function Body(p: Primitives, keys: Keys, stamp: Bytes, iv: Bytes, plain: Bytes): Bytes
    requires Lawful(p) && |stamp| == STAMP && |iv| == IV
  {
    PadFacts(plain, BLOCK);
    [VERSION] + stamp + iv + Chained(p, keys.cipher, iv, Pad(plain, BLOCK))
  }

  ghost function Frame(p: Primitives, keys: Keys, stamp: Bytes, iv: Bytes, plain: Bytes): Bytes
    requires Lawful(p) && |stamp| == STAMP && |iv| == IV
  {
    Body(p, keys, stamp, iv, plain) + p.mac(keys.signing, Body(p, keys, stamp, iv, plain))
  }

  datatype Reason = BadEncoding | TooShort | BadVersion | BadSignature | BadBlocks | BadPadding | NotAnObject

  datatype Opening = Ok(payload: Payload) | Invalid(why: Reason)

  const SHORTEST := 1 + STAMP + IV + MAC + BLOCK

  ghost function OpenPlain(p: Primitives, plain: Option<Bytes>): Opening {
    if plain.None? then Invalid(BadPadding)
    else
      var payload := p.parse(plain.value);
      if payload.None? then Invalid(NotAnObject) else Ok(payload.value)
  }

  ghost function OpenBody(p: Primitives, keys: Keys, body: Bytes): Opening
    requires Lawful(p) && |body| >= 1 + STAMP + IV
  {
    var iv, cipher := body[1 + STAMP..1 + STAMP + IV], body[1 + STAMP + IV..];
    if !Whole(cipher) || cipher == [] then Invalid(BadBlocks)
    else OpenPlain(p, Unpad(Unchained(p, keys.cipher, iv, cipher), BLOCK))
  }

  ghost function Open(p: Primitives, keys: Keys, token: Bytes): Opening
    requires Lawful(p)
  {
    if |token| < SHORTEST then Invalid(TooShort)
    else if token[0] != VERSION then Invalid(BadVersion)
    else if p.mac(keys.signing, token[..|token| - MAC]) != token[|token| - MAC..] then Invalid(BadSignature)
    else OpenBody(p, keys, token[..|token| - MAC])
  }

  ghost function OpenText(p: Primitives, keys: Keys, blob: string): Opening
    requires Lawful(p)
  {
    var token := p.decode(blob);
    if token.None? then Invalid(BadEncoding) else Open(p, keys, token.value)
  }

  lemma MacSize(p: Primitives, key: Bytes, x: Bytes)
    requires Lawful(p)
    ensures |p.mac(key, x)| == MAC
  {
  }

  lemma BodyParts(p: Primitives, keys: Keys, stamp: Bytes, iv: Bytes, plain: Bytes)
    requires Lawful(p) && |stamp| == STAMP && |iv| == IV
    ensures var body, padded := Body(p, keys, stamp, iv, plain), Pad(plain, BLOCK);
            && Whole(padded) && padded != [] && |body| == 1 + STAMP + IV + |padded| && body[0] == VERSION
            && body[1 + STAMP..1 + STAMP + IV] == iv && body[1 + STAMP + IV..] == Chained(p, keys.cipher, iv, padded)
  {
    PadFacts(plain, BLOCK);
    hide Lawful, Pad, Chained;
  }

  /** A frame opens to what its plaintext parses to. */
  lemma FrameOpens(p: Primitives, keys: Keys, stamp: Bytes, iv: Bytes, plain: Bytes)
    requires Lawful(p) && |stamp| == STAMP && |iv| == IV
    ensures Open(p, keys, Frame(p, keys, stamp, iv, plain)) == OpenPlain(p, Some(plain))
  {
    var body := Body(p, keys, stamp, iv, plain);
    BodyParts(p, keys, stamp, iv, plain);
    MacSize(p, keys.signing, body);
    PadFacts(plain, BLOCK);
    PadThenUnpad(plain, BLOCK);
    ChainThenUnchain(p, keys.cipher, iv, Pad(plain, BLOCK));
    hide Lawful, Pad, Unpad, Chained, Unchained, Body;
    var token := Frame(p, keys, stamp, iv, plain);
    assert token[..|token| - MAC] == body && token[|token| - MAC..] == p.mac(keys.signing, body);
    assert token[0] == body[0];
  }

  /** Decrypting what was encrypted gives the payload back, whatever the time and the random vector. */
  lemma RoundTrip(p: Primitives, keys: Keys, stamp: Bytes, iv: Bytes, payload: Payload)
    requires Lawful(p) && |stamp| == STAMP && |iv| == IV
    ensures OpenText(p, keys, p.encode(Frame(p, keys, stamp, iv, p.render(payload)))) == Ok(payload)
  {
    FrameOpens(p, keys, stamp, iv, p.render(payload));
    hide Frame, Open;
  }

  /** A token opens exactly when it is the frame of some plaintext that parses: nothing else is accepted. */
  lemma OpensIffFrame(p: Primitives, keys: Keys, token: Bytes, payload: Payload)
    requires Lawful(p)
    ensures Open(p, keys, token) == Ok(payload) <==>
              exists stamp, iv, plain :: FramesAs(p, keys, token, stamp, iv, plain, payload)
  {
    if Open(p, keys, token) == Ok(payload) {
      var plain := FrameOf(p, keys, token, payload);
      assert FramesAs(p, keys, token, token[1..1 + STAMP], token[1 + STAMP..1 + STAMP + IV], plain, payload);
    }
    hide Open, Frame;
    if exists stamp, iv, plain :: FramesAs(p, keys, token, stamp, iv, plain, payload) {
      var stamp, iv, plain :| FramesAs(p, keys, token, stamp, iv, plain, payload);
      FrameOpens(p, keys, stamp, iv, plain);
    }
  }

  ghost predicate FramesAs(p: Primitives, keys: Keys, token: Bytes, stamp: Bytes, iv: Bytes, plain: Bytes,
                           payload: Payload)
    requires Lawful(p)
  {
    |stamp| == STAMP && |iv| == IV && token == Frame(p, keys, stamp, iv, plain) && p.parse(plain) == Some(payload)
  }

  lemma FrameOf(p: Primitives, keys: Keys, token: Bytes, payload: Payload) returns (plain: Bytes)
    requires Lawful(p) && Open(p, keys, token) == Ok(payload)
    ensures |token| >= SHORTEST && p.parse(plain) == Some(payload)
    ensures token == Frame(p, keys, token[1..1 + STAMP], token[1 + STAMP..1 + STAMP + IV], plain)
  {
    var body, stamp, iv := token[..|token| - MAC], token[1..1 + STAMP], token[1 + STAMP..1 + STAMP + IV];
    var cipher := body[1 + STAMP + IV..];
    SplitToken(token);
    var padded := Unchained(p, keys.cipher, iv, cipher);
    plain := Unpad(padded, BLOCK).value;
    UnpadAcceptsImage(padded, BLOCK, plain);
    UnchainThenChain(p, keys.cipher, iv, cipher);
    hide Lawful, Pad, Unpad, Chained, Unchained;
    assert body == Body(p, keys, stamp, iv, plain);
  }

  lemma SplitToken(token: Bytes)
    requires |token| >= SHORTEST
    ensures var body := token[..|token| - MAC];
            && token == body + token[|token| - MAC..] && body[0] == token[0]
            && body[1 + STAMP..1 + STAMP + IV] == token[1 + STAMP..1 + STAMP + IV]
            && body == [token[0]] + token[1..1 + STAMP] + token[1 + STAMP..1 + STAMP + IV] + body[1 + STAMP + IV..]
  {
  }

  // ---- the vault object ----

  class Vault {
    const p: Primitives
    const keys: Keys

    constructor (p: Primitives, raw: Bytes)
      requires |raw| == 32
      ensures this.p == p && keys == Keys(raw[..16], raw[16..])
    {
      this.p := p;
      this.keys := Keys(raw[..16], raw[16..]);
    }

    method Encrypt(payload: Payload, now: int, iv: Bytes) returns (blob: string)
      requires Lawful(p) && |iv| == IV
      ensures blob == p.encode(Frame(p, keys, Stamp(now), iv, p.render(payload)))
      ensures OpenText(p, keys, blob) == Ok(payload)
    {
      var raw := p.render(payload);
      RoundTrip(p, keys, Stamp(now), iv, payload);
      PadFacts(raw, BLOCK);
      var data := new Byte[|raw|](i requires 0 <= i < |raw| => raw[i]);
      assert data[..] == raw;
      var padded := Pkcs7Pad(data, BLOCK);
      hide Lawful, Pad, Chained, OpenText, Stamp;
      var cipher := EncryptBlocks(p, keys.cipher, iv, padded[..]);
      var body := new Byte[1 + STAMP + IV + padded.Length];
      var stamp := Stamp(now);
      FillBody(body, stamp, iv, cipher);
      blob := p.encode(body[..] + p.mac(keys.signing, body[..]));
    }

    method Decrypt(blob: string) returns (outcome: Opening)
      requires Lawful(p)
      ensures outcome == OpenText(p, keys, blob)
    {
      hide Lawful, Unpad, Unchained;
      var token := p.decode(blob);
      if token.None? {
        return Invalid(BadEncoding);
      }
      if |token.value| < SHORTEST {
        return Invalid(TooShort);
      }
      if token.value[0] != VERSION {
        return Invalid(BadVersion);
      }
      var body, signature := token.value[..|token.value| - MAC], token.value[|token.value| - MAC..];
      if p.mac(keys.signing, body) != signature {
        return Invalid(BadSignature);
      }
      var iv, cipher := body[1 + STAMP..1 + STAMP + IV], body[1 + STAMP + IV..];
      if |cipher| % BLOCK != 0 || |cipher| == 0 {
        return Invalid(BadBlocks);
      }
      var out := DecryptBlocks(p, keys.cipher, iv, cipher);
      var data := new Byte[|out|](i requires 0 <= i < |out| => out[i]);
      assert data[..] == out;
      var plain := Pkcs7Unpad(data, BLOCK);
      if plain.None? {
        return Invalid(BadPadding);
      }
      var payload := p.parse(plain.value);
      if payload.None? {
        return Invalid(NotAnObject);
      }
      return Ok(payload.value);
    }
  }

  /** The token's parts in their places. */
  method FillBody(body: array<Byte>, stamp: Bytes, iv: Bytes, cipher: Bytes)
    requires |stamp| == STAMP && |iv| == IV && body.Length == 1 + STAMP + IV + |cipher|
    modifies body
    ensures body[..] == [VERSION] + stamp + iv + cipher
  {
    body[0] := VERSION;
    forall i | 0 <= i < STAMP {
      body[1 + i] := stamp[i];
    }
    forall i | 0 <= i < IV {
      body[1 + STAMP + i] := iv[i];
    }
    forall i | 0 <= i < |cipher| {
      body[1 + STAMP + IV + i] := cipher[i];
    }
  }

  /** A key must decode to thirty-two bytes; the first half signs and the second half encrypts. */
  method OpenVault(p: Primitives, key: string) returns (vault: Vault?)
    ensures vault != null <==> p.decode(key).Some? && |p.decode(key).value| == 32
    ensures vault != null ==>
              vault.p == p && vault.keys.signing + vault.keys.cipher == p.decode(key).value
    ensures vault != null ==> |vault.keys.signing| == 16
  {
    var raw := p.decode(key);
    if raw.None? || |raw.value| != 32 {
      return null;
    }
    vault := new Vault(p, raw.value);
  }
}

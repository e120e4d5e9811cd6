/**
 PKCS#7 padding and the AES envelope of pkg/crypto/aes.go. Block cipher chaining and base64 are foreign
 code: they are parameters with the laws their standards give them, section 6.2 of NIST SP 800-38A and
 section 4 of RFC 4648.
 */
module AesEnvelope {
  import opened Common

  newtype byte = n: int | 0 <= n < 256

  type bytes = seq<byte>

  // ---------------------------------------------------------------- padding

  function PaddingLength(length: nat, blockSize: nat): (p: nat)
    requires blockSize > 0
    ensures 1 <= p <= blockSize && (length + p) % blockSize == 0
  {
    PaddingCompletesBlock(length, blockSize);
    blockSize - length % blockSize
  }

  lemma {:induction false} PaddingCompletesBlock(length: nat, blockSize: nat)
    requires blockSize > 0
    ensures (length + (blockSize - length % blockSize)) % blockSize == 0
  {
    var q := length / blockSize;
    assert length == q * blockSize + length % blockSize;
    assert length + (blockSize - length % blockSize) == (q + 1) * blockSize;
    MultipleHasNoRest(q + 1, blockSize);
  }

  lemma {:induction false} MultipleHasNoRest(q: nat, n: nat)
    requires n > 0
    ensures (q * n) % n == 0
  {
    var d, rest := (q * n) / n, (q * n) % n;
    assert q * n == d * n + rest;
    assert (q - d) * n == rest;
    SmallMultipleIsZero(q - d, n);
  }

  lemma {:induction false} SmallMultipleIsZero(k: int, n: nat)
    requires 0 <= k * n < n
    ensures k == 0
  {
    assert k >= 1 ==> k * n >= n;
    assert k <= -1 ==> k * n + n <= 0;
  }

  /** The pad byte is the padding length, cut to eight bits. */
  function Pad(data: bytes, blockSize: nat): bytes
    requires blockSize > 0
  {
    var p := PaddingLength(|data|, blockSize);
    data + seq(p, i => (p % 256) as byte)
  }

  /** `None` where the source indexes or slices out of range. */
  function Unpad(data: bytes): Option<bytes> {
    if data == [] then None
    else
      var p := data[|data| - 1] as int;
      if p > |data| then None else Some(data[..|data| - p])
  }

  /** Padding gives a non-empty multiple of the block size that extends the data by at most one block. */
  lemma {:induction false} PadFillsBlocks(data: bytes, blockSize: nat)
    requires blockSize > 0
    ensures var padded := Pad(data, blockSize);
      && |padded| % blockSize == 0 && |data| < |padded| <= |data| + blockSize
      && data <= padded
      && forall i :: |data| <= i < |padded| ==> padded[i] as int == (|padded| - |data|) % 256
  {
  }

  /** Unpadding restores the data exactly when the padding length fits a byte, as for all block sizes up to 255. */
  lemma {:induction false} UnpadOfPadIff(data: bytes, blockSize: nat)
    requires blockSize > 0
    ensures Unpad(Pad(data, blockSize)) == Some(data) <==> PaddingLength(|data|, blockSize) <= 255
    ensures blockSize <= 255 ==> Unpad(Pad(data, blockSize)) == Some(data)
  {
    var p := PaddingLength(|data|, blockSize);
    var padded := Pad(data, blockSize);
    assert padded[|padded| - 1] == (p % 256) as byte;
    assert padded[..|padded| - p] == data;
    if p > 255 {
      assert |padded| - p % 256 > |data|;
    }
  }

  // ---------------------------------------------------------------- the envelope

  const KEY_SIZE := 32
  const BLOCK_SIZE := 16

  datatype Library = Library(
    cbcEncrypt: (bytes, bytes, bytes) -> bytes,
    cbcDecrypt: (bytes, bytes, bytes) -> bytes,
    encode: bytes -> string,
    decode: string -> Option<bytes>)

  /** Chaining keeps the length of whole blocks and is inverted under the same key and vector; so is base64. */
  ghost predicate Lawful(lib: Library) {
    && (forall key, iv, data :: |key| == KEY_SIZE && |iv| == BLOCK_SIZE && |data| % BLOCK_SIZE == 0 ==>
          && |lib.cbcEncrypt(key, iv, data)| == |data|
          && lib.cbcDecrypt(key, iv, lib.cbcEncrypt(key, iv, data)) == data)
    && (forall key, iv, data :: |lib.cbcDecrypt(key, iv, data)| == |data|)
    && (forall data :: lib.decode(lib.encode(data)) == Some(data))
  }

  datatype Failure = WrongKeySize | NoRandomness | NotBase64 | TooShort | NotWholeBlocks | Panic

  /** `iv` is the vector drawn, `None` when the random source fails. */
  function Encrypt(lib: Library, key: bytes, iv: Option<bytes>, content: bytes): Result<string, Failure> {
    if |key| != KEY_SIZE then Err(WrongKeySize)
    else if iv.None? then Err(NoRandomness)
    else Ok(lib.encode(iv.value + lib.cbcEncrypt(key, iv.value, Pad(content, BLOCK_SIZE))))
  }

  function Decrypt(lib: Library, key: bytes, content: string): Result<bytes, Failure> {
    var decoded := lib.decode(content);
    if decoded.None? then Err(NotBase64)
    else if |key| != KEY_SIZE then Err(WrongKeySize)
    else if |decoded.value| < BLOCK_SIZE then Err(TooShort)
    else Opened(lib, key, decoded.value[..BLOCK_SIZE], decoded.value[BLOCK_SIZE..])
  }

  function Opened(lib: Library, key: bytes, iv: bytes, body: bytes): Result<bytes, Failure> {
    if |body| % BLOCK_SIZE != 0 then Err(NotWholeBlocks)
    else
      var plain := Unpad(lib.cbcDecrypt(key, iv, body));
      if plain.None? then Err(Panic) else Ok(plain.value)
  }

  /** `CryptBlocks` of a block mode `f`, in place on a buffer. */
  method CryptBlocks(f: bytes -> bytes, buffer: array<byte>)
    requires |f(buffer[..])| == buffer.Length
    modifies buffer
    ensures buffer[..] == f(old(buffer[..]))
  {
    var out := f(buffer[..]);
    for i := 0 to buffer.Length
      invariant buffer[..i] == out[..i]
    {
      buffer[i] := out[i];
    }
    assert out[..buffer.Length] == out;
  }

  method CopyOf(data: bytes) returns (buffer: array<byte>)
    ensures fresh(buffer) && buffer[..] == data
  {
    buffer := new byte[|data|](i requires 0 <= i < |data| => data[i]);
  }

  method AESEncrypt(lib: Library, key: bytes, drawn: Option<bytes>, content: bytes) returns (r: Result<string, Failure>)
    requires Lawful(lib) && (drawn.Some? ==> |drawn.value| == BLOCK_SIZE)
    ensures r == Encrypt(lib, key, drawn, content)
  {
    if |key| != KEY_SIZE {
      return Err(WrongKeySize);
    }
    if drawn.None? {
      return Err(NoRandomness);
    }
    PadFillsBlocks(content, BLOCK_SIZE);
    var encryptedData := CopyOf(Pad(content, BLOCK_SIZE));
    CryptBlocks(data => lib.cbcEncrypt(key, drawn.value, data), encryptedData);
    return Ok(lib.encode(drawn.value + encryptedData[..]));
  }

  method AESDecrypt(lib: Library, key: bytes, content: string) returns (r: Result<bytes, Failure>)
    requires Lawful(lib)
    ensures r == Decrypt(lib, key, content)
  {
    var decoded := lib.decode(content);
    if decoded.None? {
      return Err(NotBase64);
    }
    if |key| != KEY_SIZE {
      return Err(WrongKeySize);
    }
    if |decoded.value| < BLOCK_SIZE {
      return Err(TooShort);
    }
    var iv := decoded.value[..BLOCK_SIZE];
    var encryptedData := CopyOf(decoded.value[BLOCK_SIZE..]);
    if encryptedData.Length % BLOCK_SIZE != 0 {
      return Err(NotWholeBlocks);
    }
    CryptBlocks(data => lib.cbcDecrypt(key, iv, data), encryptedData);
    var plain := Unpad(encryptedData[..]);
    if plain.None? {
      return Err(Panic);
    }
    return Ok(plain.value);
  }

  /** Decryption inverts encryption for every 32-byte key, every vector and every content. */
  lemma {:induction false} DecryptOfEncrypt(lib: Library, key: bytes, iv: bytes, content: bytes)
    requires Lawful(lib) && |key| == 32 && |iv| == 16
    ensures Encrypt(lib, key, Some(iv), content).Ok?
    ensures Decrypt(lib, key, Encrypt(lib, key, Some(iv), content).value) == Ok(content)
  {
    PadFillsBlocks(content, BLOCK_SIZE);
    UnpadOfPadIff(content, BLOCK_SIZE);
    var body := lib.cbcEncrypt(key, iv, Pad(content, BLOCK_SIZE));
    assert (iv + body)[..BLOCK_SIZE] == iv && (iv + body)[BLOCK_SIZE..] == body;
    assert lib.decode(lib.encode(iv + body)) == Some(iv + body);
    assert lib.cbcDecrypt(key, iv, body) == Pad(content, BLOCK_SIZE);
  }

  /** Both refuse every other key size, decryption after looking at the encoding. */
  lemma {:induction false} KeysAre32Bytes(lib: Library, key: bytes, iv: Option<bytes>, plain: bytes, content: string)
    ensures Encrypt(lib, key, iv, plain) == Err(WrongKeySize) <==> |key| != 32
    ensures Decrypt(lib, key, content) == Err(WrongKeySize) <==> |key| != 32 && lib.decode(content).Some?
    ensures Encrypt(lib, key, None, plain).Err?
  {
  }

  /** What is encoded begins with the vector, and the padded content follows, chained from it. */
  lemma {:induction false} EnvelopeBeginsWithVector(lib: Library, key: bytes, iv: bytes, content: bytes)
    requires Lawful(lib) && |key| == 32 && |iv| == 16
    ensures var raw := lib.decode(Encrypt(lib, key, Some(iv), content).value);
      && raw.Some? && iv <= raw.value && |raw.value| % 16 == 0
      && lib.cbcDecrypt(key, iv, raw.value[16..]) == Pad(content, 16)
  {
    PadFillsBlocks(content, 16);
    var body := lib.cbcEncrypt(key, iv, Pad(content, 16));
    ChainingInverts(lib, key, iv, Pad(content, 16));
    OneMoreBlock(iv, body);
    assert lib.decode(lib.encode(iv + body)) == Some(iv + body);
  }

  lemma {:induction false} ChainingInverts(lib: Library, key: bytes, iv: bytes, data: bytes)
    requires Lawful(lib) && |key| == 32 && |iv| == 16 && |data| % 16 == 0
    ensures |lib.cbcEncrypt(key, iv, data)| == |data|
    ensures lib.cbcDecrypt(key, iv, lib.cbcEncrypt(key, iv, data)) == data
  {
  }

  lemma {:induction false} OneMoreBlock(iv: bytes, body: bytes)
    requires |iv| == 16 && |body| % 16 == 0
    ensures |iv + body| % 16 == 0 && iv <= iv + body && (iv + body)[16..] == body
  {
  }

  /**
   Decryption fails without an error value on exactly the inputs that pass all its checks and yet have no
   block after the vector, or a last plain byte larger than the plain text.
   */
  lemma {:induction false} DecryptPanicsIff(lib: Library, key: bytes, content: string)
    requires Lawful(lib)
    ensures Decrypt(lib, key, content) == Err(Panic) <==>
      && lib.decode(content).Some? && |key| == KEY_SIZE
      && var raw := lib.decode(content).value;
         && |raw| >= BLOCK_SIZE && |raw| % BLOCK_SIZE == 0
         && (|raw| == BLOCK_SIZE ||
             var plain := lib.cbcDecrypt(key, raw[..BLOCK_SIZE], raw[BLOCK_SIZE..]);
             plain != [] && plain[|plain| - 1] as int > |plain|)
  {
    if lib.decode(content).Some? && |lib.decode(content).value| >= BLOCK_SIZE {
      var raw := lib.decode(content).value;
      OpeningPanicsIff(lib, key, raw[..BLOCK_SIZE], raw[BLOCK_SIZE..]);
      assert |raw| == |raw[BLOCK_SIZE..]| + BLOCK_SIZE;
    }
  }

  /** For instance on the encoding of a bare vector, under every 32-byte key. */
  lemma {:induction false} BareVectorPanics(lib: Library, key: bytes, iv: bytes)
    requires Lawful(lib) && |key| == KEY_SIZE && |iv| == BLOCK_SIZE
    ensures Decrypt(lib, key, lib.encode(iv)) == Err(Panic)
  {
    assert lib.decode(lib.encode(iv)) == Some(iv);
    DecryptPanicsIff(lib, key, lib.encode(iv));
  }

  lemma {:induction false} OpeningPanicsIff(lib: Library, key: bytes, iv: bytes, body: bytes)
    requires Lawful(lib)
    ensures var plain := lib.cbcDecrypt(key, iv, body);
      Opened(lib, key, iv, body) == Err(Panic) <==>
        (|body| + BLOCK_SIZE) % BLOCK_SIZE == 0 && (body == [] || (plain != [] && plain[|plain| - 1] as int > |plain|))
  {
    assert |lib.cbcDecrypt(key, iv, body)| == |body|;
  }
}

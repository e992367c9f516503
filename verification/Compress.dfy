/** The sparse-bitset codec of common/bitutil/compress.go. An encoding is the encoding of a
    header (one bit a byte of the input, set when that byte is not zero) followed by the
    non-zero bytes. The header is encoded by the same scheme. */
module Compress {
  import opened Common
  import opened Bits

  datatype Error = MissingData | UnreferencedData | ExceededTarget | ZeroContent

  /** The bytes a decoder produced and how many input bytes it read. */
  datatype Partial = Got(out: Bytes, size: nat) | Failed(error: Error)

  // ---------------------------------------------------------------- encoding

  /** The non-zero bytes of `data` from position `i` on. */
  function NonZeroFrom(data: Bytes, i: nat): (r: Bytes)
    decreases |data| - i
  {
    if i >= |data| then []
    else if data[i] == 0 then NonZeroFrom(data, i + 1)
    else [data[i]] + NonZeroFrom(data, i + 1)
  }

  function NonZeroBytes(data: Bytes): (r: Bytes)
  {
    NonZeroFrom(data, 0)
  }

  /** Byte `j` of the header with its first `n` bits filled in. */
  function HeaderByte(data: Bytes, j: nat, n: nat): (b: bv8)
    requires n <= 8
  {
    if n == 0 then 0
    else
      var i, b := 8 * j + n - 1, HeaderByte(data, j, n - 1);
      if i < |data| && data[i] != 0 then b | Mask(n - 1) else b
  }

  function NonZeroBitset(data: Bytes): (v: Bytes)
    ensures |v| == (|data| + 7) / 8
  {
    seq((|data| + 7) / 8, j requires j >= 0 => HeaderByte(data, j, 8))
  }

  function Encode(data: Bytes): (out: Bytes)
    decreases |data|
  {
    if |data| == 0 then []
    else if |data| == 1 then (if data[0] == 0 then [] else data)
    else if NonZeroBytes(data) == [] then []
    else Encode(NonZeroBitset(data)) + NonZeroBytes(data)
  }

  function CompressBytes(data: Bytes): (out: Bytes)
  {
    var out := Encode(data);
    if |out| < |data| then out else data
  }

  // ---------------------------------------------------------------- decoding

  /** The distribution loop of the decoder from bit `i` of the header on, with read position `ptr`. */
  function Distribute(header: Bytes, data: Bytes, decomp: Bytes, i: nat, ptr: nat): (r: Partial)
    requires i <= 8 * |header|
    decreases 8 * |header| - i
  {
    if i == 8 * |header| then Got(decomp, ptr)
    else if !BitAt(header, i) then Distribute(header, data, decomp, i + 1, ptr)
    else if ptr >= |data| then Failed(MissingData)
    else if i >= |decomp| then Failed(ExceededTarget)
    else if data[ptr] == 0 then Failed(ZeroContent)
    else Distribute(header, data, decomp[i := data[ptr]], i + 1, ptr + 1)
  }

  function DecodePartial(data: Bytes, target: nat): (r: Partial)
    decreases target
  {
    if target == 0 then Got([], 0)
    else if |data| == 0 then Got(Zeros(target), 0)
    else if target == 1 then Got([data[0]], if data[0] != 0 then 1 else 0)
    else
      match DecodePartial(data, (target + 7) / 8)
      case Failed(e) => Failed(e)
      case Got(h, ptr) => Distribute(h, data, Zeros(target), 0, ptr)
  }

  function Decode(data: Bytes, target: nat): (r: Result<Bytes, Error>)
  {
    match DecodePartial(data, target)
    case Failed(e) => Err(e)
    case Got(out, size) => if size != |data| then Err(UnreferencedData) else Ok(out)
  }

  function DecompressBytes(data: Bytes, target: nat): (r: Result<Bytes, Error>)
  {
    if |data| > target then Err(ExceededTarget)
    else if |data| == target then Ok(data)
    else Decode(data, target)
  }

  // ---------------------------------------------------------------- the header

  lemma {:induction false} HeaderByteBit(data: Bytes, j: nat, n: nat, k: nat)
    requires n <= 8 && k < 8
    ensures Bit(HeaderByte(data, j, n), k) <==> k < n && 8 * j + k < |data| && data[8 * j + k] != 0
  {
    if n == 0 {
      ZeroHasNoBit(k);
    } else {
      HeaderByteBit(data, j, n - 1, k);
      SetBit(HeaderByte(data, j, n - 1), n - 1, k);
    }
  }

  /** `v` is a header of the first `n` input bytes: exactly the bits of the non-zero ones are set. */
  ghost predicate IsHeader(data: Bytes, v: Bytes, n: nat)
    requires n <= |data|
  {
    && |v| == (|data| + 7) / 8
    && forall j: nat :: j < 8 * |v| ==> (BitAt(v, j) <==> j < n && data[j] != 0)
  }

  lemma BitsetIsHeader(data: Bytes)
    ensures IsHeader(data, NonZeroBitset(data), |data|)
  {
    var v := NonZeroBitset(data);
    forall i: nat | i < 8 * |v|
      ensures BitAt(v, i) <==> i < |data| && data[i] != 0
    {
      HeaderByteBit(data, i / 8, 8, i % 8);
      assert v[i / 8] == HeaderByte(data, i / 8, 8);
    }
  }

  lemma HeaderIsBitset(data: Bytes, v: Bytes)
    requires IsHeader(data, v, |data|)
    ensures v == NonZeroBitset(data)
  {
    BitsetIsHeader(data);
    VectorBits(v, NonZeroBitset(data));
  }

  lemma {:induction false} NoNonZeroFrom(data: Bytes, i: nat)
    ensures NonZeroFrom(data, i) == [] <==> forall j :: i <= j < |data| ==> data[j] == 0
    decreases |data| - i
  {
    if i < |data| {
      NoNonZeroFrom(data, i + 1);
    }
  }

  lemma NoNonZeroBytes(data: Bytes)
    ensures NonZeroBytes(data) == [] <==> AllZero(data)
  {
    NoNonZeroFrom(data, 0);
  }

  /** The header of an input that is not all zero is not all zero: this is what makes an
      encoded header self-delimiting. */
  lemma HeaderNotZero(data: Bytes)
    ensures AllZero(NonZeroBitset(data)) <==> AllZero(data)
  {
    var v := NonZeroBitset(data);
    BitsetIsHeader(data);
    if AllZero(v) {
      forall i | 0 <= i < |data| ensures data[i] == 0 {
        ZeroVectorHasNoBit(v, i);
      }
    }
    if AllZero(data) {
      forall i: nat | i < 8 * |v| ensures BitAt(v, i) <==> BitAt(Zeros(|v|), i) {
        ZeroVectorHasNoBit(Zeros(|v|), i);
      }
      VectorBits(v, Zeros(|v|));
    }
  }

  lemma {:induction false} EncodeEmptyIffZero(data: Bytes)
    ensures Encode(data) == [] <==> AllZero(data)
  {
    if |data| > 1 {
      NoNonZeroBytes(data);
    }
  }

  // ---------------------------------------------------------------- decode after encode

  /** The target buffer after the first `i` header bits of an encoding of `d` were handled. */
  function Filled(d: Bytes, i: nat): (f: Bytes)
    requires i <= |d|
    ensures |f| == |d|
  {
    d[..i] + Zeros(|d| - i)
  }

  lemma FilledStep(d: Bytes, i: nat)
    requires i < |d|
    ensures Filled(d, i)[i] == 0
    ensures Filled(d, i + 1) == Filled(d, i)[i := d[i]]
  {
  }

  /** Header bits past the input are clear, so the loop ends without touching the buffer. */
  lemma {:induction false} DistributePadding(h: Bytes, data: Bytes, decomp: Bytes, i: nat, ptr: nat)
    requires i <= 8 * |h|
    requires forall j: nat :: i <= j < 8 * |h| ==> !BitAt(h, j)
    ensures Distribute(h, data, decomp, i, ptr) == Got(decomp, ptr)
    decreases 8 * |h| - i
  {
    if i < 8 * |h| {
      DistributePadding(h, data, decomp, i + 1, ptr);
    }
  }

  predicate Holds(data: Bytes, ptr: nat, part: Bytes) {
    ptr + |part| <= |data| && data[ptr..ptr + |part|] == part
  }

  lemma HoldsStep(data: Bytes, ptr: nat, b: bv8, part: Bytes)
    requires Holds(data, ptr, [b] + part)
    ensures ptr < |data| && data[ptr] == b && Holds(data, ptr + 1, part)
  {
    var whole := data[ptr..ptr + 1 + |part|];
    assert whole[0] == b;
    assert whole[1..] == part;
  }

  lemma DistributeStep(h: Bytes, data: Bytes, decomp: Bytes, i: nat, ptr: nat, b: bv8)
    requires i < 8 * |h| && i < |decomp|
    requires BitAt(h, i) <==> b != 0
    requires b != 0 ==> ptr < |data| && data[ptr] == b
    requires b == 0 ==> decomp[i] == 0
    ensures Distribute(h, data, decomp, i, ptr)
         == Distribute(h, data, decomp[i := b], i + 1, if b != 0 then ptr + 1 else ptr)
  {
    if b == 0 {
      assert decomp[i := b] == decomp;
    }
  }

  lemma {:induction false} DistributeEncoded(d: Bytes, h: Bytes, data: Bytes, i: nat, ptr: nat)
    requires IsHeader(d, h, |d|)
    requires i <= |d|
    requires Holds(data, ptr, NonZeroFrom(d, i))
    ensures Distribute(h, data, Filled(d, i), i, ptr) == Got(d, ptr + |NonZeroFrom(d, i)|)
    decreases |d| - i
  {
    if i == |d| {
      assert Filled(d, i) == d;
      DistributePadding(h, data, d, i, ptr);
    } else {
      FilledStep(d, i);
      assert BitAt(h, i) <==> d[i] != 0;
      if d[i] != 0 {
        HoldsStep(data, ptr, d[i], NonZeroFrom(d, i + 1));
        DistributeEncoded(d, h, data, i + 1, ptr + 1);
      } else {
        DistributeEncoded(d, h, data, i + 1, ptr);
      }
      DistributeStep(h, data, Filled(d, i), i, ptr, d[i]);
    }
  }

  lemma EncodeSplit(d: Bytes)
    requires |d| > 1 && !AllZero(d)
    ensures !AllZero(NonZeroBitset(d))
    ensures Encode(d) == Encode(NonZeroBitset(d)) + NonZeroBytes(d)
  {
    HeaderNotZero(d);
    NoNonZeroBytes(d);
  }

  /** An encoding of an input that is not all zero is decoded back whatever follows it. */
  lemma {:induction false} PartialRoundTrip(d: Bytes, rest: Bytes)
    requires !AllZero(d)
    ensures DecodePartial(Encode(d) + rest, |d|) == Got(d, |Encode(d)|)
    decreases |d|
  {
    var data := Encode(d) + rest;
    if |d| == 1 {
      assert Encode(d) == d && data[0] == d[0];
      assert [d[0]] == d;
    } else {
      var h := NonZeroBitset(d);
      EncodeSplit(d);
      EncodeEmptyIffZero(d);
      assert data == Encode(h) + (NonZeroBytes(d) + rest);
      PartialRoundTrip(h, NonZeroBytes(d) + rest);
      PartialFromHeader(d, data, |Encode(h)|);
    }
  }

  lemma PartialFromHeader(d: Bytes, data: Bytes, ptr: nat)
    requires |d| > 1 && 0 < |data|
    requires DecodePartial(data, (|d| + 7) / 8) == Got(NonZeroBitset(d), ptr)
    requires Holds(data, ptr, NonZeroBytes(d))
    ensures DecodePartial(data, |d|) == Got(d, ptr + |NonZeroBytes(d)|)
  {
    assert Filled(d, 0) == Zeros(|d|);
    BitsetIsHeader(d);
    DistributeEncoded(d, NonZeroBitset(d), data, 0, ptr);
  }

  lemma DecodeEncode(d: Bytes)
    ensures Decode(Encode(d), |d|) == Ok(d)
  {
    EncodeEmptyIffZero(d);
    if AllZero(d) {
      assert d == Zeros(|d|);
    } else {
      PartialRoundTrip(d, []);
      assert Encode(d) + [] == Encode(d);
    }
  }

  /** Decompression with the original length undoes compression, for every input, whether the
      bytes were encoded or stored raw. */
  lemma DecompressCompress(d: Bytes)
    ensures DecompressBytes(CompressBytes(d), |d|) == Ok(d)
    ensures |CompressBytes(d)| <= |d| && |CompressBytes(d)| <= |Encode(d)| && (CompressBytes(d) == d || CompressBytes(d) == Encode(d))
  {
    DecodeEncode(d);
  }

  // ---------------------------------------------------------------- encode after decode

  /** What a successful distribution tells about its result. */
  lemma ByteBack(out: Bytes, i: nat, data: Bytes, ptr: nat, p: nat)
    requires i < |out| && ptr < p <= |data| && out[i] == data[ptr] && out[i] != 0 && NonZeroFrom(out, i + 1) == data[ptr + 1..p]
    ensures NonZeroFrom(out, i) == data[ptr..p]
  {
    assert data[ptr..p] == [data[ptr]] + data[ptr + 1..p];
  }

  lemma {:induction false} DistributeInverse(header: Bytes, data: Bytes, decomp: Bytes, i: nat, ptr: nat)
    requires i <= 8 * |header| && ptr <= |data|
    requires |decomp| <= 8 * |header|
    requires forall j :: i <= j < |decomp| ==> decomp[j] == 0
    requires Distribute(header, data, decomp, i, ptr).Got?
    ensures var Got(out, p) := Distribute(header, data, decomp, i, ptr);
            && |out| == |decomp|
            && ptr <= p <= |data|
            && (forall j :: 0 <= j < i && j < |out| ==> out[j] == decomp[j])
            && (forall j: nat :: i <= j < 8 * |header| ==> (BitAt(header, j) <==> j < |out| && out[j] != 0))
            && NonZeroFrom(out, i) == data[ptr..p]
    decreases 8 * |header| - i
  {
    if i < 8 * |header| {
      var next := if BitAt(header, i) then decomp[i := data[ptr]] else decomp;
      var nptr := if BitAt(header, i) then ptr + 1 else ptr;
      DistributeInverse(header, data, next, i + 1, nptr);
      var Got(out, p) := Distribute(header, data, decomp, i, ptr);
      if i < |out| {
        assert out[i] == next[i];
        if BitAt(header, i) { ByteBack(out, i, data, ptr, p); }
      }
    }
  }

  lemma {:induction false} PartialCanonical(data: Bytes, target: nat)
    requires DecodePartial(data, target).Got?
    ensures var Got(out, n) := DecodePartial(data, target);
            |out| == target && n <= |data| && Encode(out) == data[..n]
    decreases target
  {
    if target == 0 {
    } else if |data| == 0 {
      EncodeEmptyIffZero(Zeros(target));
    } else if target == 1 {
    } else {
      PartialCanonical(data, (target + 7) / 8);
      var Got(h, q) := DecodePartial(data, (target + 7) / 8);
      DistributeInverse(h, data, Zeros(target), 0, q);
      var Got(out, n) := DecodePartial(data, target);
      CanonicalFromHeader(data, out, h, q, n);
    }
  }

  lemma CanonicalFromHeader(data: Bytes, out: Bytes, h: Bytes, q: nat, n: nat)
    requires |out| > 1 && IsHeader(out, h, |out|)
    requires q <= n <= |data|
    requires Encode(h) == data[..q] && NonZeroBytes(out) == data[q..n]
    ensures Encode(out) == data[..n]
  {
    HeaderIsBitset(out, h);
    if AllZero(out) {
      HeaderNotZero(out);
      NoNonZeroBytes(out);
      EncodeEmptyIffZero(h);
    } else {
      EncodeSplit(out);
      assert data[..n] == data[..q] + data[q..n];
    }
  }

  /** The code is canonical: an input that decodes is the encoding of what it decodes to. */
  lemma EncodeDecode(data: Bytes, target: nat)
    requires Decode(data, target).Ok?
    ensures |Decode(data, target).value| == target
    ensures Encode(Decode(data, target).value) == data
  {
    PartialCanonical(data, target);
    assert data[..|data|] == data;
  }

  /** Two inputs that decode to the same bytes are equal, and a decoder accepts exactly the encodings. */
  lemma DecodeAcceptsExactlyEncodings(data: Bytes, target: nat)
    ensures Decode(data, target).Ok? <==> exists d: Bytes :: |d| == target && Encode(d) == data
  {
    if Decode(data, target).Ok? {
      EncodeDecode(data, target);
    }
    forall d: Bytes | |d| == target && Encode(d) == data
      ensures Decode(data, target).Ok?
    {
      DecodeEncode(d);
    }
  }

  /** Compressing after decompressing gives the input back exactly when the input was not stored
      raw although its encoding is shorter. */
  lemma CompressDecompress(data: Bytes, target: nat)
    requires DecompressBytes(data, target).Ok?
    ensures CompressBytes(DecompressBytes(data, target).value) == data
            <==> |data| < target || |Encode(data)| >= |data|
  {
    if |data| < target {
      EncodeDecode(data, target);
    }
  }

  /** A result is the input itself if that has the target length, or what the input is the encoding of if it is shorter.
      A longer input is refused. */
  lemma DecompressOutcome(data: Bytes, target: nat, out: Bytes)
    ensures DecompressBytes(data, target) == Ok(out) <==> |out| == target && ((|data| < target && data == Encode(out)) || data == out)
    ensures |data| > target ==> DecompressBytes(data, target) == Err(ExceededTarget)
  {
    if Decode(data, target).Ok? { EncodeDecode(data, target); }
    DecodeEncode(out);
  }

  /** A raw input that is not canonical: two zero bytes stored raw compress to nothing. */
  lemma RawZerosAreNotCanonical()
    ensures DecompressBytes([0, 0], 2) == Ok([0, 0])
    ensures CompressBytes([0, 0]) == []
  {
    EncodeEmptyIffZero([0, 0]);
  }

  // ---------------------------------------------------------------- the format

  /** How many of the first `i` bytes are not zero. */
  function NonZeros(d: Bytes, i: nat): nat
    requires i <= |d|
  {
    if i == 0 then 0 else NonZeros(d, i - 1) + if d[i - 1] != 0 then 1 else 0
  }

  lemma {:induction false} NonZerosFrom(d: Bytes, i: nat)
    requires i <= |d|
    ensures NonZeros(d, i) + |NonZeroFrom(d, i)| == NonZeros(d, |d|)
    decreases |d| - i
  {
    if i < |d| { NonZerosFrom(d, i + 1); }
  }

  lemma {:induction false} NonZeroFromAt(d: Bytes, i: nat, k: nat)
    requires i <= k < |d| && d[k] != 0
    ensures var p := NonZeros(d, k) - NonZeros(d, i); 0 <= p < |NonZeroFrom(d, i)| && NonZeroFrom(d, i)[p] == d[k]
    decreases k - i
  {
    if i < k { NonZeroFromAt(d, i + 1, k); }
  }

  /** `code` is the encoding of the header followed by the non-zero bytes of `d` in their order. */
  ghost predicate Follows(code: Bytes, header: Bytes, d: Bytes) {
    && |code| == |header| + NonZeros(d, |d|) && code[..|header|] == header
    && forall i: nat :: i < |d| && d[i] != 0 ==> |header| + NonZeros(d, i) < |code| && code[|header| + NonZeros(d, i)] == d[i]
  }

  lemma BytesFollow(header: Bytes, d: Bytes)
    ensures Follows(header + NonZeroBytes(d), header, d)
  {
    NonZerosFrom(d, 0);
    forall i: nat | i < |d| && d[i] != 0
      ensures NonZeros(d, i) < |NonZeroBytes(d)| && (header + NonZeroBytes(d))[|header| + NonZeros(d, i)] == d[i]
    {
      NonZeroFromAt(d, 0, i);
    }
  }

  /** Nothing and zeros are encoded as nothing and another single byte as itself. Every other input is encoded as the
      encoding of its header, the bitset of its non-zero bytes, and these bytes. */
  lemma EncodeFormat(d: Bytes)
    ensures AllZero(d) ==> Encode(d) == []
    ensures |d| == 1 && !AllZero(d) ==> Encode(d) == d
    ensures |d| > 1 && !AllZero(d) ==> exists h :: IsHeader(d, h, |d|) && Follows(Encode(d), Encode(h), d)
  {
    EncodeEmptyIffZero(d);
    if |d| > 1 && !AllZero(d) {
      EncodeSplit(d);
      BitsetIsHeader(d);
      BytesFollow(Encode(NonZeroBitset(d)), d);
    }
  }

  // ---------------------------------------------------------------- the errors

  /** How many header bits from `i` up to `k` are set. */
  function Ones(header: Bytes, i: nat, k: nat): nat
    requires k <= 8 * |header|
    decreases k - i
  {
    if i >= k then 0 else (if BitAt(header, i) then 1 else 0) + Ones(header, i + 1, k)
  }

  /** The distribution fails at bit `k`: its byte is not there, lies behind the target or is zero. */
  predicate FailsAt(header: Bytes, data: Bytes, size: nat, i: nat, ptr: nat, k: nat, error: Error) {
    && i <= k < 8 * |header| && BitAt(header, k)
    && var p := ptr + Ones(header, i, k);
       if p >= |data| then error == MissingData
       else if k >= size then error == ExceededTarget
       else data[p] == 0 && error == ZeroContent
  }

  lemma {:induction false} DistributeFails(header: Bytes, data: Bytes, decomp: Bytes, i: nat, ptr: nat)
    requires i <= 8 * |header| && Distribute(header, data, decomp, i, ptr).Failed?
    ensures exists k: nat :: FailsAt(header, data, |decomp|, i, ptr, k, Distribute(header, data, decomp, i, ptr).error)
    decreases 8 * |header| - i
  {
    var error := Distribute(header, data, decomp, i, ptr).error;
    var one := BitAt(header, i);
    if one && (ptr >= |data| || i >= |decomp| || data[ptr] == 0) {
      assert FailsAt(header, data, |decomp|, i, ptr, i, error);
    } else {
      var next, nptr := if one then decomp[i := data[ptr]] else decomp, if one then ptr + 1 else ptr;
      DistributeFails(header, data, next, i + 1, nptr);
      var k: nat :| FailsAt(header, data, |decomp|, i + 1, nptr, k, error);
      assert FailsAt(header, data, |decomp|, i, ptr, k, error);
    }
  }

  /** The decoder read nothing of an input that begins with a zero byte. */
  lemma {:induction false} NothingRead(data: Bytes, target: nat)
    requires data != [] && target > 0
    ensures data[0] == 0 ==> DecodePartial(data, target) == Got(Zeros(target), 0)
    ensures data[0] != 0 && DecodePartial(data, target).Got? ==> DecodePartial(data, target).size > 0
    decreases target
  {
    if target == 1 {
      assert data[0] == 0 ==> [data[0]] == Zeros(1);
    } else {
      NothingRead(data, (target + 7) / 8);
      if data[0] == 0 {
        var h := Zeros((target + 7) / 8);
        forall j: nat | j < 8 * |h| ensures !BitAt(h, j) { ZeroVectorHasNoBit(h, j); }
        DistributePadding(h, data, Zeros(target), 0, 0);
      } else if DecodePartial(data, target).Got? {
        var Got(h, q) := DecodePartial(data, (target + 7) / 8);
        PartialCanonical(data, (target + 7) / 8);
        DistributeInverse(h, data, Zeros(target), 0, q);
      }
    }
  }

  lemma {:induction false} PartialError(data: Bytes, target: nat)
    ensures DecodePartial(data, target) != Failed(UnreferencedData)
    decreases target
  {
    if target > 1 && data != [] {
      PartialError(data, (target + 7) / 8);
      match DecodePartial(data, (target + 7) / 8)
      case Failed(_) =>
      case Got(h, ptr) => if Distribute(h, data, Zeros(target), 0, ptr).Failed? { DistributeFails(h, data, Zeros(target), 0, ptr); }
    }
  }

  /** Data is left unread exactly if there is some and the target is empty, the first byte is zero, or the data begins
      with the encoding of an input of that length and goes on. */
  lemma UnreferencedIff(data: Bytes, target: nat)
    ensures Decode(data, target) == Err(UnreferencedData) <==>
              data != [] && (target == 0 || data[0] == 0 || exists d: Bytes :: |d| == target && !AllZero(d) && Encode(d) < data)
  {
    PartialError(data, target);
    if data != [] && target > 0 {
      NothingRead(data, target);
      if DecodePartial(data, target).Got? {
        PartialCanonical(data, target);
        var Got(out, n) := DecodePartial(data, target);
        EncodeEmptyIffZero(out);
        assert n < |data| ==> Encode(out) < data;
      }
      forall d: Bytes | |d| == target && !AllZero(d) && Encode(d) < data ensures Decode(data, target) == Err(UnreferencedData) {
        PartialRoundTrip(d, data[|Encode(d)|..]);
        assert data == Encode(d) + data[|Encode(d)|..];
      }
    }
  }

  // ---------------------------------------------------------------- the loops of the source

  lemma HeaderStep(data: Bytes, v: Bytes, i: nat)
    requires i < |data| && IsHeader(data, v, i)
    ensures IsHeader(data, if data[i] != 0 then SetBitAt(v, i) else v, i + 1)
  {
    forall j: nat | j < 8 * |v|
      ensures BitAt(SetBitAt(v, i), j) <==> j == i || BitAt(v, j)
    {
      SetBitAtBit(v, i, j);
    }
  }

  lemma EmptyHeader(data: Bytes, v: Bytes)
    requires |v| == (|data| + 7) / 8 && AllZero(v)
    ensures IsHeader(data, v, 0)
  {
    forall j: nat | j < 8 * |v| ensures !BitAt(v, j) {
      ZeroVectorHasNoBit(v, j);
    }
  }

  method SetBitIn(bitset: array<bv8>, i: nat)
    requires i < 8 * bitset.Length
    modifies bitset
    ensures bitset[..] == SetBitAt(old(bitset[..]), i)
  {
    bitset[i / 8] := bitset[i / 8] | Mask(i % 8);
  }

  lemma MoveFirst(front: Bytes, b: bv8, back: Bytes)
    ensures front + ([b] + back) == (front + [b]) + back
  {
  }

  /** The gathering loop of bitsetEncodeBytes. */
  method Gather(data: Bytes) returns (header: Bytes, bytes: Bytes)
    ensures header == NonZeroBitset(data)
    ensures bytes == NonZeroBytes(data)
  {
    var bitset := new bv8[(|data| + 7) / 8](_ => 0);
    EmptyHeader(data, bitset[..]);
    bytes := [];
    for i := 0 to |data|
      invariant bytes + NonZeroFrom(data, i) == NonZeroBytes(data)
      invariant IsHeader(data, bitset[..], i)
    {
      HeaderStep(data, bitset[..], i);
      if data[i] != 0 {
        MoveFirst(bytes, data[i], NonZeroFrom(data, i + 1));
        bytes := bytes + [data[i]];
        SetBitIn(bitset, i);
      }
    }
    HeaderIsBitset(data, bitset[..]);
    header := bitset[..];
  }

  method EncodeBytes(data: Bytes) returns (out: Bytes)
    ensures out == Encode(data)
    decreases |data|
  {
    if |data| == 0 { return []; }
    if |data| == 1 {
      if data[0] == 0 { return []; }
      return data;
    }
    var header, bytes := Gather(data);
    if |bytes| == 0 { return []; }
    var front := EncodeBytes(header);
    out := front + bytes;
  }

  method DecodePartialBytes(data: Bytes, target: nat) returns (r: Partial)
    ensures r == DecodePartial(data, target)
    decreases target
  {
    if target == 0 { return Got([], 0); }
    var decomp := new bv8[target](_ => 0);
    assert decomp[..] == Zeros(target);
    if |data| == 0 { return Got(decomp[..], 0); }
    if target == 1 {
      decomp[0] := data[0];
      assert decomp[..] == [data[0]];
      return Got(decomp[..], if data[0] != 0 then 1 else 0);
    }
    var h := DecodePartialBytes(data, (target + 7) / 8);
    if h.Failed? { return h; }
    r := DistributeBytes(h.out, data, decomp, h.size);
  }

  /** The loop over the bits of the header. */
  method DistributeBytes(header: Bytes, data: Bytes, decomp: array<bv8>, size: nat) returns (r: Partial)
    modifies decomp
    ensures r == Distribute(header, data, old(decomp[..]), 0, size)
  {
    var i: nat, ptr: nat := 0, size;
    while i < 8 * |header|
      invariant 0 <= i <= 8 * |header|
      invariant Distribute(header, data, old(decomp[..]), 0, size) == Distribute(header, data, decomp[..], i, ptr)
    {
      if BitAt(header, i) {
        if ptr >= |data| { return Failed(MissingData); }
        if i >= decomp.Length { return Failed(ExceededTarget); }
        if data[ptr] == 0 { return Failed(ZeroContent); }
        ghost var was := decomp[..];
        decomp[i] := data[ptr];
        assert decomp[..] == was[i := data[ptr]];
        ptr := ptr + 1;
      }
      i := i + 1;
    }
    return Got(decomp[..], ptr);
  }
}

/**
 * `MSResult`: the immutable result of a scan, a type tag and a byte
 * payload. The type tags are single-bit flags; combined with bitwise-or
 * they also form the options mask of a scan.
 */
module Results {
  import opened Wrappers
  import Sdk

  type byte = Sdk.byte

  const TypeNone: bv32 := 0
  const TypeEan8: bv32 := 1 << 0
  const TypeEan13: bv32 := 1 << 1
  const TypeQrCode: bv32 := 1 << 2
  const TypeImage: bv32 := 1 << 31

  /** The barcode result types, which a scan hands to the decoder. */
  const BarcodeTypes: bv32 := TypeEan8 | TypeEan13 | TypeQrCode

  /** One of the tags a found result can carry. */
  predicate IsResultType(kind: bv32) {
    kind == TypeEan8 || kind == TypeEan13 || kind == TypeQrCode || kind == TypeImage
  }

  /** Whether an options mask asks for results of type `kind` (`options & kind` in C). */
  predicate Requested(options: bv32, kind: bv32) {
    Sdk.InMask(options, kind)
  }

  /** The tags are NONE and four distinct single bits. */
  lemma ResultTypesAreDistinctBits()
    ensures TypeNone == 0 && !IsResultType(TypeNone)
    ensures forall k :: IsResultType(k) ==> Sdk.SingleBit(k)
    ensures TypeEan8 & TypeEan13 == 0 && TypeEan8 & TypeQrCode == 0 && TypeEan8 & TypeImage == 0
    ensures TypeEan13 & TypeQrCode == 0 && TypeEan13 & TypeImage == 0 && TypeQrCode & TypeImage == 0
  {
  }

  /** Testing a one-flag mask with bitwise-and finds that flag and no other. */
  lemma RequestedIsUnambiguous(flag: bv32, kind: bv32)
    requires IsResultType(flag) && IsResultType(kind)
    ensures Requested(flag, kind) <==> flag == kind
  {
  }

  /** The barcode tags are the native decoder's format bits, and IMAGE is none of them. */
  lemma BarcodeTypesAreSdkFormats()
    ensures TypeEan8 == Sdk.Ean8Format && TypeEan13 == Sdk.Ean13Format && TypeQrCode == Sdk.QrCodeFormat
    ensures BarcodeTypes == Sdk.AllBarcodeFormats
    ensures TypeImage & Sdk.AllBarcodeFormats == 0 && !Sdk.IsBarcodeFormat(TypeImage)
  {
  }

  /** A scan result: its type tag and its bytes; `length` is the number of bytes. */
  datatype MSResult = MSResult(kind: bv32, bytes: seq<byte>) {

    /** The `length` property: the number of bytes `getData` returns. */
    function Length(): (n: int)
      ensures n == |GetData()|
    {
      |bytes|
    }

    /** `getType`: with `getData` it recovers the whole result. */
    function GetType(): (t: bv32)
      ensures this == MSResult(t, bytes)
    {
      kind
    }

    /** `getData`: the payload as raw data; with `getType` it recovers the whole result. */
    function GetData(): (d: seq<byte>)
      ensures this == MSResult(kind, d)
    {
      bytes
    }

    /**
     * `isEqualToResult:`: the same type, the same length and the same
     * bytes, compared as `memcmp` does; a nil argument is never equal.
     * This is exactly equality of values.
     */
    predicate IsEqualToResult(other: Option<MSResult>): (eq: bool)
      ensures eq <==> other == Some(this)
    {
      && other.Some?
      && kind == other.value.kind
      && Length() == other.value.Length()
      && (assert bytes[..Length()] == bytes;
          assert Length() == other.value.Length() ==> other.value.bytes[..Length()] == other.value.bytes;
          MemEqual(bytes, other.value.bytes, Length()))
    }
  }

  /** `memcmp(a, b, n) == 0`, one byte at a time: it holds exactly when the first `n` bytes agree. */
  function MemEqual(a: seq<byte>, b: seq<byte>, n: nat): (eq: bool)
    requires n <= |a| && n <= |b|
    ensures eq <==> a[..n] == b[..n]
  {
    if n == 0 then true
    else
      assert a[..n] == [a[0]] + a[1..][..n - 1];
      assert b[..n] == [b[0]] + b[1..][..n - 1];
      a[0] == b[0] && MemEqual(a[1..], b[1..], n - 1)
  }

  /** `isEqualToResult:` is reflexive, symmetric and transitive, and never holds against nil. */
  lemma IsEqualToResultIsEquivalence(a: MSResult, b: MSResult, c: MSResult)
    ensures a.IsEqualToResult(Some(a))
    ensures a.IsEqualToResult(Some(b)) ==> b.IsEqualToResult(Some(a))
    ensures a.IsEqualToResult(Some(b)) && b.IsEqualToResult(Some(c)) ==> a.IsEqualToResult(Some(c))
    ensures !a.IsEqualToResult(None)
  {
  }

  /** `init`: an empty result of type NONE. */
  function Init(): (r: MSResult)
    ensures r.GetType() == TypeNone && r.Length() == 0
  {
    MSResult(TypeNone, [])
  }

  /** `initWithBytes:length:type:`: copies the first `length` bytes of `buf`. */
  function InitWithBytes(buf: seq<byte>, length: nat, kind: bv32): (r: MSResult)
    requires length <= |buf|
    ensures r.GetType() == kind && r.Length() == length
    ensures forall i :: 0 <= i < length ==> r.GetData()[i] == buf[i]
  {
    MSResult(kind, buf[..length])
  }

  /** `initWithBarcode:`: the barcode's format becomes the type, its data the payload. */
  function InitWithBarcode(b: Sdk.Barcode): (r: MSResult)
    ensures r.GetType() == b.format && r.GetData() == b.data
  {
    InitWithBytes(b.data, |b.data|, b.format)
  }

  /** `strlen`: the index of the first NUL byte. */
  function StrLen(s: seq<byte>): (n: nat)
    requires 0 in s
    ensures n < |s| && s[n] == 0
    ensures forall i :: 0 <= i < n ==> s[i] != 0
  {
    if s[0] == 0 then 0 else 1 + StrLen(s[1..])
  }

  /** `initWithImageID:`: the bytes of a NUL-terminated identifier, typed IMAGE. */
  function InitWithImageID(uid: seq<byte>): (r: MSResult)
    requires 0 in uid
    ensures r.GetType() == TypeImage
    ensures 0 !in r.GetData() && r.GetData() + [0] <= uid
  {
    var n := StrLen(uid);
    assert uid[..n] + [0] == uid[..n + 1];
    InitWithBytes(uid, n, TypeImage)
  }

  /** An engine identifier, passed as the C string it is, comes back as the value of an IMAGE result. */
  lemma {:induction false} ImageIdValue(id: Sdk.Id)
    ensures InitWithImageID(id + [0]) == MSResult(TypeImage, id)
  {
    var s := id + [0];
    var n := StrLen(s);
    assert n == |id|;
    assert s[..n] == id;
  }

  /** The IMAGE result for an engine identifier. */
  function FromImageId(id: Sdk.Id): (r: MSResult)
    ensures r.GetType() == TypeImage && r.GetData() == id
  {
    ImageIdValue(id);
    InitWithImageID(id + [0])
  }

  /** `copyWithZone:`: a new result built from this one's type, length and bytes. */
  function Copy(r: MSResult): (c: MSResult)
    ensures c.GetType() == r.GetType() && c.GetData() == r.GetData()
  {
    InitWithBytes(r.bytes, r.Length(), r.kind)
  }

  /** A copy is equal to its original, in both directions. */
  lemma CopyIsEqualToOriginal(r: MSResult)
    ensures Copy(r).IsEqualToResult(Some(r)) && r.IsEqualToResult(Some(Copy(r)))
  {
  }

  /** `getType` and `getData` return exactly what `initWithBytes:length:type:` was given. */
  lemma AccessorsReturnConstructorArguments(buf: seq<byte>, length: nat, kind: bv32, b: Sdk.Barcode)
    requires length <= |buf|
    ensures InitWithBytes(buf, length, kind).GetType() == kind
    ensures InitWithBytes(buf, length, kind).GetData() == buf[..length]
    ensures |InitWithBytes(buf, length, kind).GetData()| == InitWithBytes(buf, length, kind).Length()
    ensures InitWithBarcode(b) == MSResult(b.format, b.data)
  {
  }
}

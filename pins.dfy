/** PIN generation and display of libs/utils (pins.ts).
    `randomBytes(length)` becomes the parameter `bytes` and the
    ALL_ZERO_SMARTCARD_PIN feature flag the parameter `allZeroPins`. */
module Pins {
  import opened Wrappers
  import Seqs

  newtype Byte = x: int | 0 <= x < 256

  /** Default arguments of `generatePin` and `hyphenatePin`. */
  const DefaultPinLength := 6
  const DefaultSegmentLength := 3

  const PinLengthError := "PIN length must be greater than 0"
  const SegmentLengthError := "Segment length must be greater than 0"

  predicate IsDecimalDigit(c: char) {
    '0' <= c <= '9'
  }

  /** The character `${d}` for a digit value d. */
  function DigitChar(d: int): (c: char)
    requires 0 <= d < 10
    ensures IsDecimalDigit(c) && c as int - '0' as int == d
  {
    ('0' as int + d) as char
  }

  /** The digit placed at position i. */
  function PinDigit(b: Byte, allZeroPins: bool): (d: int)
    ensures 0 <= d < 10
  {
    if allZeroPins then 0 else (b as int) % 10
  }

  /** generatePin: one character per random byte, each its value mod 10
      (or 0 under the all-zero flag); a length below 1 is an error. */
  method GeneratePin(length: int, bytes: seq<Byte>, allZeroPins: bool) returns (r: Result<string, string>)
    requires length >= 1 ==> |bytes| == length
    ensures r.Err? <==> length < 1
    ensures r.Err? ==> r.error == PinLengthError
    ensures r.Ok? ==> |r.value| == length
    ensures r.Ok? ==> forall i :: 0 <= i < |r.value| ==> IsDecimalDigit(r.value[i])
    ensures r.Ok? ==> forall i :: 0 <= i < |r.value| ==> r.value[i] == DigitChar(PinDigit(bytes[i], allZeroPins))
    ensures r.Ok? && allZeroPins ==> forall i :: 0 <= i < |r.value| ==> r.value[i] == '0'
  {
    if length < 1 {
      return Err(PinLengthError);
    }
    var pin := "";
    var i := 0;
    while i < length
      invariant 0 <= i <= length
      invariant |pin| == i
      invariant forall j :: 0 <= j < i ==> pin[j] == DigitChar(PinDigit(bytes[j], allZeroPins))
    {
      var nextDigit := if allZeroPins then 0 else (bytes[i] as int) % 10;
      pin := pin + [DigitChar(nextDigit)];
      i := i + 1;
    }
    return Ok(pin);
  }

  /** The substrings `pin.substring(i, i + n)` for i = 0, n, 2n, ... */
  function Segments(pin: string, n: nat): (segs: seq<string>)
    requires n >= 1
    decreases |pin|
  {
    if |pin| == 0 then []
    else if |pin| <= n then [pin]
    else [pin[..n]] + Segments(pin[n..], n)
  }

  /** `segments.join(sep)`. */
  function Join(segs: seq<string>, sep: string): string {
    if |segs| == 0 then ""
    else if |segs| == 1 then segs[0]
    else segs[0] + sep + Join(segs[1..], sep)
  }

  /** A segment as itself, for measuring segments with Seqs.SumLengths. */
  function Identity(s: string): string { s }

  function Concat(segs: seq<string>): string {
    if segs == [] then "" else segs[0] + Concat(segs[1..])
  }

  /** One step of the loop: the segments from position i on. */
  lemma SegmentsStep(pin: string, n: nat, i: nat)
    requires n >= 1 && i < |pin|
    ensures Segments(pin[i..], n) ==
      [pin[i..if i + n <= |pin| then i + n else |pin|]] +
      (if i + n < |pin| then Segments(pin[i + n..], n) else [])
  {
    var t := pin[i..];
    if i + n < |pin| {
      assert t[..n] == pin[i..i + n];
      assert t[n..] == pin[i + n..];
    } else {
      assert t == pin[i..|pin|];
    }
  }

  /** hyphenatePin: the segments of length `segmentLength` joined by '-';
      a segment length below 1 is an error. */
  method HyphenatePin(pin: string, segmentLength: int) returns (r: Result<string, string>)
    ensures r.Err? <==> segmentLength < 1
    ensures r.Err? ==> r.error == SegmentLengthError
    ensures r.Ok? ==> r.value == Join(Segments(pin, segmentLength), "-")
  {
    if segmentLength < 1 {
      return Err(SegmentLengthError);
    }
    var segments: seq<string> := [];
    var i := 0;
    while i < |pin|
      invariant 0 <= i
      invariant i >= |pin| ==> segments == Segments(pin, segmentLength)
      invariant i < |pin| ==> segments + Segments(pin[i..], segmentLength) == Segments(pin, segmentLength)
      decreases |pin| - i
    {
      var end := if i + segmentLength <= |pin| then i + segmentLength else |pin|;
      SegmentsStep(pin, segmentLength, i);
      segments := segments + [pin[i..end]];
      i := i + segmentLength;
    }
    return Ok(Join(segments, "-"));
  }

  /** The segments concatenate back to the PIN. */
  lemma {:induction false} SegmentsConcat(pin: string, n: nat)
    requires n >= 1
    ensures Concat(Segments(pin, n)) == pin
    decreases |pin|
  {
    if |pin| > n {
      SegmentsConcat(pin[n..], n);
      assert pin == pin[..n] + pin[n..];
    }
  }

  /** There are ceil(|pin| / n) segments: the k with (k-1)*n < |pin| <= k*n. */
  lemma {:induction false} SegmentsCount(pin: string, n: nat)
    requires n >= 1
    ensures |pin| == 0 <==> |Segments(pin, n)| == 0
    ensures |pin| > 0 ==> (|Segments(pin, n)| - 1) * n < |pin| <= |Segments(pin, n)| * n
    decreases |pin|
  {
    if |pin| > n {
      SegmentsCount(pin[n..], n);
      var k := |Segments(pin[n..], n)|;
      assert |Segments(pin, n)| == k + 1;
      assert (k + 1) * n == k * n + n;
    }
  }

  /** Each segment but the last has length n; the last has 1..n characters. */
  lemma {:induction false} SegmentsLengths(pin: string, n: nat)
    requires n >= 1
    ensures forall k :: 0 <= k < |Segments(pin, n)| - 1 ==> |Segments(pin, n)[k]| == n
    ensures |pin| > 0 ==> 1 <= |Segments(pin, n)[|Segments(pin, n)| - 1]| <= n
    decreases |pin|
  {
    if |pin| > n {
      SegmentsLengths(pin[n..], n);
      var rest := Segments(pin[n..], n);
      assert Segments(pin, n) == [pin[..n]] + rest;
      assert rest != [] by { SegmentsCount(pin[n..], n); }
    }
  }

  lemma {:induction false} ConcatLength(segs: seq<string>)
    ensures |Concat(segs)| == Seqs.SumLengths(segs, Identity)
  {
    if segs != [] {
      ConcatLength(segs[1..]);
    }
  }

  /** Joining k segments inserts k - 1 separators. */
  lemma {:induction false} JoinLength(segs: seq<string>, sep: string)
    requires segs != []
    ensures |Join(segs, sep)| == Seqs.SumLengths(segs, Identity) + (|segs| - 1) * |sep|
  {
    if |segs| > 1 {
      JoinLength(segs[1..], sep);
    }
  }

  /** A non-empty PIN gains ceil(len / n) - 1 hyphens; an empty PIN gives ''. */
  lemma HyphenatedLength(pin: string, n: nat)
    requires n >= 1
    ensures pin == "" ==> Join(Segments(pin, n), "-") == ""
    ensures pin != "" ==> |Join(Segments(pin, n), "-")| == |pin| + |Segments(pin, n)| - 1
  {
    if pin != "" {
      SegmentsCount(pin, n);
      SegmentsConcat(pin, n);
      ConcatLength(Segments(pin, n));
      JoinLength(Segments(pin, n), "-");
    }
  }

  /** The documented example: '123456' becomes '123-456'. */
  lemma HyphenateExample()
    ensures Join(Segments("123456", DefaultSegmentLength), "-") == "123-456"
  {
    assert "123456"[..3] == "123" && "123456"[3..] == "456";
    assert Segments("456", 3) == ["456"];
  }
}

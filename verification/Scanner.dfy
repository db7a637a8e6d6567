/**
 The namespace scanner: a window over the bytes, and the same window over what runs of hexadecimal digits decode to.
 */
module Scanner {
  import opened Hashing
  import opened Spelling

  const FORBIDDEN_LENGTH := 7
  const HEX_LENGTH := 2 * FORBIDDEN_LENGTH

  function LowerByte(b: byte): byte {
    if 65 <= b <= 90 then b + 32 else b
  }

  function Lower(s: Bytes): Bytes {
    seq(|s|, i requires 0 <= i < |s| => LowerByte(s[i]))
  }

  /** The window is the forbidden name, in any case. */
  predicate Hit(window: Bytes) {
    Sha256(Lower(window)) == FORBIDDEN_DIGEST
  }

  predicate HitAt(data: Bytes, i: int) {
    0 <= i <= |data| - FORBIDDEN_LENGTH && Hit(data[i..i + FORBIDDEN_LENGTH])
  }

  predicate Hex(b: byte) {
    48 <= b <= 57 || 97 <= b <= 102 || 65 <= b <= 70
  }

  function HexValue(b: byte): (v: int)
    ensures 0 <= v < 16
  {
    if 48 <= b <= 57 then b - 48 else if 97 <= b <= 102 then b - 87 else if 65 <= b <= 70 then b - 55 else 0
  }

  /** The bytes two digits at a time; a last odd digit is dropped. */
  function Decode(s: Bytes): Bytes {
    seq(|s| / 2, i requires 0 <= i < |s| / 2 => 16 * HexValue(s[2 * i]) + HexValue(s[2 * i + 1]))
  }

  const FORBIDDEN_DIGEST: Bytes32 := Decode(Ascii("4b61ef4fda96729ef3703e602087708f3fa1ebfc2d809e0be3398086f8ec6706"))

  predicate AllHex(data: Bytes, lo: int, hi: int)
    requires 0 <= lo <= hi <= |data|
  {
    forall k :: lo <= k < hi ==> Hex(data[k])
  }

  /** Fourteen digits from `p` on spell the forbidden name: the search one would write without thinking of speed. */
  predicate HexHitAt(data: Bytes, p: int) {
    0 <= p <= |data| - HEX_LENGTH && AllHex(data, p, p + HEX_LENGTH) && Hit(Decode(data[p..p + HEX_LENGTH]))
  }

  // ---------------------------------------------------------------- what a hit is

  lemma LowerMeans(v: byte, w: byte)
    ensures LowerByte(v) == LowerByte(w) <==> v == w || SameLetter(v, w)
    ensures LowerByte(v) == v <==> !('A' as int <= v <= 'Z' as int)
  {
    if LowerByte(v) == LowerByte(w) && v != w {
      var k := LowerByte(v) - 'a' as int;
      assert WritesLetter(v, k) && WritesLetter(w, k);
    }
  }

  /** Changing the case of letters changes no hit, and without capitals a hit is a string with the digest. */
  lemma HitInAnyCase(v: Bytes, w: Bytes)
    requires SameButCase(v, w)
    ensures Hit(v) <==> Hit(w)
    ensures NoCapitals(w) ==> (Hit(v) <==> Sha256(w) == FORBIDDEN_DIGEST)
  {
    hide FORBIDDEN_DIGEST, LowerByte, SameLetter;
    forall i | 0 <= i < |v|
      ensures Lower(v)[i] == Lower(w)[i] && (NoCapitals(w) ==> Lower(w)[i] == w[i])
    {
      LowerMeans(v[i], w[i]);
      LowerMeans(w[i], w[i]);
    }
    assert Lower(v) == Lower(w);
    assert NoCapitals(w) ==> Lower(w) == w;
  }

  lemma DigitMeans(b: byte, d: int)
    ensures WritesDigit(b, d) <==> Hex(b) && HexValue(b) == d
  {
  }

  /** Digits decode to exactly the bytes that they write. */
  lemma DecodesIffWrites(s: Bytes, w: Bytes)
    requires |s| == 2 * |w|
    ensures WritesBytes(s, w) <==> AllHex(s, 0, |s|) && Decode(s) == w
  {
    hide Hex, HexValue, WritesDigit;
    forall k | 0 <= k < |w|
      ensures WritesDigit(s[2 * k], w[k] / 16) && WritesDigit(s[2 * k + 1], w[k] % 16)
         <==> Hex(s[2 * k]) && Hex(s[2 * k + 1]) && Decode(s)[k] == w[k]
    {
      DigitMeans(s[2 * k], w[k] / 16);
      DigitMeans(s[2 * k + 1], w[k] % 16);
      PairMeans(HexValue(s[2 * k]), HexValue(s[2 * k + 1]), w[k]);
    }
    if WritesBytes(s, w) {
      forall k | 0 <= k < |s|
        ensures Hex(s[k])
      {
        var i := k / 2;
        assert WritesDigit(s[2 * i], w[i] / 16) && WritesDigit(s[2 * i + 1], w[i] % 16);
        assert k == 2 * i || k == 2 * i + 1;
      }
    }
  }

  lemma PairMeans(high: int, low: int, b: byte)
    requires 0 <= high < 16 && 0 <= low < 16
    ensures 16 * high + low == b <==> high == b / 16 && low == b % 16
  {
  }

  /** `data` writes the seven bytes `w`, a hit, as hexadecimal digits from `p` on. */
  predicate WrittenAt(data: Bytes, p: int, w: Bytes) {
    |w| == 7 && Hit(w) && 0 <= p <= |data| - 14 && WritesBytes(data[p..p + 14], w)
  }

  /** `data` holds seven bytes, a hit, from `i` on. */
  predicate NameAt(data: Bytes, i: int) {
    0 <= i <= |data| - 7 && Hit(data[i..i + 7])
  }

  lemma NameIsHit(data: Bytes)
    ensures forall i :: NameAt(data, i) <==> HitAt(data, i)
  {
    hide Hit;
  }

  lemma HexHitMeans(data: Bytes, p: int)
    ensures HexHitAt(data, p) <==> exists w :: WrittenAt(data, p, w)
  {
    hide Hit, Decode, WritesBytes, Hex;
    if 0 <= p <= |data| - HEX_LENGTH {
      var s := data[p..p + HEX_LENGTH];
      DecodeLength(s);
      DecodesIffWrites(s, Decode(s));
      WindowIsHex(data, p);
      if HexHitAt(data, p) {
        assert WrittenAt(data, p, Decode(s));
      }
      forall w | WrittenAt(data, p, w)
        ensures HexHitAt(data, p)
      {
        DecodesIffWrites(s, w);
      }
    }
  }

  lemma WindowIsHex(data: Bytes, p: nat)
    requires p + HEX_LENGTH <= |data|
    ensures var s := data[p..p + HEX_LENGTH]; AllHex(s, 0, |s|) <==> AllHex(data, p, p + HEX_LENGTH)
  {
    hide Hex;
    var s := data[p..p + HEX_LENGTH];
    assert forall k :: p <= k < p + HEX_LENGTH ==> data[k] == s[k - p];
  }

  // ---------------------------------------------------------------- the scans

  method ContainsForbiddenRaw(data: Bytes) returns (found: bool)
    ensures found <==> exists i :: HitAt(data, i)
    ensures found <==> exists i :: NameAt(data, i)
  {
    hide Hit, FORBIDDEN_DIGEST, LowerByte, NameAt;
    NameIsHit(data);
    var lowered := Lower(data);
    if |lowered| < FORBIDDEN_LENGTH {
      return false;
    }
    for i := 0 to |lowered| - FORBIDDEN_LENGTH + 1
      invariant forall j :: 0 <= j < i ==> !HitAt(data, j)
    {
      var window := lowered[i..i + FORBIDDEN_LENGTH];
      WindowOfLowered(data, i);
      if Sha256(window) == FORBIDDEN_DIGEST {
        return true;
      }
    }
    return false;
  }

  lemma WindowOfLowered(data: Bytes, i: nat)
    requires i + FORBIDDEN_LENGTH <= |data|
    ensures HitAt(data, i) <==> Sha256(Lower(data)[i..i + FORBIDDEN_LENGTH]) == FORBIDDEN_DIGEST
  {
    hide FORBIDDEN_DIGEST, LowerByte;
    assert Lower(data)[i..i + FORBIDDEN_LENGTH] == Lower(data[i..i + FORBIDDEN_LENGTH]);
  }

  /** A window of the decoded digits is the decoding of a window of digits. */
  lemma DecodedWindow(s: Bytes, k: nat)
    requires 2 * k + HEX_LENGTH <= |s|
    ensures Decode(s)[k..k + FORBIDDEN_LENGTH] == Decode(s[2 * k..2 * k + HEX_LENGTH])
  {
    hide HexValue;
    var w := s[2 * k..2 * k + HEX_LENGTH];
    forall i | 0 <= i < FORBIDDEN_LENGTH
      ensures Decode(s)[k + i] == Decode(w)[i]
    {
      assert s[2 * (k + i)] == w[2 * i] && s[2 * (k + i) + 1] == w[2 * i + 1];
    }
  }

  lemma TruncatedWindow(data: Bytes, lo: nat, hi: nat, k: nat)
    requires lo <= hi <= |data| && k + HEX_LENGTH <= |Truncated(data[lo..hi])|
    ensures Truncated(data[lo..hi])[k..k + HEX_LENGTH] == data[lo + k..lo + k + HEX_LENGTH]
  {
    hide Truncated;
    var s, t := data[lo..hi], Truncated(data[lo..hi]);
    var window, wanted := t[k..k + HEX_LENGTH], data[lo + k..lo + k + HEX_LENGTH];
    assert forall m :: 0 <= m < |t| ==> t[m] == s[m] == data[lo + m];
    forall i | 0 <= i < |window|
      ensures window[i] == wanted[i]
    {
      assert window[i] == t[k + i] == data[lo + (k + i)];
    }
  }

  /** What one alignment of a run finds: the hits at even distance from its start. */
  lemma AlignedHits(data: Bytes, lo: nat, hi: nat, offset: nat, k: nat)
    requires offset <= 1 && lo + offset <= hi <= |data| && AllHex(data, lo, hi)
    ensures HitAt(Decode(Truncated(data[lo + offset..hi])), k) <==>
              lo + offset + 2 * k + HEX_LENGTH <= hi && HexHitAt(data, lo + offset + 2 * k)
  {
    hide Hit, Decode;
    var s := Truncated(data[lo + offset..hi]);
    DecodeLength(s);
    if 2 * k + HEX_LENGTH <= |s| {
      DecodedWindow(s, k);
      var p := lo + offset + 2 * k;
      TruncatedWindow(data, lo + offset, hi, 2 * k);
    }
  }

  lemma DecodeLength(s: Bytes)
    ensures |Decode(s)| == |s| / 2
  {
  }

  function Truncated(s: Bytes): (r: Bytes)
    ensures |r| == |s| / 2 * 2 && r <= s
  {
    if |s| % 2 == 1 then s[..|s| - 1] else s
  }

  /** Both alignments of one run together find every hit inside it, and nothing else. */
  method RunContainsForbidden(data: Bytes, lo: nat, hi: nat) returns (found: bool)
    requires lo + HEX_LENGTH <= hi <= |data| && AllHex(data, lo, hi)
    ensures found <==> exists p :: lo <= p <= hi - HEX_LENGTH && HexHitAt(data, p)
  {
    hide HitAt, HexHitAt, Decode, AllHex, Hit, FORBIDDEN_DIGEST, Hex, HexValue;
    for offset := 0 to 2
      invariant forall p :: lo <= p <= hi - HEX_LENGTH && (p - lo) % 2 < offset ==> !HexHitAt(data, p)
    {
      var encoded := data[lo + offset..hi];
      if |encoded| % 2 == 1 {
        encoded := encoded[..|encoded| - 1];
      }
      assert encoded == Truncated(data[lo + offset..hi]);
      if |encoded| >= HEX_LENGTH {
        var inside := ContainsForbiddenRaw(Decode(encoded));
        if inside {
          var k :| HitAt(Decode(encoded), k);
          HitAtIsNat(Decode(encoded), k);
          AlignedHits(data, lo, hi, offset, k);
          return true;
        }
      }
      forall p | lo <= p <= hi - HEX_LENGTH && (p - lo) % 2 == offset
        ensures !HexHitAt(data, p)
      {
        var k := (p - lo) / 2;
        AlignedHits(data, lo, hi, offset, k);
      }
    }
    return false;
  }

  lemma HitAtIsNat(data: Bytes, k: int)
    requires HitAt(data, k)
    ensures k >= 0
  {
  }

  /** The maximal run of digits from `lo` on. */
  method RunEnd(data: Bytes, lo: nat) returns (hi: nat)
    requires lo <= |data|
    ensures lo <= hi <= |data| && AllHex(data, lo, hi)
    ensures hi < |data| ==> !Hex(data[hi])
  {
    hi := lo;
    while hi < |data| && Hex(data[hi])
      invariant lo <= hi <= |data| && AllHex(data, lo, hi)
    {
      hi := hi + 1;
    }
  }

  /** A window of digits cannot reach past the end of its run. */
  lemma HexHitEndsInRun(data: Bytes, p: int, hi: nat)
    requires HexHitAt(data, p) && p <= hi < |data| && !Hex(data[hi])
    ensures p + HEX_LENGTH <= hi
  {
    hide Hit;
  }

  /** Finds the name exactly where the naive searches over all positions find it. */
  method ContainsForbidden(data: Bytes) returns (found: bool)
    ensures found <==> (exists i :: NameAt(data, i)) || (exists p, w :: WrittenAt(data, p, w))
  {
    hide HitAt, HexHitAt, Hex, WrittenAt, NameAt;
    found := ContainsForbiddenRaw(data);
    if found {
      return;
    }
    var i := 0;
    while i < |data|
      invariant 0 <= i <= |data|
      invariant forall p :: 0 <= p < i ==> !HexHitAt(data, p)
    {
      var end := RunEnd(data, i);
      if end - i >= HEX_LENGTH {
        var inside := RunContainsForbidden(data, i, end);
        if inside {
          var p :| i <= p <= end - HEX_LENGTH && HexHitAt(data, p);
          HexHitMeans(data, p);
          return true;
        }
      }
      var next := if end == i then i + 1 else end;
      forall p | i <= p < next
        ensures !HexHitAt(data, p)
      {
        HexHitFits(data, p);
        if HexHitAt(data, p) && end < |data| {
          HexHitEndsInRun(data, p, end);
        }
      }
      i := next;
    }
    forall p, w
      ensures !WrittenAt(data, p, w)
    {
      HexHitFits(data, p);
      HexHitMeans(data, p);
    }
    return false;
  }

  lemma HexHitFits(data: Bytes, p: int)
    ensures HexHitAt(data, p) ==> 0 <= p && p + HEX_LENGTH <= |data|
  {
  }
}

// The byte encoding that src/immich_on_demand/model.py measures names in:
// UTF-8 as section 3 of RFC 3629 defines it, and a decoder that skips what it
// cannot decode, which is what bytes.decode("utf-8", errors="ignore") does.
module Utf8 {
  import opened Options

  type byte = b: int | 0 <= b < 256

  function EncodeChar(c: char): (bytes: seq<byte>)
    ensures 1 <= |bytes| <= 4
  {
    var p := c as int;
    if p < 0x80 then [p]
    else if p < 0x800 then [0xC0 + p / 64, 0x80 + p % 64]
    else if p < 0x10000 then [0xE0 + p / 4096, 0x80 + p / 64 % 64, 0x80 + p % 64]
    else [0xF0 + p / 262144, 0x80 + p / 4096 % 64, 0x80 + p / 64 % 64, 0x80 + p % 64]
  }

  // How many bytes a string takes.
  function Size(s: string): nat {
    if s == "" then 0 else |EncodeChar(s[0])| + Size(s[1..])
  }

  function Encode(s: string): (bytes: seq<byte>)
    ensures |bytes| == Size(s)
  {
    if s == "" then [] else EncodeChar(s[0]) + Encode(s[1..])
  }

  predicate Continuation(b: byte) {
    0x80 <= b < 0xC0
  }

  // The six bits that a continuation byte carries.
  function Low(b: byte): (bits: int) {
    b - 0x80
  }

  function Scalar(p: int): Option<char> {
    if 0 <= p < 0xD800 || 0xE000 <= p < 0x110000 then Some(p as char) else None
  }

  // The character that a byte string starts with. Overlong forms, surrogates
  // and code points past U+10FFFF are no characters.
  function DecodeFirst(bytes: seq<byte>): Option<char>
    requires bytes != []
  {
    var b: int := bytes[0];
    if b < 0x80 then Some(b as char)
    else if 0xC2 <= b < 0xE0 && |bytes| >= 2 && Continuation(bytes[1]) then
      Scalar((b - 0xC0) * 64 + Low(bytes[1]))
    else if 0xE0 <= b < 0xF0 && |bytes| >= 3 && Continuation(bytes[1]) && Continuation(bytes[2]) then
      var p := (b - 0xE0) * 4096 + Low(bytes[1]) * 64 + Low(bytes[2]);
      if p >= 0x800 then Scalar(p) else None
    else if 0xF0 <= b < 0xF5 && |bytes| >= 4
            && Continuation(bytes[1]) && Continuation(bytes[2]) && Continuation(bytes[3]) then
      var p := (b - 0xF0) * 262144 + Low(bytes[1]) * 4096 + Low(bytes[2]) * 64 + Low(bytes[3]);
      if p >= 0x10000 then Scalar(p) else None
    else None
  }

  function DecodeIgnore(bytes: seq<byte>): string {
    if bytes == [] then ""
    else
      match DecodeFirst(bytes)
      case None => DecodeIgnore(bytes[1..])
      case Some(c) =>
        var n := |EncodeChar(c)|;
        [c] + DecodeIgnore(if n <= |bytes| then bytes[n..] else [])
  }

  // How many leading characters fit in a number of bytes.
  function Fit(s: string, limit: int): (n: nat)
    ensures n <= |s|
  {
    if s == "" || |EncodeChar(s[0])| > limit then 0
    else 1 + Fit(s[1..], limit - |EncodeChar(s[0])|)
  }

  lemma {:induction false} SizeConcat(s: string, t: string)
    ensures Size(s + t) == Size(s) + Size(t)
  {
    if s == "" {
      assert s + t == t;
    } else {
      assert (s + t)[1..] == s[1..] + t;
      SizeConcat(s[1..], t);
    }
  }

  lemma {:induction false} SizeAscii(s: string)
    requires forall i | 0 <= i < |s| :: s[i] as int < 0x80
    ensures Size(s) == |s|
  {
    if s != "" { SizeAscii(s[1..]); }
  }

  // Fit is the longest prefix within the limit, and no longer one is.
  lemma {:induction false} FitIsLongest(s: string, limit: nat)
    ensures Size(s[..Fit(s, limit)]) <= limit
    ensures forall k | Fit(s, limit) < k <= |s| :: Size(s[..k]) > limit
  {
    if s != "" {
      var w := |EncodeChar(s[0])|;
      if w <= limit {
        FitIsLongest(s[1..], limit - w);
        assert s[..Fit(s, limit)][1..] == s[1..][..Fit(s[1..], limit - w)];
      }
      forall k | Fit(s, limit) < k <= |s| ensures Size(s[..k]) > limit {
        assert s[..k][0] == s[0] && s[..k][1..] == s[1..][..k - 1];
      }
    }
  }

  lemma SplitDigits(p: nat)
    ensures p / 64 / 64 == p / 4096 && p / 4096 / 64 == p / 262144
    ensures p == p / 64 * 64 + p % 64
    ensures p / 64 == p / 4096 * 64 + p / 64 % 64
    ensures p / 4096 == p / 262144 * 64 + p / 4096 % 64
  {
  }

  lemma DecodeFirstInverts(c: char, rest: seq<byte>)
    ensures DecodeFirst(EncodeChar(c) + rest) == Some(c)
  {
    var p := c as int;
    var code := EncodeChar(c);
    var bytes := code + rest;
    SplitDigits(p);
    assert forall i | 0 <= i < |code| :: bytes[i] == code[i];
    if p < 0x80 {
    } else if p < 0x800 {
      assert DecodeFirst(bytes) == Scalar(p);
    } else if p < 0x10000 {
      assert DecodeFirst(bytes) == Scalar(p);
    } else {
      assert DecodeFirst(bytes) == Scalar(p);
    }
  }

  // A strict prefix of one character's bytes decodes to nothing at all.
  lemma PartialCharVanishes(c: char, k: nat)
    requires k < |EncodeChar(c)|
    ensures DecodeIgnore(EncodeChar(c)[..k]) == ""
  {
    var bytes := EncodeChar(c)[..k];
    if k >= 1 {
      assert DecodeFirst(bytes) == None;
      ContinuationsVanish(bytes[1..]);
    }
  }

  lemma {:induction false} ContinuationsVanish(bytes: seq<byte>)
    requires forall i | 0 <= i < |bytes| :: Continuation(bytes[i])
    ensures DecodeIgnore(bytes) == ""
  {
    if bytes != [] { ContinuationsVanish(bytes[1..]); }
  }

  // Cutting the encoding anywhere and decoding what is left gives the prefix
  // that fits: no character is split, changed or invented.
  lemma {:induction false} DecodeCut(s: string, limit: nat)
    requires limit <= |Encode(s)|
    ensures DecodeIgnore(Encode(s)[..limit]) == s[..Fit(s, limit)]
  {
    if s != "" {
      var first := EncodeChar(s[0]);
      if limit < |first| {
        assert Encode(s)[..limit] == first[..limit];
        PartialCharVanishes(s[0], limit);
      } else {
        var rest := Encode(s[1..])[..limit - |first|];
        assert Encode(s)[..limit] == first + rest;
        DecodeFirstInverts(s[0], rest);
        assert (first + rest)[|first|..] == rest;
        DecodeCut(s[1..], limit - |first|);
      }
    }
  }
}

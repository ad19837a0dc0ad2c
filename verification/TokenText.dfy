/** Stock option type, used for SQL NULL and for look-ups that may find nothing. */
module Wrappers {
  datatype Option<+T> = None | Some(value: T)
}

/** The text of a refresh token: a signed JWT, a dot, and random bytes printed in hexadecimal.
    The printer is named after base64 in the source, but it writes two lower-case
    hexadecimal digits for each byte (base16, section 8 of RFC 4648). */
module TokenText {
  import opened Wrappers

  newtype byte = x: int | 0 <= x < 256

  const HEX_DIGITS := "0123456789abcdef"

  function HexByte(b: byte): (s: string)
    ensures |s| == 2
  {
    [HEX_DIGITS[b as int / 16], HEX_DIGITS[b as int % 16]]
  }

  function HexEncode(data: seq<byte>): (s: string)
    ensures |s| == 2 * |data|
  {
    if data == [] then "" else HexEncode(data[..|data| - 1]) + HexByte(data[|data| - 1])
  }

  /** The printing loop: one formatted byte appended per round. */
  method Base64UrlEncode(data: seq<byte>) returns (result: string)
    ensures result == HexEncode(data)
  {
    result := "";
    for i := 0 to |data|
      invariant result == HexEncode(data[..i])
    {
      assert data[..i + 1][..i] == data[..i];
      result := result + HexByte(data[i]);
    }
    assert data[..|data|] == data;
  }

  function HexValue(c: char): (v: Option<int>)
    ensures v.Some? ==> 0 <= v.value < 16 && HEX_DIGITS[v.value] == c
  {
    if '0' <= c <= '9' then Some(c as int - '0' as int)
    else if 'a' <= c <= 'f' then Some(c as int - 'a' as int + 10)
    else None
  }

  function HexPair(high: char, low: char): (b: Option<byte>) {
    match (HexValue(high), HexValue(low))
    case (Some(hi), Some(lo)) => Some((16 * hi + lo) as byte)
    case _ => None
  }

  lemma HexQuotient(hi: int, lo: int)
    requires 0 <= lo < 16
    ensures (16 * hi + lo) / 16 == hi && (16 * hi + lo) % 16 == lo
  {
  }

  lemma PairIsPrinted(high: char, low: char)
    requires HexPair(high, low).Some?
    ensures HexByte(HexPair(high, low).value) == [high, low]
  {
    HexQuotient(HexValue(high).value, HexValue(low).value);
  }

  lemma HexValueOfDigit(v: int)
    requires 0 <= v < 16
    ensures HexValue(HEX_DIGITS[v]) == Some(v)
    ensures HEX_DIGITS[v] != '.'
  {
  }

  lemma PairOfPrinted(b: byte)
    ensures HexPair(HexByte(b)[0], HexByte(b)[1]) == Some(b)
  {
    HexValueOfDigit(b as int / 16);
    HexValueOfDigit(b as int % 16);
  }

  /** Reads back what the printer wrote; the source never needs to, the proofs do. */
  function HexDecode(s: string): (d: Option<seq<byte>>)
  {
    if s == "" then Some([])
    else if |s| == 1 then None
    else
      var n := |s| - 2;
      match (HexDecode(s[..n]), HexPair(s[n], s[n + 1]))
      case (Some(front), Some(b)) => Some(front + [b])
      case _ => None
  }

  lemma {:induction false} DecodeLastByte(s: string, b: byte)
    requires HexDecode(s).Some?
    ensures HexDecode(s + HexByte(b)) == Some(HexDecode(s).value + [b])
  {
    var t := s + HexByte(b);
    PairOfPrinted(b);
    assert t[..|t| - 2] == s;
  }

  lemma AppendByte(data: seq<byte>, b: byte)
    ensures HexEncode(data + [b]) == HexEncode(data) + HexByte(b)
  {
    assert (data + [b])[..|data|] == data;
  }

  lemma {:induction false} DecodeEncode(data: seq<byte>)
    ensures HexDecode(HexEncode(data)) == Some(data)
  {
    if data != [] {
      var front, last := data[..|data| - 1], data[|data| - 1];
      assert data == front + [last];
      AppendByte(front, last);
      DecodeEncode(front);
      DecodeLastByte(HexEncode(front), last);
    }
  }

  lemma {:induction false} EncodeDecode(s: string)
    requires HexDecode(s).Some?
    ensures HexEncode(HexDecode(s).value) == s
  {
    if s != "" {
      var n := |s| - 2;
      EncodeDecode(s[..n]);
      PairIsPrinted(s[n], s[n + 1]);
      AppendByte(HexDecode(s[..n]).value, HexPair(s[n], s[n + 1]).value);
      assert s == s[..n] + [s[n], s[n + 1]];
    }
  }

  /** The printer is injective: two byte strings with one spelling are equal. */
  lemma EncodeInjective(a: seq<byte>, b: seq<byte>)
    requires HexEncode(a) == HexEncode(b)
    ensures a == b
  {
    DecodeEncode(a);
    DecodeEncode(b);
  }

  lemma {:induction false} HexHasNoDot(data: seq<byte>)
    ensures '.' !in HexEncode(data)
  {
    if data != [] {
      var last := data[|data| - 1];
      HexHasNoDot(data[..|data| - 1]);
      HexValueOfDigit(last as int / 16);
      HexValueOfDigit(last as int % 16);
    }
  }

  function Join(jwt: string, token: string): string {
    jwt + "." + token
  }

  /** Splits at the last dot, as rsplitn(2, '.') does: the JWT part and the random part,
      or nothing when there is no dot. */
  function SplitAtLastDot(s: string): (parts: Option<(string, string)>)
  {
    if s == "" then None
    else
      var n := |s| - 1;
      if s[n] == '.' then Some((s[..n], ""))
      else
        match SplitAtLastDot(s[..n])
        case None => None
        case Some((jwt, token)) => Some((jwt, token + [s[n]]))
  }

  /** Parsing undoes printing for any JWT text, dots included. */
  lemma {:induction false} SplitJoin(jwt: string, token: string)
    requires '.' !in token
    ensures SplitAtLastDot(Join(jwt, token)) == Some((jwt, token))
  {
    var s := Join(jwt, token);
    if token == "" {
      assert s[..|s| - 1] == jwt;
    } else {
      var front := token[..|token| - 1];
      assert token == front + [token[|token| - 1]];
      assert s[..|s| - 1] == Join(jwt, front);
      SplitJoin(jwt, front);
    }
  }

  /** Printing undoes parsing, and exactly the strings with a dot parse. */
  lemma {:induction false} JoinSplit(s: string)
    ensures SplitAtLastDot(s).Some? <==> '.' in s
    ensures SplitAtLastDot(s).Some? ==>
      var parts := SplitAtLastDot(s).value;
      Join(parts.0, parts.1) == s && '.' !in parts.1
  {
    if s != "" {
      var n := |s| - 1;
      assert s == s[..n] + [s[n]];
      JoinSplit(s[..n]);
    }
  }

  /** A printed token splits into its two parts, whatever the JWT looks like. */
  lemma TokenSplits(jwt: string, data: seq<byte>)
    ensures SplitAtLastDot(Join(jwt, HexEncode(data))) == Some((jwt, HexEncode(data)))
  {
    HexHasNoDot(data);
    SplitJoin(jwt, HexEncode(data));
  }
}

/**
 * Text helpers shared by the IGES sections: the 72-column split of a data
 * string, the Hollerith form `nH...` of a string (IGES 5.3, section 2.2.2.3)
 * and the decimal form of an integer.
 */
module IgsSection {
  import opened Wrappers
  import opened Decimal

  /** The number of data columns on one line of a section. */
  const MaxDataLength: nat := 72

  /** The chunks put back together. */
  function Concat(chunks: seq<string>): (s: string)
    ensures |chunks| == 0 ==> s == []
  {
    if chunks == [] then [] else Concat(chunks[..|chunks| - 1]) + chunks[|chunks| - 1]
  }

  /**
   * `SplitString`: a missing string gives no chunk; otherwise the chunks put
   * back together are the string, none is empty or longer than 72
   * characters, every chunk but the last is exactly 72 long, and so there
   * are len/72 chunks, rounded up.
   */
  method SplitString(data: Option<string>) returns (result: seq<string>)
    ensures data.None? ==> result == []
    ensures data.Some? ==> Concat(result) == data.value
    ensures data.Some? ==> |result| == (|data.value| + MaxDataLength - 1) / MaxDataLength
    ensures forall i | 0 <= i < |result| :: 1 <= |result[i]| <= MaxDataLength
    ensures forall i | 0 <= i < |result| - 1 :: |result[i]| == MaxDataLength
  {
    result := [];
    if data.Some? {
      var s := data.value;
      var index := 0;
      while index < |s|
        invariant 0 <= index <= |s|
        invariant Concat(result) == s[..index]
        invariant forall i | 0 <= i < |result| :: 1 <= |result[i]| <= MaxDataLength
        invariant index < |s| ==> forall i | 0 <= i < |result| :: |result[i]| == MaxDataLength
        invariant forall i | 0 <= i < |result| - 1 :: |result[i]| == MaxDataLength
        invariant index <= MaxDataLength * |result|
        invariant index == MaxDataLength * |result| || (index == |s| && MaxDataLength * (|result| - 1) < index)
        decreases |s| - index
      {
        var length := if MaxDataLength < |s| - index then MaxDataLength else |s| - index;
        var chunk := s[index..index + length];
        assert s[..index + length] == s[..index] + chunk;
        assert (result + [chunk])[..|result|] == result;
        result := result + [chunk];
        index := index + length;
      }
      assert s[..index] == s;
    }
  }

  /** `Format(string)`: the length in decimal, the letter H, then the characters themselves. */
  function FormatString(str: string): (r: string)
    ensures |r| == |NatToString(|str|)| + 1 + |str|
    ensures r[|r| - |str|..] == str && r[|r| - |str| - 1] == 'H'
  {
    IntToString(|str|) + "H" + str
  }

  /**
   * Reads one Hollerith string from the front of `s`: the digits give the
   * count, an H follows, then exactly that many characters.  Returns the
   * string and the rest of the input.
   */
  function ParseHollerith(s: string): (r: Option<(string, string)>)
    ensures r.Some? ==> |r.value.0| + |r.value.1| < |s|
  {
    var k := DigitPrefixLength(s);
    if k == 0 || k >= |s| || s[k] != 'H' then None
    else
      var n := DigitsValue(s[..k]);
      if k + 1 + n > |s| then None else Some((s[k + 1..k + 1 + n], s[k + 1 + n..]))
  }

  /** Reading back a formatted string, whatever follows it, gives the string and what follows. */
  lemma HollerithRoundTrip(str: string, rest: string)
    ensures ParseHollerith(FormatString(str) + rest) == Some((str, rest))
  {
    var digits := NatToString(|str|);
    var s := FormatString(str) + rest;
    assert s == digits + ("H" + str + rest);
    DigitPrefixOfDigits(digits, "H" + str + rest);
    assert s[..|digits|] == digits;
    NatToStringValue(|str|);
    var k := |digits|;
    assert s[k + 1..k + 1 + |str|] == str;
    assert s[k + 1 + |str|..] == rest;
  }

  /** `Format(int)`: the plain decimal rendering, which reads back as the same integer. */
  function FormatInt(value: int): (r: string)
    ensures ParseInt(r) == Some(value)
    ensures |r| > 0 && (value < 0 <==> r[0] == '-')
  {
    IntToStringRoundTrip(value);
    IntToString(value)
  }
}

/** The Instamart product-id codec: two percent-encoded parts around a bar
    (connectors/swiggyinstamart/connector.go; section 2.1 of RFC 3986, with '+' for a space). */
module ProductIds {
  import opened Results
  import opened Text

  /** A string of bytes, one per character. */
  type Bytes = s: string | IsBytes(s) witness ""

  predicate IsBytes(s: string) {
    forall i | 0 <= i < |s| :: s[i] as int < 256
  }

  predicate Unreserved(c: char) {
    'a' <= c <= 'z' || 'A' <= c <= 'Z' || '0' <= c <= '9' || c == '-' || c == '_' || c == '.' || c == '~'
  }

  function HexDigit(n: nat): char
    requires n < 16
  {
    if n < 10 then (n + 48) as char else (n + 55) as char
  }

  function HexValue(c: char): Option<nat> {
    if '0' <= c <= '9' then Some(c as int - 48)
    else if 'A' <= c <= 'F' then Some(c as int - 55)
    else if 'a' <= c <= 'f' then Some(c as int - 87)
    else None
  }

  function EscapeByte(c: char): string
    requires c as int < 256
  {
    if Unreserved(c) then [c]
    else if c == ' ' then ['+']
    else ['%', HexDigit(c as int / 16), HexDigit(c as int % 16)]
  }

  function Escape(s: Bytes): string {
    if s == "" then "" else EscapeByte(s[0]) + Escape(s[1..])
  }

  function Unescape(s: string): Result<string, Error> {
    if s == "" then Ok("")
    else if s[0] == '%' then
      if |s| < 3 then Err(Invalid)
      else
        var hi, lo := HexValue(s[1]), HexValue(s[2]);
        if hi == None || lo == None then Err(Invalid)
        else
          var rest := Unescape(s[3..]);
          if rest.Err? then rest else Ok([(16 * hi.value + lo.value) as char] + rest.value)
    else
      var rest := Unescape(s[1..]);
      if rest.Err? then rest else Ok([if s[0] == '+' then ' ' else s[0]] + rest.value)
  }

  function EncodeProductId(spin: Bytes, sku: Bytes): string {
    Escape(spin) + ['|'] + Escape(sku)
  }

  function DecodeProductId(id: string): Result<(string, string), Error> {
    var parts := Cut(id, '|');
    var spin, sku := Unescape(parts.0), Unescape(parts.1);
    if spin.Err? || sku.Err? || spin.value == "" then Err(Invalid) else Ok((spin.value, sku.value))
  }

  lemma HexRoundTrip(n: nat)
    requires n < 256
    ensures HexValue(HexDigit(n / 16)) == Some(n / 16) && HexValue(HexDigit(n % 16)) == Some(n % 16)
  {
  }

  lemma {:induction false} EscapeHasNoBar(s: Bytes)
    ensures '|' !in Escape(s)
  {
    if s != "" {
      EscapeHasNoBar(s[1..]);
      var c := s[0];
      assert '|' !in EscapeByte(c) by {
        if !Unreserved(c) && c != ' ' {
          HexRoundTrip(c as int);
        }
      }
    }
  }

  lemma {:induction false} UnescapeEscape(s: Bytes)
    ensures Unescape(Escape(s)) == Ok(s)
  {
    if s != "" {
      var c, rest := s[0], Escape(s[1..]);
      UnescapeEscape(s[1..]);
      var e := EscapeByte(c) + rest;
      assert s == [c] + s[1..];
      if Unreserved(c) || c == ' ' {
        assert e[1..] == rest;
      } else {
        HexRoundTrip(c as int);
        assert e[0] == '%' && e[1] == HexDigit(c as int / 16) && e[2] == HexDigit(c as int % 16);
        assert e[3..] == rest;
        assert 16 * (c as int / 16) + c as int % 16 == c as int;
      }
    }
  }

  /** Decoding undoes encoding, for every pair of byte strings with a spin id. */
  lemma DecodeEncode(spin: Bytes, sku: Bytes)
    ensures DecodeProductId(EncodeProductId(spin, sku)) == if spin == "" then Err(Invalid) else Ok((spin, sku))
  {
    EscapeHasNoBar(spin);
    EscapeHasNoBar(sku);
    UnescapeEscape(spin);
    UnescapeEscape(sku);
    var id := EncodeProductId(spin, sku);
    var parts := Cut(id, '|');
    CutRejoins(id, '|');
    assert id[|Escape(spin)|] == '|';
    assert parts.2;
    SplitUnique(parts.0, Escape(spin), parts.1, Escape(sku), '|');
  }

  /** Different pairs never share a product id, not even without a spin id. */
  lemma EncodeInjective(spin: Bytes, sku: Bytes, spin': Bytes, sku': Bytes)
    requires EncodeProductId(spin, sku) == EncodeProductId(spin', sku')
    ensures spin == spin' && sku == sku'
  {
    EscapeHasNoBar(spin);
    EscapeHasNoBar(spin');
    SplitUnique(Escape(spin), Escape(spin'), Escape(sku), Escape(sku'), '|');
    UnescapeEscape(spin);
    UnescapeEscape(spin');
    UnescapeEscape(sku);
    UnescapeEscape(sku');
  }
}

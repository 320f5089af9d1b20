/**
 * The wire form of a signed token. The real tokens are base64url-encoded
 * JSON signed with HMAC by the `jsonwebtoken` library; the model keeps only
 * what verification needs: the claims, and the signing key standing for the
 * signature (an ideal MAC, which only the same key reproduces). The claims are
 * laid out as length-prefixed fields, `<decimal length>:<text>`, so that
 * decoding the encoding of a token gives the token back.
 */
module TokenCodec {
  import opened Wrappers
  import opened Text

  /** The claims the backend puts into a token: `{ adminId, email, role }`. */
  datatype Payload = Payload(adminId: nat, email: string, role: string)

  /**
   * A signed token: its payload, the registered claims `iat` and `exp`
   * (seconds, section 4.1.6 and 4.1.4 of RFC 7519), `iss` and `aud`
   * (sections 4.1.1 and 4.1.3), and the key it was signed with.
   */
  datatype Jwt = Jwt(payload: Payload, iat: nat, exp: nat, iss: string, aud: string, key: string)

  predicate AllDigits(s: string) {
    forall i | 0 <= i < |s| :: IsDigit(s[i])
  }

  function DigitChar(d: nat): (c: char)
    requires d < 10
    ensures IsDigit(c)
  {
    ('0' as int + d) as char
  }

  function DigitValue(c: char): (d: nat)
    requires IsDigit(c)
    ensures d < 10
  {
    c as int - '0' as int
  }

  /** The decimal numeral of `n`, as `String(n)` writes it. */
  function NatToDecimal(n: nat): (r: string)
    ensures |r| > 0 && AllDigits(r)
    decreases n
  {
    if n < 10 then [DigitChar(n)] else NatToDecimal(n / 10) + [DigitChar(n % 10)]
  }

  function DecimalToNat(s: string): nat
    requires AllDigits(s)
    decreases |s|
  {
    if s == [] then 0 else 10 * DecimalToNat(s[..|s| - 1]) + DigitValue(s[|s| - 1])
  }

  lemma {:induction false} DecimalRoundTrip(n: nat)
    ensures DecimalToNat(NatToDecimal(n)) == n
    decreases n
  {
    var s := NatToDecimal(n);
    if n >= 10 {
      DecimalRoundTrip(n / 10);
      assert s[..|s| - 1] == NatToDecimal(n / 10);
    }
  }

  /** The index of the first ':' in `s`, if there is one. */
  function IndexOfColon(s: string): (r: Option<nat>)
    ensures r.Some? ==> r.value < |s| && s[r.value] == ':'
    ensures r.Some? ==> forall j | 0 <= j < r.value :: s[j] != ':'
    ensures r.None? ==> forall j | 0 <= j < |s| :: s[j] != ':'
  {
    if s == [] then None
    else if s[0] == ':' then Some(0)
    else match IndexOfColon(s[1..])
      case None => None
      case Some(k) => Some(k + 1)
  }

  function EncodeField(x: string): string {
    NatToDecimal(|x|) + ":" + x
  }

  /** Reads one field off the front of `s`: the field's text and what follows it. */
  function DecodeField(s: string): Option<(string, string)> {
    match IndexOfColon(s)
    case None => None
    case Some(k) =>
      var digits := s[..k];
      if digits == [] || !AllDigits(digits) then None
      else
        var n := DecimalToNat(digits);
        if k + 1 + n > |s| then None else Some((s[k + 1..k + 1 + n], s[k + 1 + n..]))
  }

  lemma FieldRoundTrip(x: string, rest: string)
    ensures DecodeField(EncodeField(x) + rest) == Some((x, rest))
  {
    var d := NatToDecimal(|x|);
    var s := EncodeField(x) + rest;
    assert s == d + ([':'] + (x + rest));
    assert s[|d|] == ':';
    assert forall j | 0 <= j < |d| :: s[j] == d[j] && IsDigit(s[j]);
    var k := IndexOfColon(s);
    assert k == Some(|d|);
    assert s[..|d|] == d;
    DecimalRoundTrip(|x|);
    assert s[|d| + 1..|d| + 1 + |x|] == x;
    assert s[|d| + 1 + |x|..] == rest;
  }

  /** Reads a field that must hold a decimal numeral. */
  function DecodeNatField(s: string): Option<(nat, string)> {
    var (text, rest) :- DecodeField(s);
    if text != [] && AllDigits(text) then Some((DecimalToNat(text), rest)) else None
  }

  lemma NatFieldRoundTrip(n: nat, rest: string)
    ensures DecodeNatField(EncodeField(NatToDecimal(n)) + rest) == Some((n, rest))
  {
    FieldRoundTrip(NatToDecimal(n), rest);
    DecimalRoundTrip(n);
  }

  /** The compact serialization of a token. */
  function Encode(t: Jwt): string {
    EncodeField(NatToDecimal(t.payload.adminId))
    + (EncodeField(t.payload.email)
    + (EncodeField(t.payload.role)
    + (EncodeField(NatToDecimal(t.iat))
    + (EncodeField(NatToDecimal(t.exp))
    + (EncodeField(t.iss)
    + (EncodeField(t.aud)
    + EncodeField(t.key)))))))
  }

  /** Parses a token string; `None` for anything that is not a well-formed token. */
  function Decode(s: string): Option<Jwt> {
    var (adminId, s1) :- DecodeNatField(s);
    var (email, s2) :- DecodeField(s1);
    var (role, s3) :- DecodeField(s2);
    var (iat, s4) :- DecodeNatField(s3);
    var (exp, s5) :- DecodeNatField(s4);
    var (iss, s6) :- DecodeField(s5);
    var (aud, s7) :- DecodeField(s6);
    var (key, s8) :- DecodeField(s7);
    if s8 == [] then Some(Jwt(Payload(adminId, email, role), iat, exp, iss, aud, key)) else None
  }

  /** Decoding the serialization of a token gives the token back. */
  lemma DecodeEncode(t: Jwt)
    ensures Decode(Encode(t)) == Some(t)
  {
    var s8: string := [];
    var s7 := EncodeField(t.key);
    assert s7 == EncodeField(t.key) + s8;
    var s6 := EncodeField(t.aud) + s7;
    var s5 := EncodeField(t.iss) + s6;
    var s4 := EncodeField(NatToDecimal(t.exp)) + s5;
    var s3 := EncodeField(NatToDecimal(t.iat)) + s4;
    var s2 := EncodeField(t.payload.role) + s3;
    var s1 := EncodeField(t.payload.email) + s2;
    var s := EncodeField(NatToDecimal(t.payload.adminId)) + s1;
    assert s == Encode(t);
    NatFieldRoundTrip(t.payload.adminId, s1);
    FieldRoundTrip(t.payload.email, s2);
    FieldRoundTrip(t.payload.role, s3);
    NatFieldRoundTrip(t.iat, s4);
    NatFieldRoundTrip(t.exp, s5);
    FieldRoundTrip(t.iss, s6);
    FieldRoundTrip(t.aud, s7);
    FieldRoundTrip(t.key, s8);
  }

  /** Distinct tokens have distinct serializations. */
  lemma EncodeInjective(t1: Jwt, t2: Jwt)
    requires Encode(t1) == Encode(t2)
    ensures t1 == t2
  {
    DecodeEncode(t1);
    DecodeEncode(t2);
  }
}

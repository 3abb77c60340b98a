/**
 * The postal-code (CEP) validator both services apply at their own boundary,
 * and the request body `{"cep": ...}` the gateway forwards.
 */
module Cep {
  import opened Wrappers

  /** A decoded request body; the decoder keeps the `cep` field and drops every other. */
  datatype CepRequest = CepRequest(cep: string)

  /** RE2's `\d`: ASCII decimal digits only. */
  predicate IsDigit(c: char) {
    '0' <= c <= '9'
  }

  /** Reference definition of a well-formed postal code: exactly eight ASCII digits. */
  predicate ValidCep(s: string) {
    |s| == 8 && forall i :: 0 <= i < |s| ==> IsDigit(s[i])
  }

  /**
   * Anchored match of `\d{n}`: consume one digit per repetition, then
   * `$`, which (no multi-line flag) holds only at the end of the text, so
   * a trailing newline is not accepted.
   */
  function MatchDigits(s: string, n: nat): (m: bool)
    ensures m ==> |s| == n
    decreases n
  {
    if n == 0 then s == []
    else |s| > 0 && IsDigit(s[0]) && MatchDigits(s[1..], n - 1)
  }

  /** `cepRe.MatchString` for the pattern `^\d{8}$`. */
  function MatchString(s: string): (m: bool)
    ensures m ==> |s| == 8
  {
    MatchDigits(s, 8)
  }

  lemma {:induction false} MatchDigitsIff(s: string, n: nat)
    ensures MatchDigits(s, n) <==> |s| == n && forall i :: 0 <= i < |s| ==> IsDigit(s[i])
    decreases n
  {
    if n > 0 && |s| > 0 {
      MatchDigitsIff(s[1..], n - 1);
      if IsDigit(s[0]) && |s| == n && !MatchDigits(s, n) {
        var i :| 0 <= i < |s[1..]| && !IsDigit(s[1..][i]);
        assert !IsDigit(s[i + 1]);
      }
    }
  }

  /** The regex matcher accepts exactly the well-formed postal codes. */
  lemma MatchStringIsValidCep(s: string)
    ensures MatchString(s) <==> ValidCep(s)
  {
    MatchDigitsIff(s, 8);
  }

  /** Sample inputs: leading zeros are fine; short strings, separators and a trailing newline are not. */
  lemma MatchStringExamples()
    ensures MatchString("01001000")
    ensures MatchString("00000000")
    ensures !MatchString("abc")
    ensures !MatchString("")
    ensures !MatchString("01001-000")
    ensures !MatchString("0100100a")
    ensures !MatchString("01001000\n")
  {
    MatchStringIsValidCep("01001000");
    MatchStringIsValidCep("00000000");
    MatchStringIsValidCep("0100100a");
    assert !IsDigit("0100100a"[7]);
  }

  const BodyPrefix := "{\"cep\":\""
  const BodySuffix := "\"}"

  /**
   * What `json.Marshal` produces for a request whose cep passed validation:
   * the single field `cep`, no whitespace; eight digits need no escaping.
   */
  function EncodeCepRequest(req: CepRequest): (body: string)
    requires ValidCep(req.cep)
    ensures |body| == |BodyPrefix| + 8 + |BodySuffix|
    ensures body[|BodyPrefix|..|BodyPrefix| + 8] == req.cep
  {
    BodyPrefix + req.cep + BodySuffix
  }

  /** A character that may stand unescaped inside a JSON string. */
  predicate Unescaped(c: char) {
    c != '"' && c != '\\' && c >= ' '
  }

  /**
   * Decoder for the canonical one-field body; anything not of exactly that
   * shape (or whose string would need an escape) is rejected.
   */
  function ParseCepRequest(body: string): (r: Option<CepRequest>)
    ensures r.Some? ==> body == BodyPrefix + r.value.cep + BodySuffix
    ensures r.Some? ==> forall i :: 0 <= i < |r.value.cep| ==> Unescaped(r.value.cep[i])
  {
    var lo := |BodyPrefix|;
    if |body| < lo + |BodySuffix| then None
    else
      var hi := |body| - |BodySuffix|;
      var inner := body[lo..hi];
      if body[..lo] == BodyPrefix && body[hi..] == BodySuffix
         && forall i :: 0 <= i < |inner| ==> Unescaped(inner[i])
      then
        assert body == body[..lo] + inner + body[hi..];
        Some(CepRequest(inner))
      else None
  }

  /** Decoding the forwarded body gives back exactly the request that was encoded. */
  lemma ParseEncodeRoundTrip(req: CepRequest)
    requires ValidCep(req.cep)
    ensures ParseCepRequest(EncodeCepRequest(req)) == Some(req)
  {
    var body := EncodeCepRequest(req);
    var lo := |BodyPrefix|;
    var hi := |body| - |BodySuffix|;
    assert body[..lo] == BodyPrefix;
    assert body[hi..] == BodySuffix;
    assert body[lo..hi] == req.cep;
    forall i | 0 <= i < |req.cep|
      ensures Unescaped(req.cep[i])
    {
      assert IsDigit(req.cep[i]);
    }
  }
}

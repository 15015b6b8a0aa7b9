/** Tanzanian phone-number normalisation, provider lookup and the pipe that
    validates a phone parameter (`PhoneUtils`, `PhoneValidationPipe`). */
module Phone {
  import opened Text

  datatype PaymentProvider = Tigo | Mpesa | Airtel | Halopesa | Azampesa

  const TigoPrefixes: seq<string> := ["25571", "25565", "25567"]
  const MpesaPrefixes: seq<string> := ["25574", "25575", "25576"]
  const AirtelPrefixes: seq<string> := ["25578", "25568", "25569"]
  const HalopesaPrefixes: seq<string> := ["25561", "25562"]

  /** `convertToStandardFormat`: strip every non-digit, then map a local
      `0…` number and a bare `7…` number onto the `255` country code. The
      branch for a leading `+` is kept although no digit string has one. */
  function ConvertToStandardFormat(phone: string): (r: string)
    ensures AllDigits(r)
    ensures var d := DigitsOnly(phone);
      if StartsWith(d, "0") then r == "255" + d[1..]
      else if StartsWith(d, "255") then r == d
      else if StartsWith(d, "7") then r == "255" + d
      else r == d
  {
    var cleaned := DigitsOnly(phone);
    if StartsWith(cleaned, "0") then "255" + cleaned[1..]
    else if StartsWith(cleaned, "255") then cleaned
    else if StartsWith(cleaned, "7") then "255" + cleaned
    else if StartsWith(cleaned, "+") then Rest(cleaned)
    else cleaned
  }

  /** The `+` branch of the conversion is dead code: the cleaned number is
      all digits, so it never starts with `+`. */
  lemma {:induction false} PlusBranchUnreachable(phone: string)
    ensures !StartsWith(DigitsOnly(phone), "+")
  {
    var d := DigitsOnly(phone);
    if |d| > 0 {
      assert IsDigit(d[0]);
    }
  }

  /** Standardising an already standard number changes nothing. */
  lemma {:induction false} ConvertIdempotent(phone: string)
    ensures ConvertToStandardFormat(ConvertToStandardFormat(phone)) == ConvertToStandardFormat(phone)
  {
    var r := ConvertToStandardFormat(phone);
    assert DigitsOnly(r) == r;
    if |r| > 0 && r[0] == '0' {
      var d := DigitsOnly(phone);
      assert !StartsWith(d, "0") && !StartsWith(d, "255") && !StartsWith(d, "7") && r == d;
    }
  }

  /** `isValidPhoneNumber`: starts with the country code and has 12 characters. */
  predicate IsValidPhoneNumber(phone: string): (ok: bool)
    ensures ok ==> |Prefix(phone, 5)| == 5 && StartsWith(Prefix(phone, 5), "255")
  {
    StartsWith(phone, "255") && |phone| == 12
  }

  /** `filterPhoneNumber`: the standardised number when it is valid. */
  function FilterPhoneNumber(phone: string): (r: Option<string>)
    ensures r.Some? <==> IsValidPhoneNumber(ConvertToStandardFormat(phone))
    ensures r.Some? ==> r.value == ConvertToStandardFormat(phone)
  {
    var converted := ConvertToStandardFormat(phone);
    if IsValidPhoneNumber(converted) then Some(converted) else None
  }

  /** `determineProvider`: look the first five digits of the standardised
      number up in the prefix lists, in the order Tigo, Mpesa, Airtel,
      Halopesa; anything else is Azampesa. */
  function DetermineProvider(phone: string): (p: PaymentProvider)
    ensures var prefix := Prefix(ConvertToStandardFormat(phone), 5);
      && (p == Tigo <==> prefix in TigoPrefixes)
      && (p == Mpesa <==> prefix in MpesaPrefixes)
      && (p == Airtel <==> prefix in AirtelPrefixes)
      && (p == Halopesa <==> prefix in HalopesaPrefixes)
      && (p == Azampesa <==> prefix !in TigoPrefixes + MpesaPrefixes + AirtelPrefixes + HalopesaPrefixes)
  {
    var prefix := Prefix(ConvertToStandardFormat(phone), 5);
    if prefix in TigoPrefixes then Tigo
    else if prefix in MpesaPrefixes then Mpesa
    else if prefix in AirtelPrefixes then Airtel
    else if prefix in HalopesaPrefixes then Halopesa
    else Azampesa
  }

  /** No prefix belongs to two providers, so the lookup order does not matter. */
  lemma {:induction false} PrefixListsDisjoint()
    ensures forall p :: p in TigoPrefixes ==> p !in MpesaPrefixes + AirtelPrefixes + HalopesaPrefixes
    ensures forall p :: p in MpesaPrefixes ==> p !in AirtelPrefixes + HalopesaPrefixes
    ensures forall p :: p in AirtelPrefixes ==> p !in HalopesaPrefixes
  {
  }

  datatype PipeResult = Transformed(value: string) | BadRequest(message: string)

  const InvalidPhoneMessage := "Invalid phone number format. Must be a valid Tanzanian number."

  /** `PhoneValidationPipe.transform`: the filtered number, or BadRequest
      when the filter gives nothing (the empty string would also be refused,
      but the filter never returns it). */
  function Transform(value: string): (r: PipeResult)
    ensures r.BadRequest? <==> FilterPhoneNumber(value).None?
    ensures r.BadRequest? ==> r.message == InvalidPhoneMessage
    ensures r.Transformed? ==> r.value == ConvertToStandardFormat(value)
    ensures r.Transformed? ==> StartsWith(r.value, "255") && |r.value| == 12 && AllDigits(r.value)
  {
    var standardized := FilterPhoneNumber(value);
    if !TruthyStr(standardized) then BadRequest(InvalidPhoneMessage) else Transformed(standardized.value)
  }

  /** A valid standard number passes the pipe unchanged. */
  lemma {:induction false} TransformKeepsStandardNumber(value: string)
    requires AllDigits(value) && IsValidPhoneNumber(value)
    ensures Transform(value) == Transformed(value)
  {
    assert DigitsOnly(value) == value;
    assert StartsWith(value, "255");
    assert value[0] == '2';
  }

  /** The pipe's output is a fixed point of the pipe. */
  lemma {:induction false} TransformIdempotent(value: string)
    requires Transform(value).Transformed?
    ensures Transform(Transform(value).value) == Transform(value)
  {
    TransformKeepsStandardNumber(Transform(value).value);
  }
}

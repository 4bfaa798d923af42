/**
 * The two WhatsApp phone normalisers. Both strip every non-digit and map a leading
 * "0" to the Indonesian prefix "62"; they differ on a number with neither prefix:
 * the stock-alert service prepends "62", the supplier notifier leaves it as it is.
 */
module Phone {
  import opened Common
  import opened Text

  /** `normalizePhone` of the stock-alert service (`String(phone || '')` first). */
  function NormalizePhone(phone: Option<string>): (r: Option<string>)
    ensures r.None? <==> KeepDigits(phone.GetOr("")) == []
    ensures r.Some? ==> AllDigits(r.value) && StartsWith(r.value, "62")
    ensures var p := KeepDigits(phone.GetOr(""));
      StartsWith(p, "62") ==> r == Some(p)
    ensures var p := KeepDigits(phone.GetOr(""));
      !StartsWith(p, "62") && StartsWith(p, "0") ==> r == Some("62" + p[1..])
    ensures var p := KeepDigits(phone.GetOr(""));
      p != [] && !StartsWith(p, "62") && !StartsWith(p, "0") ==> r == Some("62" + p)
  {
    var p := KeepDigits(phone.GetOr(""));
    if p == [] then None
    else if StartsWith(p, "62") then Some(p)
    else if StartsWith(p, "0") then Some("62" + p[1..])
    else Some("62" + p)
  }

  /** Normalising an already normalised number changes nothing. */
  lemma NormalizePhoneIdempotent(phone: Option<string>)
    requires NormalizePhone(phone).Some?
    ensures NormalizePhone(NormalizePhone(phone)) == NormalizePhone(phone)
  {
    var r := NormalizePhone(phone).value;
    KeepDigitsOfDigits(r);
  }

  /** `normalizePhoneTo62` of the supplier notifier: a falsy input is rejected up front. */
  function NormalizePhoneTo62(raw: Option<string>): (r: Option<string>)
    ensures (raw.None? || raw.value == []) ==> r.None?
    ensures r.None? <==> (raw.None? || KeepDigits(raw.value) == [])
    ensures r.Some? ==> AllDigits(r.value) && |r.value| > 0 && !StartsWith(r.value, "0")
    ensures r.Some? && !StartsWith(KeepDigits(raw.value), "62") && !StartsWith(KeepDigits(raw.value), "0")
      ==> r.value == KeepDigits(raw.value)
    ensures raw.Some? && StartsWith(KeepDigits(raw.value), "62") ==> r == Some(KeepDigits(raw.value))
    ensures raw.Some? && !StartsWith(KeepDigits(raw.value), "62") && StartsWith(KeepDigits(raw.value), "0")
      ==> r == Some("62" + KeepDigits(raw.value)[1..])
  {
    if raw.None? || raw.value == [] then None
    else
      var digits := KeepDigits(raw.value);
      if digits == [] then None
      else if StartsWith(digits, "62") then
        assert digits[0] == digits[..2][0] == '6';
        Some(digits)
      else if StartsWith(digits, "0") then Some("62" + digits[1..])
      else Some(digits)
  }

  /** Normalising an already normalised number changes nothing. */
  lemma NormalizePhoneTo62Idempotent(raw: Option<string>)
    requires NormalizePhoneTo62(raw).Some?
    ensures NormalizePhoneTo62(NormalizePhoneTo62(raw)) == NormalizePhoneTo62(raw)
  {
    var r := NormalizePhoneTo62(raw).value;
    KeepDigitsOfDigits(r);
  }

  /**
   * The two normalisers agree on numbers whose digits start with "0" or "62", and
   * disagree on every other number: only the stock-alert one prepends "62".
   */
  lemma NormalisersAgreeExactlyOnPrefixed(raw: string)
    requires KeepDigits(raw) != []
    ensures NormalizePhone(Some(raw)) == NormalizePhoneTo62(Some(raw))
            <==> (StartsWith(KeepDigits(raw), "62") || StartsWith(KeepDigits(raw), "0"))
  {
    var d := KeepDigits(raw);
    if !StartsWith(d, "62") && !StartsWith(d, "0") {
      assert |"62" + d| != |d|;
    }
  }
}

/** Stripe customer to Metronome customer request: pure functions of the payload. */
module CustomerMapper {
  import opened Wrappers
  import opened Json

  datatype MapError = MissingId | NoDisplayName

  datatype CustomerRequest = CustomerRequest(name: string, ingestAliases: seq<string>, stripeCustomerId: string)

  /** The characters `str.strip` removes. */
  predicate IsSpace(c: char) {
    var n := c as int;
    || 0x09 <= n <= 0x0d || 0x1c <= n <= 0x20 || n == 0x85 || n == 0xa0 || n == 0x1680
    || 0x2000 <= n <= 0x200a || n == 0x2028 || n == 0x2029 || n == 0x202f || n == 0x205f || n == 0x3000
  }

  predicate Trimmed(s: string) {
    s == "" || (!IsSpace(s[0]) && !IsSpace(s[|s| - 1]))
  }

  predicate AllSpace(s: string) {
    forall k :: 0 <= k < |s| ==> IsSpace(s[k])
  }

  lemma MoreSpace(c: char, s: string)
    requires IsSpace(c) && AllSpace(s)
    ensures AllSpace([c] + s) && AllSpace(s + [c])
  {
    hide IsSpace;
  }

  function StripLeft(s: string): (r: string)
    ensures |r| <= |s| && r == s[|s| - |r|..] && AllSpace(s[..|s| - |r|])
    ensures r == "" || !IsSpace(r[0])
  {
    if s != "" && IsSpace(s[0]) then
      hide IsSpace, AllSpace;
      var r := StripLeft(s[1..]);
      MoreSpace(s[0], s[1..][..|s| - 1 - |r|]);
      assert s[..|s| - |r|] == [s[0]] + s[1..][..|s| - 1 - |r|];
      r
    else s
  }

  function StripRight(s: string): (r: string)
    ensures |r| <= |s| && r == s[..|r|] && AllSpace(s[|r|..])
    ensures r == "" || !IsSpace(r[|r| - 1])
  {
    var n := |s| - 1;
    if s != "" && IsSpace(s[n]) then
      hide IsSpace, AllSpace;
      var r := StripRight(s[..n]);
      MoreSpace(s[n], s[..n][|r|..]);
      assert s[|r|..] == s[..n][|r|..] + [s[n]];
      r
    else s
  }

  lemma LeftStripsToNothing(s: string)
    ensures StripLeft(s) == "" <==> AllSpace(s)
  {
    hide IsSpace;
    var r := StripLeft(s);
    if r == "" {
      assert s[..|s|] == s;
    } else {
      assert r[0] == s[|s| - |r|];
    }
  }

  lemma RightStripsToNothing(s: string)
    ensures StripRight(s) == "" <==> AllSpace(s)
  {
    hide IsSpace;
    var r := StripRight(s);
    if r == "" {
      assert s[|r|..] == s;
    } else {
      assert r[|r| - 1] == s[|r| - 1];
    }
  }

  /** A left-stripped text that is not empty starts with a visible character, so stripping its right end leaves something. */
  lemma StripsToNothing(s: string)
    ensures StripRight(StripLeft(s)) == "" <==> AllSpace(s)
  {
    hide StripLeft, StripRight, IsSpace;
    var left := StripLeft(s);
    LeftStripsToNothing(s);
    RightStripsToNothing(left);
    if left != "" {
      assert !IsSpace(left[0]);
    }
  }

  /** `str.strip`: the text without its leading and trailing white space. */
  function Strip(s: string): (r: string)
    ensures Trimmed(r) && (r == "" <==> AllSpace(s))
  {
    var left := StripLeft(s);
    var r := StripRight(left);
    StripsToNothing(s);
    r
  }

  /** Only white space is removed, and only at the two ends. */
  lemma StripKeepsMiddle(s: string)
    ensures exists i, j :: 0 <= i <= j <= |s| && Strip(s) == s[i..j] && AllSpace(s[..i]) && AllSpace(s[j..])
  {
    var left := StripLeft(s);
    var i := |s| - |left|;
    var j := i + |Strip(s)|;
    assert Strip(s) == s[i..j];
    assert s[j..] == left[|Strip(s)|..];
  }

  /** A text that is more than white space, stripped. */
  function VisibleText(value: Json): Option<string> {
    if value.JString? && Strip(value.text) != "" then Some(Strip(value.text)) else None
  }

  /** `_resolve_display_name`: the name, or else the e-mail address, or else an error. */
  function DisplayName(customer: Object): Result<string, MapError> {
    match VisibleText(Get(customer, "name"))
    case Some(name) => Ok(name)
    case None =>
      match VisibleText(Get(customer, "email"))
      case Some(email) => Ok(email)
      case None => Err(NoDisplayName)
  }

  /** `stripe_customer_to_metronome_request`. */
  function CustomerRequestFor(customer: Object): (r: Result<CustomerRequest, MapError>)
    ensures r.Ok? <==> NonEmptyString(Get(customer, "id")).Some? && DisplayName(customer).Ok?
  {
    match NonEmptyString(Get(customer, "id"))
    case None => Err(MissingId)
    case Some(id) =>
      var name :- DisplayName(customer);
      Ok(CustomerRequest(name, [id], id))
  }

  predicate HasVisibleCharacter(value: Json) {
    value.JString? && exists k :: 0 <= k < |value.text| && !IsSpace(value.text[k])
  }

  lemma VisibleIff(value: Json)
    ensures VisibleText(value).Some? <==> HasVisibleCharacter(value)
    ensures VisibleText(value).Some? ==> VisibleText(value).value == Strip(value.text) && Strip(value.text) != ""
  {
  }

  /**
   A customer can be mapped exactly when it has an id and its name or its e-mail address has a
   character that is not white space. The name sent is the stripped name if that shows anything and the
   stripped e-mail address if not; it is never empty and has no space at either end.
   */
  lemma MappableIff(customer: Object)
    ensures CustomerRequestFor(customer).Ok? <==>
              && NonEmptyString(Get(customer, "id")).Some?
              && (HasVisibleCharacter(Get(customer, "name")) || HasVisibleCharacter(Get(customer, "email")))
    ensures CustomerRequestFor(customer).Ok? ==>
              var name := CustomerRequestFor(customer).value.name;
              && name != "" && Trimmed(name)
              && name == Strip(if HasVisibleCharacter(Get(customer, "name")) then Get(customer, "name").text else Get(customer, "email").text)
  {
    hide Strip, IsSpace;
    VisibleIff(Get(customer, "name"));
    VisibleIff(Get(customer, "email"));
  }
}

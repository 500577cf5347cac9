/** The field and form validators of `CustomerForm` (customers/forms.py). */
module CustomerForm {

  import opened Wrappers
  import opened Text

  /** The `ValidationError` messages the validators raise. */
  datatype FormError = NameRequired | PhoneNotDigits | ExampleEmail | CompanyNeedsAddress

  /** The domain rejected by the example rule, matched case-sensitively. */
  const BannedEmailDomain: string := "@example.com"

  /** `clean_name`: the stripped name, rejected when nothing is left. */
  function CleanName(raw: Option<string>): (r: Result<string, FormError>)
    ensures r.Ok? <==> Strip(raw.GetOr("")) != ""
    ensures r.Ok? ==> r.value == Strip(raw.GetOr("")) && r.value != ""
    ensures r.Err? ==> r.error == NameRequired
  {
    var name := Strip(raw.GetOr(""));
    if name == "" then Err(NameRequired) else Ok(name)
  }

  /** `clean_phone`: the stripped phone, which must be non-empty and all
      digits, so a blank phone is rejected. */
  function CleanPhone(raw: Option<string>): (r: Result<string, FormError>)
    ensures r.Ok? <==> IsDigits(Strip(raw.GetOr("")))
    ensures r.Ok? ==> r.value == Strip(raw.GetOr("")) && |r.value| > 0
    ensures r.Err? ==> r.error == PhoneNotDigits
  {
    var phone := Strip(raw.GetOr(""));
    if !IsDigits(phone) then Err(PhoneNotDigits) else Ok(phone)
  }

  /** `clean_email`: the stripped email, unless it mentions "@example.com". */
  function CleanEmail(raw: Option<string>): (r: Result<string, FormError>)
    ensures r.Ok? <==> !Contains(Strip(raw.GetOr("")), BannedEmailDomain)
    ensures r.Ok? ==> r.value == Strip(raw.GetOr(""))
    ensures r.Err? ==> r.error == ExampleEmail
  {
    var email := Strip(raw.GetOr(""));
    if Contains(email, BannedEmailDomain) then Err(ExampleEmail) else Ok(email)
  }

  /** `clean`: the cross-field rule. `address` is `None` when the field is
      missing from the cleaned data. */
  function CleanForm(customerType: Option<string>, address: Option<string>): (r: Result<(), FormError>)
    ensures r.Err? <==> customerType == Some("company") && (address == None || address == Some(""))
    ensures r.Err? ==> r.error == CompanyNeedsAddress
  {
    if customerType == Some("company") && (address == None || address == Some("")) then Err(CompanyNeedsAddress)
    else Ok(())
  }

  /** The customer types the model declares: "BUS" and "IND". */
  predicate DeclaredCustomerType(t: string)
  {
    t == "BUS" || t == "IND"
  }

  /** With the declared choices the company-address rule can never fire. */
  lemma CompanyRuleNeverFires(t: string, address: Option<string>)
    requires DeclaredCustomerType(t)
    ensures CleanForm(Some(t), address).Ok?
  {
  }

  /** Each field cleaner accepts its own output and returns it unchanged. */
  lemma CleanersIdempotent(raw: Option<string>)
    ensures CleanName(raw).Ok? ==> CleanName(Some(CleanName(raw).value)) == CleanName(raw)
    ensures CleanPhone(raw).Ok? ==> CleanPhone(Some(CleanPhone(raw).value)) == CleanPhone(raw)
    ensures CleanEmail(raw).Ok? ==> CleanEmail(Some(CleanEmail(raw).value)) == CleanEmail(raw)
  {
    StripIdempotent(raw.GetOr(""));
  }

  /** A phone made only of whitespace is rejected. */
  lemma BlankPhoneRejected(raw: string)
    requires AllSpace(raw)
    ensures CleanPhone(Some(raw)) == Err(PhoneNotDigits)
  {
    StripAllSpace(raw);
  }
}

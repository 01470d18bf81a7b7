/**
 * The string attribute validators: a null/unknown guard, then a lookup in a fixed
 * `map[string]bool` literal or an anchored regular expression, and at most one
 * attribute error at the request path.
 */
module Validators {
  import opened Values

  datatype Validator = TaxCategory | DiscountType | CurrencyCode | CountryCode | TaxMode | Interval

  const ValidTaxCategories: map<string, bool> := map[
    "standard" := true,
    "digital-goods" := true,
    "ebooks" := true,
    "implementation-services" := true,
    "professional-services" := true,
    "saas" := true,
    "software-programming-services" := true,
    "training-services" := true
  ]

  const ValidDiscountTypes: map<string, bool> := map["percentage" := true, "flat" := true, "flat_per_seat" := true]

  const ValidTaxModes: map<string, bool> := map["account_setting" := true, "internal" := true, "external" := true]

  const ValidIntervals: map<string, bool> := map["day" := true, "week" := true, "month" := true, "year" := true]

  /** Go's `m[k]` on a `map[string]bool`: a missing key reads as false. */
  function Lookup(m: map<string, bool>, k: string): bool
  {
    k in m && m[k]
  }

  predicate IsUpperAscii(c: char)
  {
    'A' <= c <= 'Z'
  }

  /** `[A-Z]*` matched against the whole string, one character at a time. */
  predicate UpperRun(s: string)
    decreases |s|
  {
    |s| == 0 || (IsUpperAscii(s[0]) && UpperRun(s[1..]))
  }

  /** `regexp.MatchString("^[A-Z]{n}$", s)`; Go's `$` matches only at the end of the text. */
  predicate MatchesUpperLetters(s: string, n: nat)
  {
    |s| == n && UpperRun(s)
  }

  predicate Accepts(v: Validator, s: string)
  {
    match v
    case TaxCategory => Lookup(ValidTaxCategories, s)
    case DiscountType => Lookup(ValidDiscountTypes, s)
    case CurrencyCode => MatchesUpperLetters(s, 3)
    case CountryCode => MatchesUpperLetters(s, 2)
    case TaxMode => Lookup(ValidTaxModes, s)
    case Interval => Lookup(ValidIntervals, s)
  }

  /** The summary line of the attribute error each validator reports. */
  function InvalidSummary(v: Validator): string
  {
    match v
    case TaxCategory => "Invalid Tax Category"
    case DiscountType => "Invalid Discount Type"
    case CurrencyCode => "Invalid Currency Code"
    case CountryCode => "Invalid Country Code"
    case TaxMode => "Invalid Tax Mode"
    case Interval => "Invalid Interval"
  }

  /**
   * `ValidateString`: the diagnostics it appends for one configured value at `path`.
   * Null and unknown values are never checked; a rejected value yields exactly one
   * attribute error, at `path`.
   */
  function ValidateString(v: Validator, path: string, config: Cfg<string>): (diags: seq<Diagnostic>)
    ensures !config.Known? ==> diags == []
    ensures |diags| <= 1
    ensures diags == [] <==> !config.Known? || Accepts(v, config.value)
    ensures forall d :: d in diags ==> d == AttributeError(path, InvalidSummary(v))
  {
    if config.Null? || config.Unknown? then []
    else if !Accepts(v, config.value) then [AttributeError(path, InvalidSummary(v))]
    else []
  }

  /** The regular-expression form and the per-character form of "all upper-case letters" agree. */
  lemma {:induction false} UpperRunIsForall(s: string)
    ensures UpperRun(s) <==> forall i :: 0 <= i < |s| ==> IsUpperAscii(s[i])
    decreases |s|
  {
    if |s| > 0 {
      UpperRunIsForall(s[1..]);
      assert forall i :: 1 <= i < |s| ==> s[i] == s[1..][i - 1];
    }
  }

  /** The currency-code validator accepts exactly the strings of three upper-case ASCII letters. */
  lemma CurrencyCodeShape(s: string)
    ensures Accepts(CurrencyCode, s) <==> |s| == 3 && forall i :: 0 <= i < 3 ==> 'A' <= s[i] <= 'Z'
  {
    UpperRunIsForall(s);
  }

  /** The country-code validator accepts exactly the strings of two upper-case ASCII letters. */
  lemma CountryCodeShape(s: string)
    ensures Accepts(CountryCode, s) <==> |s| == 2 && forall i :: 0 <= i < 2 ==> 'A' <= s[i] <= 'Z'
  {
    UpperRunIsForall(s);
  }

  /** The tax-category validator accepts exactly the eight listed categories. */
  lemma TaxCategoryAcceptsExactly(s: string)
    ensures Accepts(TaxCategory, s) <==>
      s in {"standard", "digital-goods", "ebooks", "implementation-services",
            "professional-services", "saas", "software-programming-services", "training-services"}
  {
  }

  /** The discount-type validator accepts exactly percentage, flat and flat_per_seat. */
  lemma DiscountTypeAcceptsExactly(s: string)
    ensures Accepts(DiscountType, s) <==> s in {"percentage", "flat", "flat_per_seat"}
  {
  }

  /** The tax-mode validator accepts exactly account_setting, internal and external. */
  lemma TaxModeAcceptsExactly(s: string)
    ensures Accepts(TaxMode, s) <==> s in {"account_setting", "internal", "external"}
  {
  }

  /** The interval validator accepts exactly day, week, month and year. */
  lemma IntervalAcceptsExactly(s: string)
    ensures Accepts(Interval, s) <==> s in {"day", "week", "month", "year"}
  {
  }

  /** The rejections listed in the validator table tests. */
  lemma EnumerationTableCases(path: string)
    ensures ValidateString(TaxCategory, path, Known("invalid")) == [AttributeError(path, "Invalid Tax Category")]
    ensures ValidateString(TaxCategory, path, Known("")) != []
    ensures ValidateString(TaxCategory, path, Known("saas")) == []
    ensures ValidateString(DiscountType, path, Known("invalid")) != []
    ensures ValidateString(DiscountType, path, Known("")) != []
    ensures ValidateString(TaxMode, path, Known("invalid")) != []
    ensures ValidateString(TaxMode, path, Known("")) != []
    ensures ValidateString(Interval, path, Known("quarter")) != []
    ensures ValidateString(Interval, path, Known("")) != []
  {
  }

  /** The currency-code table tests: USD, EUR, GBP pass; usd, US, USDD, US1 and "" fail. */
  lemma CurrencyCodeTableCases()
    ensures Accepts(CurrencyCode, "USD") && Accepts(CurrencyCode, "EUR") && Accepts(CurrencyCode, "GBP")
    ensures !Accepts(CurrencyCode, "usd") && !Accepts(CurrencyCode, "US") && !Accepts(CurrencyCode, "USDD")
    ensures !Accepts(CurrencyCode, "US1") && !Accepts(CurrencyCode, "")
  {
    CurrencyCodeShape("USD");
    CurrencyCodeShape("EUR");
    CurrencyCodeShape("GBP");
    CurrencyCodeShape("usd");
    CurrencyCodeShape("US1");
  }

  /** The country-code table tests: US, GB, FR pass; us, U, USA, U1 and "" fail. */
  lemma CountryCodeTableCases()
    ensures Accepts(CountryCode, "US") && Accepts(CountryCode, "GB") && Accepts(CountryCode, "FR")
    ensures !Accepts(CountryCode, "us") && !Accepts(CountryCode, "U") && !Accepts(CountryCode, "USA")
    ensures !Accepts(CountryCode, "U1") && !Accepts(CountryCode, "")
  {
    CountryCodeShape("US");
    CountryCodeShape("GB");
    CountryCodeShape("FR");
    CountryCodeShape("us");
    CountryCodeShape("U1");
  }
}

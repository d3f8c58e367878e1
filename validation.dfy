/** validation.go: the pre-flight validators, the supported-currency query and
    amount truncation. Every validator is a chain of guard clauses that
    returns the first failure, or nil. */
module Validation {

  import opened Optional
  import opened Text
  import opened Errors
  import opened Records

  const MinCardDigits: nat := 13
  const MaxCardDigits: nat := 19
  const MinExpiryYear: int := 2020
  const MaxExpiryYear: int := 2099

  // ---------------------------------------------------------------------------
  // Card details

  /** The card-number pattern `^\d{13,19}$`: 13 to 19 ASCII digits, nothing else. */
  predicate MatchesCardPattern(t: string)
  {
    MinCardDigits <= |t| <= MaxCardDigits && AllDigits(t)
  }

  /** The guard clauses of `ValidateCardDetails` for a non-nil card, in order. */
  function CardGuards(c: CardDetails): seq<Outcome>
  {
    [ Check(MatchesCardPattern(RemoveSpaces(c.number)), Sentinel(InvalidCardNumber)),
      Check(1 <= c.expiryMonth <= 12, Wrapped("", Sentinel(InvalidExpiryDate), ": month must be 1-12")),
      Check(MinExpiryYear <= c.expiryYear <= MaxExpiryYear,
            Wrapped("", Sentinel(InvalidExpiryDate), ": year must be 2020-2099")),
      Check(3 <= ByteLen(c.cvv) <= 4, Sentinel(InvalidCVV)),
      Check(TrimSpace(c.holderName) != "", Message("holder name cannot be empty")) ]
  }

  /** `ValidateCardDetails`: the first failing check, or `Pass`. */
  function ValidateCardDetails(card: Option<CardDetails>): (r: Outcome)
    ensures card.None? ==> r == Fail(Message("card details cannot be nil"))
  {
    if card.None? then Fail(Message("card details cannot be nil"))
    else
      var c := card.value;
      if !MatchesCardPattern(RemoveSpaces(c.number)) then Fail(Sentinel(InvalidCardNumber))
      else if c.expiryMonth < 1 || c.expiryMonth > 12 then
        Fail(Wrapped("", Sentinel(InvalidExpiryDate), ": month must be 1-12"))
      else if c.expiryYear < MinExpiryYear || c.expiryYear > MaxExpiryYear then
        Fail(Wrapped("", Sentinel(InvalidExpiryDate), ": year must be 2020-2099"))
      else if ByteLen(c.cvv) < 3 || ByteLen(c.cvv) > 4 then Fail(Sentinel(InvalidCVV))
      else if TrimSpace(c.holderName) == "" then Fail(Message("holder name cannot be empty"))
      else Pass
  }

  /** The guard-clause chain reports exactly the first failing guard of
      `CardGuards`: the checks run in the order number, month, year, CVV,
      holder name. */
  lemma CardDetailsFirstFailure(c: CardDetails)
    ensures ValidateCardDetails(Some(c)) == FirstFailure(CardGuards(c))
  {
    var gs := CardGuards(c);
    assert gs == [gs[0]] + ([gs[1]] + ([gs[2]] + ([gs[3]] + ([gs[4]] + []))));
    FirstFailureStep(gs[4], []);
    FirstFailureStep(gs[3], [gs[4]] + []);
    FirstFailureStep(gs[2], [gs[3]] + ([gs[4]] + []));
    FirstFailureStep(gs[1], [gs[2]] + ([gs[3]] + ([gs[4]] + [])));
    FirstFailureStep(gs[0], [gs[1]] + ([gs[2]] + ([gs[3]] + ([gs[4]] + []))));
  }

  /** The card-number rule read declaratively: only digits and U+0020
      spaces, with 13 to 19 digits. Any other character, a tab included,
      makes the number invalid. */
  predicate CardNumberOk(number: string)
  {
    (forall i :: 0 <= i < |number| ==> IsDigit(number[i]) || number[i] == ' ') &&
    MinCardDigits <= |number| - multiset(number)[' '] <= MaxCardDigits
  }

  /** Deleting the spaces and matching `^\d{13,19}$` is the declarative rule. */
  lemma CardNumberRule(number: string)
    ensures MatchesCardPattern(RemoveSpaces(number)) <==> CardNumberOk(number)
  {
    var t := RemoveSpaces(number);
    RemoveSpacesSpec(number);
    assert forall c :: c in t <==> c in number && c != ' ' by {
      forall c ensures c in t <==> c in number && c != ' ' {
        assert c in t <==> multiset(t)[c] > 0;
        assert c in number <==> multiset(number)[c] > 0;
      }
    }
    if AllDigits(t) {
      forall i | 0 <= i < |number| ensures IsDigit(number[i]) || number[i] == ' ' {
        if number[i] != ' ' {
          assert number[i] in t;
          var j :| 0 <= j < |t| && t[j] == number[i];
        }
      }
    }
    if forall i :: 0 <= i < |number| ==> IsDigit(number[i]) || number[i] == ' ' {
      forall j | 0 <= j < |t| ensures IsDigit(t[j]) {
        assert t[j] in number;
      }
    }
  }

  /** A card that passes every check. */
  predicate WellFormedCard(c: CardDetails)
  {
    CardNumberOk(c.number) &&
    1 <= c.expiryMonth <= 12 &&
    MinExpiryYear <= c.expiryYear <= MaxExpiryYear &&
    3 <= ByteLen(c.cvv) <= 4 &&
    NotBlank(c.holderName)
  }

  /** A present card passes iff it is well formed; a nil card never passes. */
  lemma CardDetailsPass(card: Option<CardDetails>)
    ensures ValidateCardDetails(card) == Pass <==> card.Some? && WellFormedCard(card.value)
  {
    if card.Some? {
      CardNumberRule(card.value.number);
      TrimSpaceEmpty(card.value.holderName);
    }
  }

  /** Which sentinel a failing card reports: each kind exactly when its check
      is the first to fail. The month is checked before the year, so a bad
      month is reported whatever the year. */
  lemma CardDetailsKinds(c: CardDetails)
    ensures var r := ValidateCardDetails(Some(c));
      var dateOk := 1 <= c.expiryMonth <= 12 && MinExpiryYear <= c.expiryYear <= MaxExpiryYear;
      (r.Fail? && Is(r.error, InvalidCardNumber) <==> !CardNumberOk(c.number)) &&
      (r.Fail? && Is(r.error, InvalidExpiryDate) <==> CardNumberOk(c.number) && !dateOk) &&
      (r.Fail? && Is(r.error, InvalidCVV) <==>
         CardNumberOk(c.number) && dateOk && !(3 <= ByteLen(c.cvv) <= 4)) &&
      (r == Fail(Message("holder name cannot be empty")) <==>
         CardNumberOk(c.number) && dateOk && 3 <= ByteLen(c.cvv) <= 4 &&
         forall i :: 0 <= i < |c.holderName| ==> IsSpace(c.holderName[i]))
    ensures CardNumberOk(c.number) && !(1 <= c.expiryMonth <= 12) ==>
      ErrorString(ValidateCardDetails(Some(c)).error) == "invalid expiry date: month must be 1-12"
  {
    CardKindsByGuards(c);
    CardNumberRule(c.number);
    TrimSpaceEmpty(c.holderName);
  }

  /** `CardDetailsKinds` stated on the guard conditions as the source writes
      them: the pattern on the space-free number and the trimmed holder name. */
  lemma CardKindsByGuards(c: CardDetails)
    ensures var r := ValidateCardDetails(Some(c));
      var numberOk := MatchesCardPattern(RemoveSpaces(c.number));
      var dateOk := 1 <= c.expiryMonth <= 12 && MinExpiryYear <= c.expiryYear <= MaxExpiryYear;
      (r.Fail? && Is(r.error, InvalidCardNumber) <==> !numberOk) &&
      (r.Fail? && Is(r.error, InvalidExpiryDate) <==> numberOk && !dateOk) &&
      (r.Fail? && Is(r.error, InvalidCVV) <==> numberOk && dateOk && !(3 <= ByteLen(c.cvv) <= 4)) &&
      (r == Fail(Message("holder name cannot be empty")) <==>
         numberOk && dateOk && 3 <= ByteLen(c.cvv) <= 4 && TrimSpace(c.holderName) == "")
    ensures MatchesCardPattern(RemoveSpaces(c.number)) && !(1 <= c.expiryMonth <= 12) ==>
      ErrorString(ValidateCardDetails(Some(c)).error) == "invalid expiry date: month must be 1-12"
  {
  }

  /** A run of digits followed by one space loses only the space. */
  lemma DigitGroup(g: string, rest: string)
    requires AllDigits(g)
    ensures RemoveSpaces(g + " " + rest) == g + RemoveSpaces(rest)
  {
    RemoveSpacesConcat(g + " ", rest);
    RemoveSpacesConcat(g, " ");
    RemoveSpacesSpec(g);
  }

  /** A number written as four groups of four digits separated by single
      spaces passes the number check. */
  lemma GroupedCardNumber(a: string, b: string, c: string, d: string)
    requires |a| == |b| == |c| == |d| == 4
    requires AllDigits(a) && AllDigits(b) && AllDigits(c) && AllDigits(d)
    ensures MatchesCardPattern(RemoveSpaces(a + " " + b + " " + c + " " + d))
  {
    var s := a + " " + b + " " + c + " " + d;
    assert s == a + " " + (b + " " + (c + " " + d));
    DigitGroup(a, b + " " + (c + " " + d));
    DigitGroup(b, c + " " + d);
    DigitGroup(c, d);
    RemoveSpacesSpec(d);
    var t := a + (b + (c + d));
    assert RemoveSpaces(s) == t;
    forall i | 0 <= i < 16 ensures IsDigit(t[i]) {
      if i < 4 { assert t[i] == a[i]; }
      else if i < 8 { assert t[i] == b[i - 4]; }
      else if i < 12 { assert t[i] == c[i - 8]; }
      else { assert t[i] == d[i - 12]; }
    }
  }

  /** A number with spaces between its digit groups passes: the spaces are
      deleted before the pattern is matched. */
  lemma SpacedCardNumberExample()
    ensures MatchesCardPattern(RemoveSpaces("4111 1111 1111 1111"))
  {
    assert "4111 1111 1111 1111" == "4111" + " " + "1111" + " " + "1111" + " " + "1111";
    GroupedCardNumber("4111", "1111", "1111", "1111");
  }

  /** Too few digits fail. */
  lemma ShortCardNumberExample()
    ensures !MatchesCardPattern(RemoveSpaces("123"))
  {
  }

  /** A tab is not deleted, so a tab anywhere makes the number fail, whatever
      digits surround it. */
  lemma TabbedCardNumberExample(before: string, after: string)
    ensures !MatchesCardPattern(RemoveSpaces(before + "\t" + after))
  {
    var tabbed := before + "\t" + after;
    CardNumberRule(tabbed);
    assert tabbed[|before|] == '\t';
  }

  /** More than 19 digits fail. */
  lemma LongCardNumberExample()
    ensures !MatchesCardPattern(RemoveSpaces("4111111111111111123456"))
  {
    var long := "4111111111111111123456";
    assert ' ' !in long;
    RemoveSpacesSpec(long);
  }

  /** Starting from any card that passes: the month and year bounds are
      inclusive and reported before the CVV; only the CVV's byte length is
      checked (letters pass, and a two-character CVV of three bytes passes);
      a holder name of white space alone is empty. */
  lemma CardFieldExamples(c: CardDetails)
    requires WellFormedCard(c)
    ensures ValidateCardDetails(Some(c)) == Pass
    ensures ValidateCardDetails(Some(c.(expiryMonth := 13)))
      == Fail(Wrapped("", Sentinel(InvalidExpiryDate), ": month must be 1-12"))
    ensures ValidateCardDetails(Some(c.(expiryMonth := 0, expiryYear := 2100)))
      == Fail(Wrapped("", Sentinel(InvalidExpiryDate), ": month must be 1-12"))
    ensures ValidateCardDetails(Some(c.(expiryYear := 2019, cvv := "")))
      == Fail(Wrapped("", Sentinel(InvalidExpiryDate), ": year must be 2020-2099"))
    ensures ValidateCardDetails(Some(c.(expiryMonth := 1, expiryYear := 2020))) == Pass
    ensures ValidateCardDetails(Some(c.(expiryMonth := 12, expiryYear := 2099))) == Pass
    ensures ValidateCardDetails(Some(c.(cvv := "abcd"))) == Pass
    ensures ValidateCardDetails(Some(c.(cvv := "\U{E9}1"))) == Pass
    ensures ValidateCardDetails(Some(c.(cvv := "12"))) == Fail(Sentinel(InvalidCVV))
    ensures ValidateCardDetails(Some(c.(holderName := " \t ")))
      == Fail(Message("holder name cannot be empty"))
  {
    CardDetailsPass(Some(c));
    CardNumberRule(c.number);
    TrimSpaceEmpty(" \t ");
  }

  // ---------------------------------------------------------------------------
  // Payment requests

  /** The last check of `ValidatePaymentRequest`: present card details are
      validated and a failure is wrapped by
      `fmt.Errorf("invalid card details: %w", err)`. */
  function CardDetailsGuard(details: Option<CardDetails>): (g: Outcome)
    ensures g.Fail? <==> details.Some? && ValidateCardDetails(details).Fail?
  {
    if details.None? then Pass
    else match ValidateCardDetails(details)
      case Pass => Pass
      case Fail(e) => Fail(Wrapped("invalid card details: ", e, ""))
  }

  /** The guard clauses of `ValidatePaymentRequest` for a non-nil request, in order. */
  function PaymentGuards(r: PaymentRequest): seq<Outcome>
  {
    [ Check(r.amount > 0.0, Sentinel(InvalidAmount)),
      Check(r.currency != "", Sentinel(InvalidCurrency)),
      Check(ByteLen(r.currency) == 3,
            Wrapped("", Sentinel(InvalidCurrency), ": currency must be 3 characters")),
      Check(TrimSpace(r.merchantId) != "", Message("merchant ID cannot be empty")),
      Check(r.cardToken != "" || r.cardDetails.Some?,
            Message("either card token or card details must be provided")),
      CardDetailsGuard(r.cardDetails) ]
  }

  /** `ValidatePaymentRequest`. */
  function ValidatePaymentRequest(req: Option<PaymentRequest>): (v: Outcome)
    ensures req.None? ==> v == Fail(Message("payment request cannot be nil"))
  {
    if req.None? then Fail(Message("payment request cannot be nil"))
    else
      var r := req.value;
      if r.amount <= 0.0 then Fail(Sentinel(InvalidAmount))
      else if r.currency == "" then Fail(Sentinel(InvalidCurrency))
      else if ByteLen(r.currency) != 3 then
        Fail(Wrapped("", Sentinel(InvalidCurrency), ": currency must be 3 characters"))
      else if TrimSpace(r.merchantId) == "" then Fail(Message("merchant ID cannot be empty"))
      else if r.cardToken == "" && r.cardDetails.None? then
        Fail(Message("either card token or card details must be provided"))
      else if r.cardDetails.Some? && ValidateCardDetails(r.cardDetails).Fail? then
        Fail(Wrapped("invalid card details: ", ValidateCardDetails(r.cardDetails).error, ""))
      else Pass
  }

  /** The guard-clause chain reports exactly the first failing guard of
      `PaymentGuards`: amount, empty currency, currency length, merchant,
      payment method, card details. */
  lemma PaymentFirstFailure(r: PaymentRequest)
    ensures ValidatePaymentRequest(Some(r)) == FirstFailure(PaymentGuards(r))
  {
    var gs := PaymentGuards(r);
    assert gs == [gs[0]] + ([gs[1]] + ([gs[2]] + ([gs[3]] + ([gs[4]] + ([gs[5]] + [])))));
    FirstFailureStep(gs[5], []);
    FirstFailureStep(gs[4], [gs[5]] + []);
    FirstFailureStep(gs[3], [gs[4]] + ([gs[5]] + []));
    FirstFailureStep(gs[2], [gs[3]] + ([gs[4]] + ([gs[5]] + [])));
    FirstFailureStep(gs[1], [gs[2]] + ([gs[3]] + ([gs[4]] + ([gs[5]] + []))));
    FirstFailureStep(gs[0], [gs[1]] + ([gs[2]] + ([gs[3]] + ([gs[4]] + ([gs[5]] + [])))));
  }

  /** `strings.TrimSpace(s) != ""`: some character is not white space. */
  predicate NotBlank(s: string)
  {
    exists i :: 0 <= i < |s| && !IsSpace(s[i])
  }

  /** A payment request that passes every check. The supported-currency list
      plays no part, and a card token is only compared with "". */
  predicate WellFormedPayment(r: PaymentRequest)
  {
    r.amount > 0.0 &&
    ByteLen(r.currency) == 3 &&
    NotBlank(r.merchantId) &&
    (r.cardToken != "" || r.cardDetails.Some?) &&
    (r.cardDetails.Some? ==> WellFormedCard(r.cardDetails.value))
  }

  lemma PaymentPass(req: Option<PaymentRequest>)
    ensures ValidatePaymentRequest(req) == Pass <==> req.Some? && WellFormedPayment(req.value)
  {
    if req.Some? {
      TrimSpaceEmpty(req.value.merchantId);
      CardDetailsPass(req.value.cardDetails);
    }
  }

  /** A card failure never carries the amount or currency sentinel. */
  lemma CardFailureKinds(card: Option<CardDetails>)
    ensures ValidateCardDetails(card).Fail? ==>
      !Is(ValidateCardDetails(card).error, InvalidAmount) &&
      !Is(ValidateCardDetails(card).error, InvalidCurrency)
  {
  }

  /** The amount and currency sentinels: a non-positive amount is always
      `ErrInvalidAmount`; a positive amount with a currency that is not three
      bytes long is `ErrInvalidCurrency`, bare when the currency is empty. */
  lemma PaymentAmountCurrencyKinds(r: PaymentRequest)
    ensures var v := ValidatePaymentRequest(Some(r));
      (v.Fail? && Is(v.error, InvalidAmount) <==> r.amount <= 0.0) &&
      (v.Fail? && Is(v.error, InvalidCurrency) <==> r.amount > 0.0 && ByteLen(r.currency) != 3) &&
      (r.amount > 0.0 && r.currency == "" ==> v == Fail(Sentinel(InvalidCurrency)))
  {
    CardFailureKinds(r.cardDetails);
  }

  /** A card-details failure inside a payment request keeps its kind: the
      request fails with kind `k` of the card checks exactly when the earlier
      checks pass and the card fails with `k`; the text gains the prefix
      "invalid card details: ". */
  lemma PaymentCardKinds(r: PaymentRequest, k: Kind)
    requires k != InvalidAmount && k != InvalidCurrency
    ensures var v := ValidatePaymentRequest(Some(r));
      var inner := ValidateCardDetails(r.cardDetails);
      (v.Fail? && Is(v.error, k)) <==>
        (r.amount > 0.0 && ByteLen(r.currency) == 3 && NotBlank(r.merchantId) &&
         r.cardDetails.Some? && inner.Fail? && Is(inner.error, k))
    ensures var v := ValidatePaymentRequest(Some(r));
      var inner := ValidateCardDetails(r.cardDetails);
      r.amount > 0.0 && ByteLen(r.currency) == 3 && NotBlank(r.merchantId) &&
      r.cardDetails.Some? && inner.Fail? ==>
        v == Fail(Wrapped("invalid card details: ", inner.error, "")) &&
        ErrorString(v.error) == "invalid card details: " + ErrorString(inner.error)
  {
    TrimSpaceEmpty(r.merchantId);
  }

  /** Gaps the checks leave open: a currency outside the supported list
      passes, a token of white space alone counts as a payment method, and
      card details are still validated when a token is also given. */
  lemma PaymentQuirks(r: PaymentRequest, bad: CardDetails)
    requires r.amount > 0.0 && NotBlank(r.merchantId)
    requires !WellFormedCard(bad)
    ensures ValidatePaymentRequest(Some(r.(currency := "XXX", cardToken := "tok", cardDetails := None))) == Pass
    ensures ValidatePaymentRequest(Some(r.(currency := "USD", cardToken := " ", cardDetails := None))) == Pass
    ensures ValidatePaymentRequest(Some(r.(currency := "USD", cardToken := "tok", cardDetails := Some(bad)))).Fail?
  {
    PaymentPass(Some(r.(currency := "XXX", cardToken := "tok", cardDetails := None)));
    PaymentPass(Some(r.(currency := "USD", cardToken := " ", cardDetails := None)));
    PaymentPass(Some(r.(currency := "USD", cardToken := "tok", cardDetails := Some(bad))));
  }

  // ---------------------------------------------------------------------------
  // Token requests

  /** `ValidateTokenRequest`: card details are mandatory, and their
      validation result is returned as it is, without a wrapper. */
  function ValidateTokenRequest(req: Option<TokenRequest>): (v: Outcome)
    ensures req.None? ==> v == Fail(Message("token request cannot be nil"))
    ensures req.Some? && req.value.cardDetails.None? ==>
      v == Fail(Message("card details are required for token creation"))
    ensures req.Some? && req.value.cardDetails.Some? ==> v == ValidateCardDetails(req.value.cardDetails)
  {
    if req.None? then Fail(Message("token request cannot be nil"))
    else if req.value.cardDetails.None? then Fail(Message("card details are required for token creation"))
    else ValidateCardDetails(req.value.cardDetails)
  }

  lemma TokenRequestPass(req: Option<TokenRequest>)
    ensures ValidateTokenRequest(req) == Pass <==>
      req.Some? && req.value.cardDetails.Some? && WellFormedCard(req.value.cardDetails.value)
  {
    if req.Some? {
      CardDetailsPass(req.value.cardDetails);
    }
  }

  // ---------------------------------------------------------------------------
  // Supported currencies

  /** `SupportedCurrencies()`: twenty ISO 4217 alphabetic codes. */
  const SupportedCurrencies: seq<string> :=
    [ "USD", "EUR", "GBP", "CAD", "AUD", "JPY", "CHF", "SGD", "HKD", "SEK",
      "NOK", "DKK", "PLN", "CZK", "HUF", "ILS", "MXN", "BRL", "ARS", "CLP" ]

  const KelvinSign: char := '\U{212A}'
  const LongS: char := '\U{017F}'

  predicate IsUpper(c: char)
  {
    'A' <= c <= 'Z'
  }

  predicate IsLower(c: char)
  {
    'a' <= c <= 'z'
  }

  predicate UpperLetters(s: string)
  {
    forall i :: 0 <= i < |s| ==> IsUpper(s[i])
  }

  /** Whether `strings.EqualFold` treats character `c` as equal to the ASCII
      character `a`: the same character, the other case of a letter, or, for
      K and S, the Kelvin sign U+212A and the long s U+017F, which Unicode
      simple case folding puts in the same class. */
  predicate FoldsTo(c: char, a: char)
  {
    c == a ||
    (IsUpper(a) && c as int == a as int + 32) ||
    (IsLower(a) && c as int == a as int - 32) ||
    ((a == 'K' || a == 'k') && c == KelvinSign) ||
    ((a == 'S' || a == 's') && c == LongS)
  }

  /** `strings.EqualFold(code, s)` for an ASCII `code`: same number of
      characters, each pair in the same fold class. */
  predicate EqualFold(code: string, s: string)
  {
    |code| == |s| && forall i :: 0 <= i < |s| ==> FoldsTo(s[i], code[i])
  }

  /** The loop of `IsSupportedCurrency`: an early-return linear search. */
  function FoldSearch(codes: seq<string>, s: string): (found: bool)
    ensures found <==> exists i :: 0 <= i < |codes| && EqualFold(codes[i], s)
  {
    if codes == [] then false
    else if EqualFold(codes[0], s) then true
    else FoldSearch(codes[1..], s)
  }

  /** `IsSupportedCurrency`. */
  function IsSupportedCurrency(currency: string): (supported: bool)
    ensures supported <==>
      exists i :: 0 <= i < |SupportedCurrencies| && EqualFold(SupportedCurrencies[i], currency)
  {
    FoldSearch(SupportedCurrencies, currency)
  }

  /** The canonical upper-case form of a character's fold class, for the
      classes that contain an upper-case ASCII letter. */
  function FoldUpper(c: char): char
  {
    if IsLower(c) then (c as int - 32) as char
    else if c == KelvinSign then 'K'
    else if c == LongS then 'S'
    else c
  }

  function FoldUpperText(s: string): (t: string)
    ensures |t| == |s|
  {
    seq(|s|, i requires 0 <= i < |s| => FoldUpper(s[i]))
  }

  /** Against a code of upper-case letters, case-insensitive equality is
      equality of the canonical upper-case form. */
  lemma EqualFoldUpper(code: string, s: string)
    requires UpperLetters(code)
    ensures EqualFold(code, s) <==> FoldUpperText(s) == code
  {
    if |code| == |s| {
      if EqualFold(code, s) {
        forall i | 0 <= i < |s| ensures FoldUpperText(s)[i] == code[i] {
          assert FoldsTo(s[i], code[i]);
        }
      }
      if FoldUpperText(s) == code {
        forall i | 0 <= i < |s| ensures FoldsTo(s[i], code[i]) {
          assert FoldUpper(s[i]) == code[i];
        }
      }
    }
  }

  lemma SupportedCurrenciesUpper()
    ensures forall i :: 0 <= i < |SupportedCurrencies| ==> UpperLetters(SupportedCurrencies[i])
  {
  }

  /** A currency is supported iff its canonical upper-case form is one of the
      twenty codes: lower case is accepted, and so are the Kelvin sign for K
      and the long s for S. */
  lemma SupportedCurrencyRule(currency: string)
    ensures IsSupportedCurrency(currency) <==> FoldUpperText(currency) in SupportedCurrencies
  {
    SupportedCurrenciesUpper();
    forall i | 0 <= i < |SupportedCurrencies|
      ensures EqualFold(SupportedCurrencies[i], currency) <==> FoldUpperText(currency) == SupportedCurrencies[i]
    {
      EqualFoldUpper(SupportedCurrencies[i], currency);
    }
  }

  lemma SupportedByFoldedForm(currency: string, code: string)
    requires code in SupportedCurrencies && FoldUpperText(currency) == code
    ensures IsSupportedCurrency(currency)
  {
    SupportedCurrencyRule(currency);
  }

  lemma UnsupportedByFoldedForm(currency: string)
    requires FoldUpperText(currency) !in SupportedCurrencies
    ensures !IsSupportedCurrency(currency)
  {
    SupportedCurrencyRule(currency);
  }

  /** Case-insensitive: lower case is accepted. */
  lemma LowerCaseCurrencyExample()
    ensures IsSupportedCurrency("usd")
  {
    SupportedByFoldedForm("usd", "USD");
  }

  /** Unicode folding: the Kelvin sign stands for K. */
  lemma KelvinSignCurrencyExample()
    ensures IsSupportedCurrency("H\U{212A}D")
  {
    SupportedByFoldedForm("H\U{212A}D", "HKD");
  }

  /** Unicode folding: the long s stands for S. */
  lemma LongSCurrencyExample()
    ensures IsSupportedCurrency("\U{017F}ek")
  {
    SupportedByFoldedForm("\U{017F}ek", "SEK");
  }

  lemma XyzNotListed()
    ensures FoldUpperText("XYZ") !in SupportedCurrencies
  {
    assert FoldUpperText("XYZ") == "XYZ";
  }

  /** A code outside the list is not supported. */
  lemma UnlistedCurrencyExample()
    ensures !IsSupportedCurrency("XYZ")
  {
    XyzNotListed();
    UnsupportedByFoldedForm("XYZ");
  }

  /** The empty text is not supported. */
  lemma EmptyCurrencyExample()
    ensures !IsSupportedCurrency("")
  {
    UnsupportedByFoldedForm("");
  }

  // ---------------------------------------------------------------------------
  // Amount formatting

  /** Go's float-to-int conversion `int(x)`: truncation toward zero. */
  function TruncateTowardZero(x: real): (n: int)
    ensures x >= 0.0 ==> n as real <= x < n as real + 1.0
    ensures x < 0.0 ==> n as real - 1.0 < x <= n as real
  {
    if x >= 0.0 then x.Floor else -((-x).Floor)
  }

  /** A whole number of hundredths. */
  predicate IsCents(a: real)
  {
    (a * 100.0).Floor as real == a * 100.0
  }

  /** `FormatAmount`: truncation toward zero to two decimals, not rounding.
      The result is a whole number of hundredths, lies between zero and the
      amount, and is less than a hundredth away from it. */
  function FormatAmount(amount: real): (r: real)
    ensures IsCents(r)
    ensures amount >= 0.0 ==> 0.0 <= r <= amount < r + 0.01
    ensures amount < 0.0 ==> r - 0.01 < amount <= r <= 0.0
  {
    TruncateTowardZero(amount * 100.0) as real / 100.0
  }

  /** Amounts that already are whole hundredths are left unchanged, so
      formatting twice is formatting once. */
  lemma FormatAmountKeepsCents(a: real)
    requires IsCents(a)
    ensures FormatAmount(a) == a
  {
    var n := (a * 100.0).Floor;
    assert a * 100.0 == n as real;
    assert TruncateTowardZero(n as real) == n;
  }

  lemma FormatAmountIdempotent(a: real)
    ensures FormatAmount(FormatAmount(a)) == FormatAmount(a)
  {
    FormatAmountKeepsCents(FormatAmount(a));
  }

  lemma FormatAmountExamples()
    ensures FormatAmount(100.996) == 100.99
    ensures FormatAmount(100.123456) == 100.12
    ensures FormatAmount(100.25) == 100.25
    ensures FormatAmount(100.0) == 100.0
    ensures FormatAmount(-1.239) == -1.23
  {
  }
}

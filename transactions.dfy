/** transactions.go: the part of each `TransactionService` operation that
    runs before the network is reached. An operation either rejects the
    request with an error and makes no call, or issues exactly one HTTP call
    whose method, path, query and body are determined here. What the server
    answers is not part of this model. */
module Transactions {

  import opened Optional
  import opened Text
  import opened Errors
  import opened Records
  import opened Validation
  import opened Query

  // ---------------------------------------------------------------------------
  // Request records

  /** `TransactionRequest`: the payment fields plus the capture options. */
  datatype TransactionRequest = TransactionRequest(
    amount: real,
    currency: string,
    merchantId: string,
    description: string,
    reference: string,
    cardToken: string,
    cardDetails: Option<CardDetails>,
    billingAddr: Option<Address>,
    shippingAddr: Option<Address>,
    metadata: map<string, string>,
    captureMode: string,
    cvvCheck: bool,
    avsCheck: bool)

  /** `CaptureTransactionRequest`; a nil `Amount` pointer is `None`. */
  datatype CaptureTransactionRequest = CaptureTransactionRequest(
    amount: Option<real>,
    reference: string,
    metadata: map<string, string>)

  datatype VoidTransactionRequest = VoidTransactionRequest(
    reason: string,
    reference: string,
    metadata: map<string, string>)

  datatype RefundTransactionRequest = RefundTransactionRequest(
    amount: real,
    reason: string,
    reference: string,
    metadata: map<string, string>)

  datatype ListTransactionsRequest = ListTransactionsRequest(
    merchantId: string,
    status: string,
    kind: string,
    startDate: string,
    endDate: string,
    reference: string,
    minAmount: string,
    maxAmount: string,
    currency: string,
    limit: int,
    offset: int,
    sortBy: string,
    sortOrder: string)

  datatype SearchTransactionsRequest = SearchTransactionsRequest(
    query: string,
    merchantId: string,
    startDate: string,
    endDate: string,
    limit: int,
    offset: int)

  // ---------------------------------------------------------------------------
  // What an operation does before any response exists

  datatype HttpMethod = Get | Post

  /** The value handed to `Client.Post` as the JSON body. */
  datatype Body =
    | NoBody
    | AuthorizeBody(authorize: TransactionRequest)
    | CaptureBody(capture: CaptureTransactionRequest)
    | VoidBody(void: VoidTransactionRequest)
    | RefundBody(refund: RefundTransactionRequest)

  /** One call of `Client.Get` or `Client.Post`; the query is the sequence of
      `url.Values.Add` calls made on it (none for a POST). */
  datatype Call = Call(verb: HttpMethod, path: string, query: seq<Pair>, body: Body)

  /** `Reject(e)`: the operation returns `e` without touching the network.
      `Send(c)`: it makes the call `c`. */
  datatype Plan = Reject(error: Error) | Send(call: Call)

  // ---------------------------------------------------------------------------
  // ValidateTransactionRequest

  /** The payment fields of a transaction request. */
  function AsPayment(r: TransactionRequest): PaymentRequest
  {
    PaymentRequest(r.amount, r.currency, r.merchantId, r.description, r.reference,
      r.cardToken, r.cardDetails, r.billingAddr, r.shippingAddr, r.metadata)
  }

  predicate KnownCaptureMode(mode: string)
  {
    mode == "" || mode == "auto" || mode == "manual"
  }

  /** `ValidateTransactionRequest`, whose definition is not part of this model:
      reconstructed from what its tests require. A nil request is refused,
      then the payment-request checks run on the payment fields, then the
      capture mode must be empty, "auto" or "manual". */
  function ValidateTransactionRequest(req: Option<TransactionRequest>): (v: Outcome)
    ensures req.None? ==> v == Fail(Message("transaction request cannot be nil"))
  {
    match req
    case None => Fail(Message("transaction request cannot be nil"))
    case Some(r) =>
      var payment := ValidatePaymentRequest(Some(AsPayment(r)));
      if payment.Fail? then payment
      else Check(KnownCaptureMode(r.captureMode), Message("capture mode must be 'auto' or 'manual'"))
  }

  /** A transaction request passes iff its payment fields form a valid payment
      request and its capture mode is one of the three accepted values. */
  lemma TransactionRequestPass(req: Option<TransactionRequest>)
    ensures ValidateTransactionRequest(req) == Pass <==>
      req.Some? && WellFormedPayment(AsPayment(req.value)) && KnownCaptureMode(req.value.captureMode)
  {
    if req.Some? {
      PaymentPass(Some(AsPayment(req.value)));
    }
  }

  /** A failing payment check is reported as it is, before the capture mode is
      looked at; the capture-mode error carries no sentinel. */
  lemma TransactionRequestFailures(r: TransactionRequest)
    ensures ValidatePaymentRequest(Some(AsPayment(r))).Fail? ==>
      ValidateTransactionRequest(Some(r)) == ValidatePaymentRequest(Some(AsPayment(r)))
    ensures ValidatePaymentRequest(Some(AsPayment(r))) == Pass && !KnownCaptureMode(r.captureMode) ==>
      ValidateTransactionRequest(Some(r)) == Fail(Message("capture mode must be 'auto' or 'manual'"))
    ensures ValidatePaymentRequest(Some(AsPayment(r))) == Pass && ValidateTransactionRequest(Some(r)).Fail? ==>
      forall k :: !Is(ValidateTransactionRequest(Some(r)).error, k)
  {
  }

  /** A transaction request with only the required fields set. */
  function BaseTransaction(amount: real, currency: string, merchantId: string): TransactionRequest
  {
    TransactionRequest(amount, currency, merchantId, "", "", "", None, None, None, map[], "", false, false)
  }

  lemma UsdIsThreeBytes()
    ensures ByteLen("USD") == 3
  {
  }

  lemma MerchantIsNotBlank()
    ensures NotBlank("merchant_123")
  {
    TrimSpaceEmpty("merchant_123");
    assert !IsSpace("merchant_123"[0]);
  }

  /** The token-paid requests of the tests. */
  lemma TokenTransactionExamples()
    ensures ValidateTransactionRequest(Some(BaseTransaction(100.0, "USD", "merchant_123").(cardToken := "token_123"))) == Pass
    ensures ValidateTransactionRequest(Some(BaseTransaction(100.0, "USD", "merchant_123").(cardToken := "token_123", captureMode := "invalid")))
      == Fail(Message("capture mode must be 'auto' or 'manual'"))
    ensures ValidateTransactionRequest(Some(BaseTransaction(100.0, "USD", "merchant_123")))
      == Fail(Message("either card token or card details must be provided"))
  {
    UsdIsThreeBytes();
    MerchantIsNotBlank();
    var r := BaseTransaction(100.0, "USD", "merchant_123").(cardToken := "token_123");
    PaymentPass(Some(AsPayment(r)));
    PaymentFirstFailure(AsPayment(BaseTransaction(100.0, "USD", "merchant_123")));
  }

  /** The rejected requests of the tests, with the exact texts they compare. */
  lemma RejectedTransactionExamples()
    ensures ErrorString(ValidateTransactionRequest(None).error) == "transaction request cannot be nil"
    ensures ErrorString(ValidateTransactionRequest(Some(BaseTransaction(0.0, "USD", "merchant_123").(cardToken := "token_123"))).error)
      == "invalid amount"
    ensures ErrorString(ValidateTransactionRequest(Some(BaseTransaction(100.0, "", "merchant_123").(cardToken := "token_123"))).error)
      == "invalid currency"
    ensures ErrorString(ValidateTransactionRequest(Some(BaseTransaction(100.0, "USD", "").(cardToken := "token_123"))).error)
      == "merchant ID cannot be empty"
  {
    UsdIsThreeBytes();
    PaymentFirstFailure(AsPayment(BaseTransaction(0.0, "USD", "merchant_123").(cardToken := "token_123")));
    PaymentFirstFailure(AsPayment(BaseTransaction(100.0, "", "merchant_123").(cardToken := "token_123")));
    PaymentFirstFailure(AsPayment(BaseTransaction(100.0, "USD", "").(cardToken := "token_123")));
    TrimSpaceEmpty("");
  }

  /** A number made of 13 to 19 digits and nothing else is a valid card number. */
  lemma UnspacedCardNumber(number: string)
    requires AllDigits(number) && MinCardDigits <= |number| <= MaxCardDigits
    ensures CardNumberOk(number)
  {
    RemoveSpacesSpec(number);
    assert ' ' !in number by {
      forall i | 0 <= i < |number| ensures number[i] != ' ' {
        assert IsDigit(number[i]);
      }
    }
  }

  lemma TestCardNumber()
    ensures CardNumberOk("4111111111111111")
  {
    UnspacedCardNumber("4111111111111111");
  }

  /** The card of the tests. */
  lemma TestCardWellFormed()
    ensures WellFormedCard(CardDetails("4111111111111111", 12, 2025, "123", "John Doe"))
  {
    TestCardNumber();
    assert ByteLen("123") == 3;
    assert !IsSpace("John Doe"[0]);
  }

  /** The card-paid request of the tests, with manual capture, passes. */
  lemma CardTransactionExample()
    ensures ValidateTransactionRequest(Some(BaseTransaction(50.0, "USD", "merchant_123").(
      cardDetails := Some(CardDetails("4111111111111111", 12, 2025, "123", "John Doe")),
      captureMode := "manual", cvvCheck := true, avsCheck := true))) == Pass
  {
    UsdIsThreeBytes();
    MerchantIsNotBlank();
    TestCardWellFormed();
    var r := BaseTransaction(50.0, "USD", "merchant_123").(
      cardDetails := Some(CardDetails("4111111111111111", 12, 2025, "123", "John Doe")),
      captureMode := "manual", cvvCheck := true, avsCheck := true);
    TransactionRequestPass(Some(r));
  }

  // ---------------------------------------------------------------------------
  // AuthorizeTransaction, CaptureTransaction, VoidTransaction, RefundTransaction

  /** `fmt.Sprintf("/transactions/%s/<action>", id)`. */
  function ActionPath(id: string, action: string): (p: string)
    ensures |p| == |"/transactions/"| + |id| + 1 + |action|
  {
    "/transactions/" + id + "/" + action
  }

  /** An action path splits back into its three parts: the fixed prefix, the
      transaction id, and "/" followed by the action. */
  lemma ActionPathId(id: string, action: string)
    ensures ActionPath(id, action)[..|"/transactions/"|] == "/transactions/"
    ensures ActionPath(id, action)[|"/transactions/"|..|"/transactions/"| + |id|] == id
    ensures ActionPath(id, action)[|"/transactions/"| + |id|..] == "/" + action
  {
  }

  lemma ActionPathInjective(id1: string, id2: string, action: string)
    requires ActionPath(id1, action) == ActionPath(id2, action)
    ensures id1 == id2
  {
    ActionPathId(id1, action);
    ActionPathId(id2, action);
  }

  /** `AuthorizeTransaction`: the request is validated first; a failure comes
      back wrapped as "validation failed: ..." and nothing is posted. */
  function AuthorizeTransaction(req: Option<TransactionRequest>): (p: Plan)
    ensures p.Reject? <==> ValidateTransactionRequest(req).Fail?
    ensures p.Reject? ==> p.error == Wrapped("validation failed: ", ValidateTransactionRequest(req).error, "")
    ensures p.Send? ==> req.Some? && p.call == Call(Post, "/transactions/authorize", [], AuthorizeBody(req.value))
  {
    match ValidateTransactionRequest(req)
    case Fail(e) => Reject(Wrapped("validation failed: ", e, ""))
    case Pass => Send(Call(Post, "/transactions/authorize", [], AuthorizeBody(req.value)))
  }

  /** The wrapping keeps the validator's sentinel visible to `errors.Is` and
      its text after the prefix. */
  lemma AuthorizeRejection(req: Option<TransactionRequest>, k: Kind)
    requires AuthorizeTransaction(req).Reject?
    ensures Is(AuthorizeTransaction(req).error, k) <==> Is(ValidateTransactionRequest(req).error, k)
    ensures ErrorString(AuthorizeTransaction(req).error)
      == "validation failed: " + ErrorString(ValidateTransactionRequest(req).error)
  {
  }

  /** An authorization is posted iff the request would pass validation. */
  lemma AuthorizeSends(req: Option<TransactionRequest>)
    ensures AuthorizeTransaction(req).Send? <==>
      req.Some? && WellFormedPayment(AsPayment(req.value)) && KnownCaptureMode(req.value.captureMode)
  {
    TransactionRequestPass(req);
  }

  /** `CaptureTransaction`: never rejected; a nil request is replaced by an
      empty one before posting. */
  function CaptureTransaction(id: string, req: Option<CaptureTransactionRequest>): (p: Plan)
    ensures p.Send? && p.call.verb == Post && p.call.path == ActionPath(id, "capture")
    ensures p.call.query == []
    ensures req.Some? ==> p.call.body == CaptureBody(req.value)
  {
    var r := if req.None? then CaptureTransactionRequest(None, "", map[]) else req.value;
    Send(Call(Post, ActionPath(id, "capture"), [], CaptureBody(r)))
  }

  /** Capturing with no request is capturing with the empty request. */
  lemma CaptureNilIsEmpty(id: string)
    ensures CaptureTransaction(id, None) == CaptureTransaction(id, Some(CaptureTransactionRequest(None, "", map[])))
  {
  }

  /** `VoidTransaction`: never rejected; a nil request is replaced by an empty
      one before posting. */
  function VoidTransaction(id: string, req: Option<VoidTransactionRequest>): (p: Plan)
    ensures p.Send? && p.call.verb == Post && p.call.path == ActionPath(id, "void")
    ensures p.call.query == []
    ensures req.Some? ==> p.call.body == VoidBody(req.value)
  {
    var r := if req.None? then VoidTransactionRequest("", "", map[]) else req.value;
    Send(Call(Post, ActionPath(id, "void"), [], VoidBody(r)))
  }

  lemma VoidNilIsEmpty(id: string)
    ensures VoidTransaction(id, None) == VoidTransaction(id, Some(VoidTransactionRequest("", "", map[])))
  {
  }

  /** `RefundTransaction`: a nil request is refused; any other request is
      posted unchecked. */
  function RefundTransaction(id: string, req: Option<RefundTransactionRequest>): (p: Plan)
    ensures p.Reject? <==> req.None?
    ensures p.Reject? ==> p.error == Message("refund request is required")
    ensures p.Send? ==> p.call == Call(Post, ActionPath(id, "refund"), [], RefundBody(req.value))
  {
    if req.None? then Reject(Message("refund request is required"))
    else Send(Call(Post, ActionPath(id, "refund"), [], RefundBody(req.value)))
  }

  /** The amount is not checked here, so a zero or negative refund is posted. */
  lemma RefundAmountUnchecked(id: string, r: RefundTransactionRequest)
    requires r.amount <= 0.0
    ensures RefundTransaction(id, Some(r)).Send?
    ensures RefundTransaction(id, Some(r)).call.body.refund.amount == r.amount
  {
  }

  // ---------------------------------------------------------------------------
  // Query construction

  /** The pairs of a filter table whose value is not empty, in table order. */
  function KeepNonEmpty(t: seq<Pair>): seq<Pair>
  {
    if t == [] then [] else KeepNonEmpty(t[..|t| - 1]) + KeepOne(t[|t| - 1])
  }

  function KeepOne(p: Pair): seq<Pair>
  {
    if p.value != "" then [p] else []
  }

  /** `fmt.Sprintf("%d", n)` for a positive `n`, and "" (no pair) otherwise. */
  function PositiveDecimal(n: int): (s: string)
    ensures s != "" <==> n > 0
  {
    if n > 0 then IntToDecimal(n) else ""
  }

  /** The filters of `ListTransactions` in the order they are added, each with
      the value it is added with when it is added at all. */
  function ListTable(r: ListTransactionsRequest): seq<Pair>
  {
    [Pair("merchant_id", r.merchantId)]
    + [Pair("status", r.status)]
    + [Pair("type", r.kind)]
    + [Pair("start_date", r.startDate)]
    + [Pair("end_date", r.endDate)]
    + [Pair("reference", r.reference)]
    + [Pair("min_amount", r.minAmount)]
    + [Pair("max_amount", r.maxAmount)]
    + [Pair("currency", r.currency)]
    + [Pair("limit", PositiveDecimal(r.limit))]
    + [Pair("offset", PositiveDecimal(r.offset))]
    + [Pair("sort_by", r.sortBy)]
    + [Pair("sort_order", r.sortOrder)]
  }

  /** The entries of `SearchTransactions`: the search text, then the optional
      filters. */
  function SearchTable(r: SearchTransactionsRequest): seq<Pair>
  {
    [Pair("q", r.query)]
    + [Pair("merchant_id", r.merchantId)]
    + [Pair("start_date", r.startDate)]
    + [Pair("end_date", r.endDate)]
    + [Pair("limit", PositiveDecimal(r.limit))]
    + [Pair("offset", PositiveDecimal(r.offset))]
  }

  /** `if value != "" { query.Add(key, value) }`. */
  method AddIfSet(query: seq<Pair>, key: string, value: string) returns (q: seq<Pair>)
    ensures q == query + KeepOne(Pair(key, value))
  {
    q := query;
    if value != "" {
      q := q + [Pair(key, value)];
    }
  }

  /** `if n > 0 { query.Add(key, fmt.Sprintf("%d", n)) }`. */
  method AddIfPositive(query: seq<Pair>, key: string, n: int) returns (q: seq<Pair>)
    ensures q == query + KeepOne(Pair(key, PositiveDecimal(n)))
  {
    q := query;
    if n > 0 {
      q := q + [Pair(key, IntToDecimal(n))];
    }
  }

  /** `ListTransactions`: never rejected; a nil request gives an empty query,
      otherwise each filter is added iff it is set. */
  method ListTransactions(req: Option<ListTransactionsRequest>) returns (plan: Plan)
    ensures plan.Send? && plan.call.verb == Get && plan.call.path == "/transactions"
    ensures plan.call.body == NoBody
    ensures req.None? ==> plan.call.query == []
    ensures req.Some? ==> plan.call.query == KeepNonEmpty(ListTable(req.value))
  {
    var query: seq<Pair> := [];
    if req.Some? {
      var r := req.value;
      query := AddIfSet(query, "merchant_id", r.merchantId);
      query := AddIfSet(query, "status", r.status);
      query := AddIfSet(query, "type", r.kind);
      query := AddIfSet(query, "start_date", r.startDate);
      query := AddIfSet(query, "end_date", r.endDate);
      query := AddIfSet(query, "reference", r.reference);
      query := AddIfSet(query, "min_amount", r.minAmount);
      query := AddIfSet(query, "max_amount", r.maxAmount);
      query := AddIfSet(query, "currency", r.currency);
      query := AddIfPositive(query, "limit", r.limit);
      query := AddIfPositive(query, "offset", r.offset);
      query := AddIfSet(query, "sort_by", r.sortBy);
      query := AddIfSet(query, "sort_order", r.sortOrder);
      ListTableFilter(r);
    }
    plan := Send(Call(Get, "/transactions", query, NoBody));
  }

  /** `SearchTransactions`: refused without a search text; otherwise the query
      is the search text under "q" followed by the set filters. */
  method SearchTransactions(req: Option<SearchTransactionsRequest>) returns (plan: Plan)
    ensures plan.Reject? <==> req.None? || req.value.query == ""
    ensures plan.Reject? ==> plan.error == Message("search query is required")
    ensures plan.Send? ==>
      plan.call == Call(Get, "/transactions/search", KeepNonEmpty(SearchTable(req.value)), NoBody)
  {
    if req.None? || req.value.query == "" {
      return Reject(Message("search query is required"));
    }
    var r := req.value;
    var query: seq<Pair> := [];
    query := query + [Pair("q", r.query)];
    query := AddIfSet(query, "merchant_id", r.merchantId);
    query := AddIfSet(query, "start_date", r.startDate);
    query := AddIfSet(query, "end_date", r.endDate);
    query := AddIfPositive(query, "limit", r.limit);
    query := AddIfPositive(query, "offset", r.offset);
    SearchTableFilter(r);
    plan := Send(Call(Get, "/transactions/search", query, NoBody));
  }


  // ---------------------------------------------------------------------------
  // Properties of the filter tables

  /** The filter of the list table, entry by entry: one `Add` per filter, in
      the order of the source. */
  lemma ListTableFilter(r: ListTransactionsRequest)
    ensures KeepNonEmpty(ListTable(r)) == []
      + KeepOne(Pair("merchant_id", r.merchantId)) + KeepOne(Pair("status", r.status))
      + KeepOne(Pair("type", r.kind)) + KeepOne(Pair("start_date", r.startDate))
      + KeepOne(Pair("end_date", r.endDate)) + KeepOne(Pair("reference", r.reference))
      + KeepOne(Pair("min_amount", r.minAmount)) + KeepOne(Pair("max_amount", r.maxAmount))
      + KeepOne(Pair("currency", r.currency)) + KeepOne(Pair("limit", PositiveDecimal(r.limit)))
      + KeepOne(Pair("offset", PositiveDecimal(r.offset))) + KeepOne(Pair("sort_by", r.sortBy))
      + KeepOne(Pair("sort_order", r.sortOrder))
  {
    var t1 := [Pair("merchant_id", r.merchantId)];
    var t2 := t1 + [Pair("status", r.status)];
    var t3 := t2 + [Pair("type", r.kind)];
    var t4 := t3 + [Pair("start_date", r.startDate)];
    var t5 := t4 + [Pair("end_date", r.endDate)];
    var t6 := t5 + [Pair("reference", r.reference)];
    var t7 := t6 + [Pair("min_amount", r.minAmount)];
    var t8 := t7 + [Pair("max_amount", r.maxAmount)];
    var t9 := t8 + [Pair("currency", r.currency)];
    var t10 := t9 + [Pair("limit", PositiveDecimal(r.limit))];
    var t11 := t10 + [Pair("offset", PositiveDecimal(r.offset))];
    var t12 := t11 + [Pair("sort_by", r.sortBy)];
    KeepSnoc([], t1[0]);
    KeepSnoc(t1, Pair("status", r.status));
    KeepSnoc(t2, Pair("type", r.kind));
    KeepSnoc(t3, Pair("start_date", r.startDate));
    KeepSnoc(t4, Pair("end_date", r.endDate));
    KeepSnoc(t5, Pair("reference", r.reference));
    KeepSnoc(t6, Pair("min_amount", r.minAmount));
    KeepSnoc(t7, Pair("max_amount", r.maxAmount));
    KeepSnoc(t8, Pair("currency", r.currency));
    KeepSnoc(t9, Pair("limit", PositiveDecimal(r.limit)));
    KeepSnoc(t10, Pair("offset", PositiveDecimal(r.offset)));
    KeepSnoc(t11, Pair("sort_by", r.sortBy));
    KeepSnoc(t12, Pair("sort_order", r.sortOrder));
  }

  /** The filter of the search table, entry by entry: "q" first, then one
      `Add` per filter, in the order of the source. */
  lemma SearchTableFilter(r: SearchTransactionsRequest)
    requires r.query != ""
    ensures KeepNonEmpty(SearchTable(r)) == []
      + [Pair("q", r.query)] + KeepOne(Pair("merchant_id", r.merchantId))
      + KeepOne(Pair("start_date", r.startDate)) + KeepOne(Pair("end_date", r.endDate))
      + KeepOne(Pair("limit", PositiveDecimal(r.limit)))
      + KeepOne(Pair("offset", PositiveDecimal(r.offset)))
  {
    var t1 := [Pair("q", r.query)];
    var t2 := t1 + [Pair("merchant_id", r.merchantId)];
    var t3 := t2 + [Pair("start_date", r.startDate)];
    var t4 := t3 + [Pair("end_date", r.endDate)];
    var t5 := t4 + [Pair("limit", PositiveDecimal(r.limit))];
    KeepSnoc([], t1[0]);
    KeepSnoc(t1, Pair("merchant_id", r.merchantId));
    KeepSnoc(t2, Pair("start_date", r.startDate));
    KeepSnoc(t3, Pair("end_date", r.endDate));
    KeepSnoc(t4, Pair("limit", PositiveDecimal(r.limit)));
    KeepSnoc(t5, Pair("offset", PositiveDecimal(r.offset)));
  }

  /** Filtering distributes over concatenation: each part keeps its own set
      entries, in order. */
  lemma {:induction false} KeepConcat(a: seq<Pair>, b: seq<Pair>)
    ensures KeepNonEmpty(a + b) == KeepNonEmpty(a) + KeepNonEmpty(b)
  {
    if b == [] {
      assert a + b == a;
    } else {
      var init := b[..|b| - 1];
      assert (a + b)[..|a + b| - 1] == a + init;
      KeepConcat(a, init);
    }
  }

  /** Filtering a table extended by one entry adds at most that entry. */
  lemma KeepSnoc(t: seq<Pair>, p: Pair)
    ensures KeepNonEmpty(t + [p]) == KeepNonEmpty(t) + KeepOne(p)
  {
    KeepConcat(t, [p]);
    assert [p][..0] == [];
  }

  /** A pair is in the filtered table iff it is an entry with a value. */
  lemma {:induction false} KeepNonEmptyMembers(t: seq<Pair>, p: Pair)
    ensures p in KeepNonEmpty(t) <==> p in t && p.value != ""
  {
    if t != [] {
      var init := t[..|t| - 1];
      KeepNonEmptyMembers(init, p);
      assert t == init + [t[|t| - 1]];
    }
  }

  /** Filtering keeps table order: two pairs of the result come from two
      entries in the same order. */
  lemma {:induction false} KeepNonEmptyOrder(t: seq<Pair>, i: nat, j: nat)
    requires i < j < |KeepNonEmpty(t)|
    ensures exists a, b :: 0 <= a < b < |t| && t[a] == KeepNonEmpty(t)[i] && t[b] == KeepNonEmpty(t)[j]
  {
    var init := t[..|t| - 1];
    var head := KeepNonEmpty(init);
    var out := KeepNonEmpty(t);
    if j < |head| {
      KeepNonEmptyOrder(init, i, j);
      var a, b :| 0 <= a < b < |init| && init[a] == head[i] && init[b] == head[j];
      assert t[a] == out[i] && t[b] == out[j];
    } else {
      assert out[i] == head[i] && head[i] in head;
      KeepNonEmptyMembers(init, head[i]);
      var a :| 0 <= a < |init| && init[a] == head[i];
      assert t[a] == out[i] && t[|t| - 1] == out[j];
    }
  }

  /** A table without repeated keys gives a query without repeated keys. */
  lemma KeepNonEmptyDistinct(t: seq<Pair>)
    requires DistinctKeys(t)
    ensures DistinctKeys(KeepNonEmpty(t))
  {
    var out := KeepNonEmpty(t);
    forall i, j | 0 <= i < j < |out| ensures out[i].key != out[j].key {
      KeepNonEmptyOrder(t, i, j);
    }
  }

  /** With distinct keys, each entry's key reads back its value iff the value
      is set. */
  lemma FilterFirstValue(t: seq<Pair>, i: nat)
    requires DistinctKeys(t) && i < |t|
    ensures FirstValue(KeepNonEmpty(t), t[i].key) == if t[i].value != "" then Some(t[i].value) else None
  {
    var out := KeepNonEmpty(t);
    KeepNonEmptyDistinct(t);
    FirstValuePresent(out, t[i].key);
    if t[i].value != "" {
      KeepNonEmptyMembers(t, t[i]);
      FirstValueDistinct(out, t[i].key, t[i].value);
    } else if FirstValue(out, t[i].key).Some? {
      var k :| 0 <= k < |out| && out[k].key == t[i].key;
      assert out[k] in out;
      KeepNonEmptyMembers(t, out[k]);
    }
  }

  lemma ListTableDistinct(r: ListTransactionsRequest)
    ensures DistinctKeys(ListTable(r))
  {
  }

  lemma SearchTableDistinct(r: SearchTransactionsRequest)
    ensures DistinctKeys(SearchTable(r))
  {
  }

  /** Every filter of a listing reads back as its value when set and is absent
      otherwise, and no key is sent twice. */
  lemma ListQueryValues(r: ListTransactionsRequest, i: nat)
    requires i < |ListTable(r)|
    ensures DistinctKeys(KeepNonEmpty(ListTable(r)))
    ensures FirstValue(KeepNonEmpty(ListTable(r)), ListTable(r)[i].key)
      == if ListTable(r)[i].value != "" then Some(ListTable(r)[i].value) else None
  {
    ListTableDistinct(r);
    KeepNonEmptyDistinct(ListTable(r));
    FilterFirstValue(ListTable(r), i);
  }

  /** Paging of a listing: limit and offset are sent iff positive, as decimal
      text that reads back as the number. */
  lemma ListQueryPaging(r: ListTransactionsRequest)
    ensures FirstValue(KeepNonEmpty(ListTable(r)), "limit") == if r.limit > 0 then Some(IntToDecimal(r.limit)) else None
    ensures FirstValue(KeepNonEmpty(ListTable(r)), "offset") == if r.offset > 0 then Some(IntToDecimal(r.offset)) else None
    ensures r.limit > 0 ==> ParseDecimal(FirstValue(KeepNonEmpty(ListTable(r)), "limit").value) == Some(r.limit)
  {
    ListQueryValues(r, 9);
    ListQueryValues(r, 10);
    IntToDecimalRoundTrip(r.limit);
  }

  /** A sent search query starts with the search text under "q", the key "q"
      reads back as that text, and the paging filters are sent iff positive. */
  lemma SearchQueryShape(r: SearchTransactionsRequest)
    requires r.query != ""
    ensures |KeepNonEmpty(SearchTable(r))| > 0 && KeepNonEmpty(SearchTable(r))[0] == Pair("q", r.query)
    ensures DistinctKeys(KeepNonEmpty(SearchTable(r)))
    ensures FirstValue(KeepNonEmpty(SearchTable(r)), "q") == Some(r.query)
    ensures FirstValue(KeepNonEmpty(SearchTable(r)), "merchant_id") == if r.merchantId != "" then Some(r.merchantId) else None
    ensures FirstValue(KeepNonEmpty(SearchTable(r)), "limit") == if r.limit > 0 then Some(IntToDecimal(r.limit)) else None
    ensures FirstValue(KeepNonEmpty(SearchTable(r)), "offset") == if r.offset > 0 then Some(IntToDecimal(r.offset)) else None
  {
    SearchTableFilter(r);
    SearchTableDistinct(r);
    KeepNonEmptyDistinct(SearchTable(r));
    FilterFirstValue(SearchTable(r), 0);
    FilterFirstValue(SearchTable(r), 1);
    FilterFirstValue(SearchTable(r), 4);
    FilterFirstValue(SearchTable(r), 5);
  }

  /** The listing of the tests: only the set filters are sent, the zero
      offset is not. */
  lemma ListQueryExample()
    ensures KeepNonEmpty(ListTable(ListTransactionsRequest(
      "merchant_123", "authorized", "", "", "", "", "", "", "", 10, 0, "", "")))
      == [Pair("merchant_id", "merchant_123"), Pair("status", "authorized"), Pair("limit", "10")]
  {
    var r := ListTransactionsRequest("merchant_123", "authorized", "", "", "", "", "", "", "", 10, 0, "", "");
    ListTableFilter(r);
    assert IntToDecimal(10) == NatToDecimal(1) + [DigitChar(0)] == "10";
  }

  /** The search of the tests. */
  lemma SearchQueryExample()
    ensures KeepNonEmpty(SearchTable(SearchTransactionsRequest("transaction_123", "merchant_123", "", "", 20, 0)))
      == [Pair("q", "transaction_123"), Pair("merchant_id", "merchant_123"), Pair("limit", "20")]
  {
    var r := SearchTransactionsRequest("transaction_123", "merchant_123", "", "", 20, 0);
    SearchTableFilter(r);
    assert IntToDecimal(20) == NatToDecimal(2) + [DigitChar(0)] == "20";
  }
}

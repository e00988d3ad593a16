/**
 * The Webpay Plus transaction lifecycle: create a transaction, commit it on
 * the gateway's callback, and refund it later.
 *
 * Each handler is a chain of guards around the transactions collection. The
 * gateway, the reference codec and the `xss` filter are not part of this
 * model: the codec and the filter are functions fixed when the service is
 * built, and every gateway call is represented by its request (returned by
 * the handler, `None` when it makes no call) and by its result (a parameter,
 * consulted only when the call is made).
 */
module Transbank {
  import opened Wrappers
  import opened JsText
  import opened Store

  /** The commerce code a refund is made for when the request names none. */
  const TestCommerceCode := "597055555542"

  /** The value of JavaScript's `Number(x)`; infinities are not distinguished from finite values. */
  datatype JsNumber = NaN | Finite(value: real)

  /** `!!n`: zero and NaN are falsy, every other number is truthy (negative ones included). */
  predicate Truthy(n: JsNumber) {
    n.Finite? && n.value != 0.0
  }

  /** How a call that may throw ends: with a value, or with an exception whose `toString()` is `message`. */
  datatype Completion<T> = Returned(value: T) | Threw(message: string)

  /** The JSON envelope `createTrx` and `refund` answer with. */
  datatype Envelope<T> = Ok(body: T) | Failed(error: string)

  // ---------------------------------------------------------------- create

  /** The request body of `createTrx`; a missing field is its default (`''`, `''`, `Number(0)`). */
  datatype CreateBody = CreateBody(buyOrder: string, sessionId: string, amount: JsNumber)

  /** What the gateway's `create` returns; a missing field is `""`. */
  datatype CreateResponse = CreateResponse(token: string, url: string)

  /** The arguments `createTrx` passes to the gateway's `create`. */
  datatype CreateCall = CreateCall(buyOrder: string, sessionId: string, amount: real, returnUrl: string)

  /** The body of a successful `createTrx` envelope. */
  datatype Payment = Payment(url: string, token: string)

  // ---------------------------------------------------------------- authorize

  /** The fields of the gateway's `commit` response the handler reads; `None` is an absent field. */
  datatype CommitResponse = CommitResponse(
    responseCode: Option<int>,
    buyOrder: Option<string>,
    sessionId: string,
    authorizationCode: string,
    paymentTypeCode: string,
    amount: int,
    installmentsNumber: Option<int>,
    installmentsAmount: Option<int>,
    status: string,
    vci: string,
    cardNumber: Option<string>,
    transactionDate: string)

  /** One query parameter of a redirect, before URL encoding. */
  datatype Param = Param(key: string, value: string)

  /** A browser redirect: the destination and its query parameters in order. */
  datatype Redirect = Redirect(url: string, query: seq<Param>)

  /**
   * The exception `authorizeTrx` catches (it is logged, never shown):
   * 'INVALID_TBK_TOKEN', whatever `decrypt` throws, 'TRX_ALREADY_PROCESSED',
   * whatever `commit` throws, `UNEXPECTED_TBK_RESPONSE:<code>` and
   * `INVALID_TBK_RESPONSE_BUY_ORDER:<buy_order>`.
   */
  datatype Rejection =
    | InvalidTbkToken
    | UndecodableReference
    | AlreadyProcessed
    | CommitFailed(message: string)
    | UnexpectedResponseCode(code: Option<int>)
    | BuyOrderMismatch(responseBuyOrder: Option<string>)

  // ---------------------------------------------------------------- refund

  /** The request body of `refund`; `amount` is what `parseInt` made of it, `None` for NaN. */
  datatype RefundBody = RefundBody(commerceCode: string, buyOrder: string, authCode: string, amount: Option<int>)

  /** The gateway's refund response; `outcome` is its `type` field. */
  datatype RefundResponse = RefundResponse(outcome: Option<string>)

  /** The arguments `refund` passes to the gateway's `refund`, in the order it passes them. */
  datatype RefundCall = RefundCall(buyOrder: string, commerceCode: string, childBuyOrder: string, amount: int)

  // ---------------------------------------------------------------- errors

  /** The values `createTrx` and `refund` throw and turn into an error envelope. */
  datatype Fault =
    | MissingUa
    | InvalidAmount
    | TrxAlreadyProcessed
    | UnexpectedTbkResponse
    | InvalidBuyOrder
    | InvalidAuthCode
    | TrxWithAuthCodeNotFound
    | UnexpectedRefundType(outcome: Option<string>)
    | Exception(message: string)

  /** `e.toString()` of a thrown fault. */
  function Text(f: Fault): string {
    match f
    case MissingUa => "MISSING_UA"
    case InvalidAmount => "INVALID_AMOUNT"
    case TrxAlreadyProcessed => "TRX_ALREADY_PROCESSED"
    case UnexpectedTbkResponse => "UNEXPECTED_TBK_RESPONSE"
    case InvalidBuyOrder => "INVALID_BUY_ORDER"
    case InvalidAuthCode => "INVALID_AUTH_CODE"
    case TrxWithAuthCodeNotFound => "TRX_WITH_AUTH_CODE_NOT_FOUND"
    case UnexpectedRefundType(t) =>
      "UNEXPECTED_TBK_RESPONSE_" + (if t.None? || t.value == "" then "NAN" else t.value)
    case Exception(m) => m
  }

  /** The faults whose text is a fixed code. */
  predicate IsCode(f: Fault) {
    !f.UnexpectedRefundType? && !f.Exception?
  }

  /** The error envelope of a caught fault: its text, with each line feed replaced. */
  function ErrorEnvelope<T>(f: Fault): (e: Envelope<T>)
    ensures e.Failed? && '\n' !in e.error
    ensures IsCode(f) ==> e.error == Text(f)
    ensures e.error == ReplaceNewlines(Text(f))
  {
    CodeTextIsOneLine(f);
    if IsCode(f) then Failed(Text(f)) else Failed(ReplaceNewlines(Text(f)))
  }

  /** The fixed codes are single lines. */
  lemma CodeTextIsOneLine(f: Fault)
    ensures IsCode(f) ==> '\n' !in Text(f)
  {
  }

  // ---------------------------------------------------------------- pure parts

  /**
   * `cardDigits`: the last four characters of the card number (all of it when
   * shorter, as `substring` clamps a negative start to zero); absent when the
   * gateway sent no card number or an empty one.
   */
  function CardDigits(cardNumber: Option<string>): (r: Option<string>)
    ensures r.Some? <==> cardNumber.Some? && cardNumber.value != ""
    ensures r.Some? ==> var n := cardNumber.value;
      |r.value| == (if |n| < 4 then |n| else 4) && r.value == n[|n| - |r.value|..]
  {
    match cardNumber
    case None => None
    case Some(n) =>
      if n == "" then None
      else
        var start := if |n| < 4 then 0 else |n| - 4;
        Some(n[start..])
  }

  /** The response is an approval of `buyOrder`: response code zero and the same order echoed back. */
  predicate Approves(r: CommitResponse, buyOrder: string) {
    r.responseCode == Some(0) && r.buyOrder == Some(buyOrder)
  }

  /** A JavaScript-truthy number field: present and non-zero. */
  predicate Present(n: Option<int>) {
    n.Some? && n.value != 0
  }

  /** The settlement record `authorizeTrx` builds from an approved commit response. */
  function NewRecord(r: CommitResponse): (t: Transaction)
    requires r.buyOrder.Some?
    ensures t.buyOrder == r.buyOrder.value
    ensures t.sessionId == r.sessionId && t.authCode == r.authorizationCode
    ensures t.paymentType == r.paymentTypeCode && t.amount == r.amount
    ensures t.tbkStatus == r.status && t.tbkVci == r.vci && t.createdAt == r.transactionDate
    ensures t.shares != 0
    ensures Present(r.installmentsNumber) ==> t.shares == r.installmentsNumber.value
    ensures !Present(r.installmentsNumber) ==> t.shares == 1
    ensures t.sharesAmount != Some(0)
    ensures t.sharesAmount.Some? <==> Present(r.installmentsAmount)
    ensures t.sharesAmount.Some? ==> t.sharesAmount == r.installmentsAmount
    ensures t.cardDigits == CardDigits(r.cardNumber)
    ensures t.cardDigits.Some? ==> |t.cardDigits.value| <= 4
  {
    Transaction(
      buyOrder := r.buyOrder.value,
      sessionId := r.sessionId,
      authCode := r.authorizationCode,
      paymentType := r.paymentTypeCode,
      amount := r.amount,
      shares := if Present(r.installmentsNumber) then r.installmentsNumber.value else 1,
      sharesAmount := if Present(r.installmentsAmount) then r.installmentsAmount else None,
      tbkStatus := r.status,
      tbkVci := r.vci,
      cardDigits := CardDigits(r.cardNumber),
      createdAt := r.transactionDate)
  }

  /** The value of the first parameter named `key`, as `URLSearchParams.get` reads it. */
  function Lookup(q: seq<Param>, key: string): Option<string> {
    if q == [] then None
    else if q[0].key == key then Some(q[0].value)
    else Lookup(q[1..], key)
  }

  /** A JavaScript-truthy string: present and non-empty. */
  predicate Known(s: Option<string>) {
    s.Some? && s.value != ""
  }

  /**
   * The query of the failure redirect: `buyOrder` when it was decoded and is
   * non-empty, then `tbkResCode` when the gateway sent a non-zero code.
   */
  function FailureQuery(buyOrder: Option<string>, code: Option<int>): (q: seq<Param>)
    ensures |q| <= 2
    ensures forall p :: p in q ==> p.key == "buyOrder" || p.key == "tbkResCode"
    ensures forall i, j :: 0 <= i < j < |q| ==> q[i].key == "buyOrder" && q[j].key == "tbkResCode"
    ensures Lookup(q, "buyOrder") == if Known(buyOrder) then buyOrder else None
    ensures Lookup(q, "tbkResCode") == if Present(code) then Some(IntToString(code.value)) else None
    ensures q == [] <==> !Known(buyOrder) && !Present(code)
  {
    (if Known(buyOrder) then [Param("buyOrder", buyOrder.value)] else [])
    + (if Present(code) then [Param("tbkResCode", IntToString(code.value))] else [])
  }

  /** The `tbkResCode` a failure page reads back is the gateway's response code. */
  lemma FailureCodeReadsBack(buyOrder: Option<string>, code: int)
    requires code != 0
    ensures var v := Lookup(FailureQuery(buyOrder, Some(code)), "tbkResCode");
      v.Some? && v.value != [] && IsDigits(if v.value[0] == '-' then v.value[1..] else v.value)
      && ParseDecimal(v.value) == code
  {
    IntToStringRoundTrip(code);
    var r := IntToString(code);
    if code < 0 {
      assert r[1..] == NatToString(-code);
    }
  }

  /** `/REVERSED|NULLIFIED/.test(type)`: an absent type reads as "undefined" and never passes. */
  predicate RefundTypeOk(outcome: Option<string>) {
    outcome.Some? && (Contains(outcome.value, "REVERSED") || Contains(outcome.value, "NULLIFIED"))
  }

  /** A refund type passes exactly when one of the two tags occurs somewhere in it. */
  lemma RefundTypeOkIff(outcome: string)
    ensures RefundTypeOk(Some(outcome)) <==>
      exists k :: OccursAt(outcome, "REVERSED", k) || OccursAt(outcome, "NULLIFIED", k)
  {
    ContainsIff(outcome, "REVERSED");
    ContainsIff(outcome, "NULLIFIED");
  }

  /**
   * The error a refused refund answers with: the prefix, then the type with
   * its line feeds replaced, or NAN when the gateway sent no type or an empty one.
   */
  lemma RefundRejectionText(outcome: Option<string>)
    ensures ErrorEnvelope<RefundResponse>(UnexpectedRefundType(outcome)).error ==
      "UNEXPECTED_TBK_RESPONSE_" + (if Known(outcome) then ReplaceNewlines(outcome.value) else "NAN")
  {
    var prefix := "UNEXPECTED_TBK_RESPONSE_";
    var tail := if Known(outcome) then outcome.value else "NAN";
    assert Text(UnexpectedRefundType(outcome)) == prefix + tail;
    assert '\n' !in prefix;
    ReplaceNewlinesAfter(prefix, tail);
    if !Known(outcome) {
      assert '\n' !in tail;
    }
  }

  /** After an approved commit of `buyOrder` the collection counts that order, so a replay is refused. */
  lemma CommitBlocksReplay(s: seq<Transaction>, r: CommitResponse, buyOrder: string)
    requires Approves(r, buyOrder)
    ensures Count(s + [NewRecord(r)], ByOrder(buyOrder)) == Count(s, ByOrder(buyOrder)) + 1
  {
    CountAppend(s, NewRecord(r), ByOrder(buyOrder));
  }

  function Last<T>(s: seq<T>): T
    requires s != []
  {
    s[|s| - 1]
  }

  // ---------------------------------------------------------------- state

  /** The HTTP reply object of one request: the redirects issued on it. */
  class Reply {
    var redirects: seq<Redirect>

    constructor ()
      ensures redirects == []
    {
      redirects := [];
    }

    /** `res.redirect(...)`. */
    method RedirectTo(target: Redirect)
      modifies this
      ensures redirects == old(redirects) + [target]
    {
      redirects := redirects + [target];
    }
  }

  /** The three handlers over the transactions collection. */
  class Webpay {
    /** BASE_URL, TBK_SUCCESS_URL and TBK_FAILED_URL. */
    const baseUrl: string
    const successUrl: string
    const failedUrl: string
    /**
     * The `xss` filter, and the reference codec's `encrypt` (which may throw)
     * and `decrypt` (`None` when it throws; its message is only logged).
     */
    const xss: string -> string
    const encrypt: string -> Completion<string>
    const decrypt: string -> Option<string>
    /** The records of the transactions collection, in insertion order. */
    var transactions: seq<Transaction>

    ghost predicate Valid()
      reads this
    {
      Unique(transactions)
    }

    constructor (baseUrl: string, successUrl: string, failedUrl: string,
                 xss: string -> string, encrypt: string -> Completion<string>, decrypt: string -> Option<string>,
                 transactions: seq<Transaction>)
      requires Unique(transactions)
      ensures Valid()
      ensures this.baseUrl == baseUrl && this.successUrl == successUrl && this.failedUrl == failedUrl
      ensures this.xss == xss && this.encrypt == encrypt && this.decrypt == decrypt
      ensures this.transactions == transactions
    {
      this.baseUrl, this.successUrl, this.failedUrl := baseUrl, successUrl, failedUrl;
      this.xss, this.encrypt, this.decrypt := xss, encrypt, decrypt;
      this.transactions := transactions;
    }

    /** `xss(s).trim()`. */
    function Clean(s: string): string {
      Trim(xss(s))
    }

    /** The callback URL handed to the gateway: the base URL followed by `trx/authorize/<reference>`. */
    function ReturnUrl(buyOrder: string): string
      requires encrypt(buyOrder).Returned?
    {
      baseUrl + "trx/authorize/" + encrypt(buyOrder).value
    }

    /** `createTrx`: validate, refuse a processed order, then ask the gateway for a payment. */
    method CreateTrx(body: CreateBody, userAgent: string, gateway: Completion<CreateResponse>)
      returns (env: Envelope<Payment>, call: Option<CreateCall>)
      ensures userAgent == "" ==> env == ErrorEnvelope(MissingUa) && call == None
      ensures userAgent != "" && !Truthy(body.amount) ==> env == ErrorEnvelope(InvalidAmount) && call == None
      ensures userAgent != "" && Truthy(body.amount) && Count(transactions, ByOrder(Clean(body.buyOrder))) > 0
        ==> env == ErrorEnvelope(TrxAlreadyProcessed) && call == None
      ensures userAgent != "" && Truthy(body.amount) && Count(transactions, ByOrder(Clean(body.buyOrder))) == 0
        && encrypt(Clean(body.buyOrder)).Threw?
        ==> env == ErrorEnvelope(Exception(encrypt(Clean(body.buyOrder)).message)) && call == None
      ensures call.Some? <==>
        userAgent != "" && Truthy(body.amount) && Count(transactions, ByOrder(Clean(body.buyOrder))) == 0
        && encrypt(Clean(body.buyOrder)).Returned?
      ensures call.Some? ==> var order := Clean(body.buyOrder);
        encrypt(order).Returned? &&
        call.value == CreateCall(order, body.sessionId, body.amount.value, ReturnUrl(order))
      ensures env.Ok? <==> call.Some? && gateway.Returned? && gateway.value.token != "" && gateway.value.url != ""
      ensures env.Ok? ==> env.body == Payment(gateway.value.url, gateway.value.token)
      ensures call.Some? && gateway.Returned? && env.Failed? ==> env == ErrorEnvelope(UnexpectedTbkResponse)
      ensures call.Some? && gateway.Threw? ==> env == ErrorEnvelope(Exception(gateway.message))
    {
      var buyOrder := Clean(body.buyOrder);
      var amount := body.amount;
      var thrown: Option<Fault> := None;
      call := None;
      var payment := Payment("", "");
      if userAgent == "" {
        thrown := Some(MissingUa);
      } else if !Truthy(amount) {
        thrown := Some(InvalidAmount);
      } else if Count(transactions, ByOrder(buyOrder)) > 0 {
        thrown := Some(TrxAlreadyProcessed);
      } else if encrypt(buyOrder).Threw? {
        thrown := Some(Exception(encrypt(buyOrder).message));
      } else {
        call := Some(CreateCall(buyOrder, body.sessionId, amount.value, ReturnUrl(buyOrder)));
        match gateway
        case Threw(m) =>
          thrown := Some(Exception(m));
        case Returned(response) =>
          if response.token == "" || response.url == "" {
            thrown := Some(UnexpectedTbkResponse);
          } else {
            payment := Payment(response.url, response.token);
          }
      }
      if thrown.Some? {
        env := ErrorEnvelope(thrown.value);
      } else {
        env := Ok(payment);
      }
    }

    /**
     * `authorizeTrx`: the gateway's callback. Decode the reference, refuse a
     * processed order, commit, and store the record only for an approval of
     * the decoded order; whatever happens, issue exactly one redirect.
     * Returns the token sent to `commit` (`None` when it is not called) and
     * the caught rejection (`None` on success).
     */
    method AuthorizeTrx(hash: string, tokenWs: string, gateway: Completion<CommitResponse>, reply: Reply)
      returns (commitToken: Option<string>, rejection: Option<Rejection>)
      requires Valid()
      modifies this, reply
      ensures Valid()
      ensures |reply.redirects| == |old(reply.redirects)| + 1
      ensures reply.redirects[..|old(reply.redirects)|] == old(reply.redirects)
      ensures commitToken ==
        if tokenWs != "" && decrypt(hash).Some? && Count(old(transactions), ByOrder(decrypt(hash).value)) == 0
        then Some(tokenWs) else None
      ensures rejection.None? <==> commitToken.Some? && gateway.Returned? && Approves(gateway.value, decrypt(hash).value)
      ensures rejection.None? ==>
        && transactions == old(transactions) + [NewRecord(gateway.value)]
        && Last(reply.redirects) == Redirect(successUrl, [Param("buyOrder", decrypt(hash).value)])
      ensures rejection.Some? ==>
        && transactions == old(transactions)
        && Last(reply.redirects) == Redirect(failedUrl, FailureQuery(
             if tokenWs == "" then None else decrypt(hash),
             if commitToken.Some? && gateway.Returned? then gateway.value.responseCode else None))
      ensures tokenWs == "" ==> rejection == Some(InvalidTbkToken)
      ensures tokenWs != "" && decrypt(hash).None? ==> rejection == Some(UndecodableReference)
      ensures tokenWs != "" && decrypt(hash).Some? && Count(old(transactions), ByOrder(decrypt(hash).value)) > 0
        ==> rejection == Some(AlreadyProcessed)
      ensures commitToken.Some? && gateway.Threw? ==> rejection == Some(CommitFailed(gateway.message))
      ensures commitToken.Some? && gateway.Returned? && gateway.value.responseCode != Some(0)
        ==> rejection == Some(UnexpectedResponseCode(gateway.value.responseCode))
      ensures (commitToken.Some? && gateway.Returned? && gateway.value.responseCode == Some(0)
               && gateway.value.buyOrder != decrypt(hash))
        ==> rejection == Some(BuyOrderMismatch(gateway.value.buyOrder))
    {
      var buyOrder: Option<string> := None;
      var tbkResCode: Option<int> := None;
      commitToken, rejection := None, None;
      if tokenWs == "" {
        rejection := Some(InvalidTbkToken);
      } else {
        var decoded := decrypt(hash);
        if decoded.None? {
          rejection := Some(UndecodableReference);
        } else {
          buyOrder := decoded;
          if Count(transactions, ByOrder(decoded.value)) > 0 {
            rejection := Some(AlreadyProcessed);
          } else {
            commitToken := Some(tokenWs);
            match gateway
            case Threw(m) =>
              rejection := Some(CommitFailed(m));
            case Returned(response) =>
              tbkResCode := response.responseCode;
              if tbkResCode != Some(0) {
                rejection := Some(UnexpectedResponseCode(tbkResCode));
              } else if buyOrder != response.buyOrder {
                rejection := Some(BuyOrderMismatch(response.buyOrder));
              } else {
                var trx := NewRecord(response);
                UniqueInsert(transactions, trx);
                transactions := transactions + [trx];
                reply.RedirectTo(Redirect(successUrl, [Param("buyOrder", decoded.value)]));
              }
          }
        }
      }
      if rejection.Some? {
        reply.RedirectTo(Redirect(failedUrl, FailureQuery(buyOrder, tbkResCode)));
      }
    }

    /** The commerce code a refund is made for: the sanitised one, or the test code when empty. */
    function CommerceCode(body: RefundBody): (c: string)
      ensures c != ""
      ensures c == Clean(body.commerceCode) || c == TestCommerceCode
      ensures Clean(body.commerceCode) != "" ==> c == Clean(body.commerceCode)
    {
      var code := Clean(body.commerceCode);
      if code == "" then TestCommerceCode else code
    }

    /**
     * `refund`: validate the sanitised inputs, require a stored record with
     * that order and authorization code, then ask the gateway; only a
     * REVERSED or NULLIFIED outcome is a success. Never changes the collection.
     */
    method Refund(body: RefundBody, gateway: Completion<RefundResponse>)
      returns (env: Envelope<RefundResponse>, call: Option<RefundCall>)
      ensures Clean(body.buyOrder) == "" ==> env == ErrorEnvelope(InvalidBuyOrder) && call == None
      ensures Clean(body.buyOrder) != "" && Clean(body.authCode) == ""
        ==> env == ErrorEnvelope(InvalidAuthCode) && call == None
      ensures Clean(body.buyOrder) != "" && Clean(body.authCode) != "" && body.amount.GetOr(0) == 0
        ==> env == ErrorEnvelope(InvalidAmount) && call == None
      ensures Clean(body.buyOrder) != "" && Clean(body.authCode) != "" && body.amount.GetOr(0) != 0
        && Count(transactions, ByOrderAndAuth(Clean(body.buyOrder), Clean(body.authCode))) == 0
        ==> env == ErrorEnvelope(TrxWithAuthCodeNotFound) && call == None
      ensures call.Some? <==>
        Clean(body.buyOrder) != "" && Clean(body.authCode) != "" && body.amount.GetOr(0) != 0
        && Count(transactions, ByOrderAndAuth(Clean(body.buyOrder), Clean(body.authCode))) > 0
      ensures call.Some? ==> var order := Clean(body.buyOrder);
        call.value == RefundCall(order, CommerceCode(body), order, body.amount.GetOr(0))
      ensures env.Ok? <==> call.Some? && gateway.Returned? && RefundTypeOk(gateway.value.outcome)
      ensures env.Ok? ==> env.body == gateway.value
      ensures env.Ok? ==> exists i :: (0 <= i < |transactions|
        && transactions[i].buyOrder == Clean(body.buyOrder) && transactions[i].authCode == Clean(body.authCode))
      ensures call.Some? && gateway.Returned? && env.Failed?
        ==> env == ErrorEnvelope(UnexpectedRefundType(gateway.value.outcome))
      ensures call.Some? && gateway.Threw? ==> env == ErrorEnvelope(Exception(gateway.message))
    {
      var buyOrder := Clean(body.buyOrder);
      var commerceCode := Clean(body.commerceCode);
      var authCode := Clean(body.authCode);
      var amount := body.amount.GetOr(0);
      var thrown: Option<Fault> := None;
      call := None;
      var response := RefundResponse(None);
      if buyOrder == "" {
        thrown := Some(InvalidBuyOrder);
      } else if authCode == "" {
        thrown := Some(InvalidAuthCode);
      } else if amount == 0 {
        thrown := Some(InvalidAmount);
      } else {
        if commerceCode == "" {
          commerceCode := TestCommerceCode;
        }
        var found := Count(transactions, ByOrderAndAuth(buyOrder, authCode));
        if found == 0 {
          thrown := Some(TrxWithAuthCodeNotFound);
        } else {
          CountPositiveIff(transactions, ByOrderAndAuth(buyOrder, authCode));
          call := Some(RefundCall(buyOrder, commerceCode, buyOrder, amount));
          match gateway
          case Threw(m) =>
            thrown := Some(Exception(m));
          case Returned(r) =>
            if !RefundTypeOk(r.outcome) {
              thrown := Some(UnexpectedRefundType(r.outcome));
            } else {
              response := r;
            }
        }
      }
      if thrown.Some? {
        env := ErrorEnvelope(thrown.value);
      } else {
        env := Ok(response);
      }
    }
  }

  /**
   * A second callback after a successful first one: whatever its reference and
   * token, once the reference decodes to the same order it never reaches the
   * gateway, stores nothing and redirects to the failure page carrying only the order.
   */
  method ReplayedCallback(w: Webpay, reply: Reply,
                          hash: string, tokenWs: string, gateway: Completion<CommitResponse>,
                          hash2: string, tokenWs2: string, gateway2: Completion<CommitResponse>)
    returns (first: Option<Rejection>, second: Option<Rejection>, secondCommit: Option<string>)
    requires w.Valid()
    modifies w, reply
    ensures w.Valid()
    ensures |reply.redirects| == |old(reply.redirects)| + 2
    ensures first.None? ==> gateway.Returned? && gateway.value.buyOrder.Some?
    ensures first.None? && tokenWs2 != "" && w.decrypt(hash2) == w.decrypt(hash) ==>
      && second == Some(AlreadyProcessed) && secondCommit == None
      && gateway.Returned? && gateway.value.buyOrder.Some?
      && w.transactions == old(w.transactions) + [NewRecord(gateway.value)]
      && Last(reply.redirects) == Redirect(w.failedUrl, FailureQuery(w.decrypt(hash2), None))
  {
    var c1;
    c1, first := w.AuthorizeTrx(hash, tokenWs, gateway, reply);
    ghost var afterFirst := w.transactions;
    secondCommit, second := w.AuthorizeTrx(hash2, tokenWs2, gateway2, reply);
    if first.None? {
      CommitBlocksReplay(old(w.transactions), gateway.value, w.decrypt(hash).value);
      assert afterFirst == old(w.transactions) + [NewRecord(gateway.value)];
    }
  }

  /** Once an order is committed, creating a payment for it again is refused without a gateway call. */
  method CreateAfterCommit(w: Webpay, reply: Reply, hash: string, tokenWs: string,
                           commit: Completion<CommitResponse>,
                           body: CreateBody, userAgent: string, create: Completion<CreateResponse>)
    returns (rejection: Option<Rejection>, env: Envelope<Payment>, call: Option<CreateCall>)
    requires w.Valid()
    requires userAgent != "" && Truthy(body.amount)
    requires w.decrypt(hash).Some? && w.Clean(body.buyOrder) == w.decrypt(hash).value
    modifies w, reply
    ensures rejection.None? ==> env == ErrorEnvelope(TrxAlreadyProcessed) && call == None
  {
    var commitToken;
    commitToken, rejection := w.AuthorizeTrx(hash, tokenWs, commit, reply);
    if rejection.None? {
      CommitBlocksReplay(old(w.transactions), commit.value, w.decrypt(hash).value);
    }
    env, call := w.CreateTrx(body, userAgent, create);
  }
}

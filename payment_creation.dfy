/**
 * `process`: the payment-creation request sent to the gateway, the
 * classification of its reply, and the pending transaction built on success.
 */
module PaymentCreation {
  import opened Wrappers
  import opened PhpString
  import opened PhpValue
  import Token

  const ServiceUrl: string := "https://paysgator.com/api/v1/payment/create"
  const TimeoutSeconds: nat := 30
  const RequestedFields: seq<string> := ["name", "email", "phone", "address"]
  const SourceTag: string := "FOSSBilling"
  const ErrorPrefix: string := "Payment Error: "
  const FallbackError: string := "Payment creation failed"

  /** The invoice as the host's accessors present it; the total includes tax. */
  datatype Invoice = Invoice(id: int, number: string, totalWithTax: real, currency: string, buyerEmail: string)

  /**
   * The adapter's parameters that `process` reads (`getParam`); a missing one
   * is None. The webhook secret is read only by `processTransaction` and is a
   * parameter of `Webhook.ProcessTransaction`.
   */
  datatype Config = Config(apiKey: Option<string>, returnUrl: Option<string>)

  datatype Metadata = Metadata(description: string, source: string, invoiceId: int, clientEmail: string)

  /** The JSON body of the payment-creation call. */
  datatype PaymentRequest = PaymentRequest(
    amount: real,
    currency: string,
    externalTransactionId: string,
    fields: seq<string>,
    returnUrl: Option<string>,
    metadata: Metadata)

  /** The one POST the adapter makes. */
  datatype HttpPost = HttpPost(url: string, headers: seq<string>, payload: PaymentRequest, timeout: nat)

  /** What curl reports: its error text ("" if none), the HTTP code, and the decoded reply body. */
  datatype GatewayReply = GatewayReply(curlError: string, httpCode: int, body: Json)

  /** A thrown Payment_Exception, or a created payment and the `Location:` header sent before `exit`. */
  datatype Creation =
    | PaymentFailed(message: string)
    | PaymentCreated(transactionId: Json, location: string)

  /** The request body `process` builds for `invoice` at Unix time `now`. */
  function BuildRequest(invoice: Invoice, returnUrl: Option<string>, now: nat): (r: PaymentRequest)
    ensures |r.externalTransactionId| <= Token.MaxLength
    ensures AllSatisfy(r.externalTransactionId, IsTokenChar)
  {
    PaymentRequest(
      invoice.totalWithTax,
      invoice.currency,
      Token.Encode(invoice.id, now),
      RequestedFields,
      returnUrl,
      Metadata("Invoice #" + invoice.number, SourceTag, invoice.id, invoice.buyerEmail))
  }

  /** The POST carrying `request`, authenticated by the API key header. */
  function BuildPost(config: Config, request: PaymentRequest): (r: HttpPost)
    ensures r.payload == request && r.url == ServiceUrl && r.timeout == 30
    ensures |r.headers| == 2 && r.headers[0] == "Content-Type: application/json"
    ensures |r.headers[1]| >= 11 && r.headers[1][..11] == "X-Api-Key: " && r.headers[1][11..] == OrEmpty(config.apiKey)
  {
    HttpPost(ServiceUrl,
             ["Content-Type: application/json", "X-Api-Key: " + OrEmpty(config.apiKey)],
             request,
             TimeoutSeconds)
  }

  /** `isset($result['success']) && $result['success']` */
  predicate SuccessFlag(body: Json)
    ensures SuccessFlag(body) <==> Truthy(Offset(body, "success"))
  {
    match Isset(body, "success")
    case Some(flag) => Truthy(flag)
    case None => false
  }

  /** `isset($result['error']['message']) ? $result['error']['message'] : 'Payment creation failed'` */
  function GatewayErrorMessage(body: Json): (m: string)
    ensures var message := Offset(Offset(body, "error"), "message");
      m == if message == JNull then FallbackError else ConcatString(message)
  {
    match Isset(body, "error")
    case Some(error) =>
      (match Isset(error, "message")
       case Some(message) => ConcatString(message)
       case None => FallbackError)
    case None => FallbackError
  }

  /** The classification of curl's report, in the adapter's order. */
  function Classify(reply: GatewayReply): (c: Creation)
    ensures c.PaymentFailed? ==> |c.message| >= |ErrorPrefix| && c.message[..|ErrorPrefix|] == ErrorPrefix
  {
    if IsTruthyString(reply.curlError) then PaymentFailed(ErrorPrefix + reply.curlError)
    else if reply.httpCode != 200 || !SuccessFlag(reply.body) then PaymentFailed(ErrorPrefix + GatewayErrorMessage(reply.body))
    else
      var data := Offset(reply.body, "data");
      PaymentCreated(Offset(data, "transactionId"), "Location: " + ConcatString(Offset(data, "checkoutUrl")))
  }

  /** A curl error fails first, whatever the HTTP code and the body. */
  lemma TransportErrorFirst(reply: GatewayReply)
    requires IsTruthyString(reply.curlError)
    ensures Classify(reply) == PaymentFailed(ErrorPrefix + reply.curlError)
  {
  }

  /**
   * Without a curl error, a code other than 200 or a missing or false
   * `success` fails with the nested `error.message` when set, else the
   * generic text; in particular HTTP 200 with `success: false`.
   */
  lemma RejectionMessage(reply: GatewayReply)
    requires !IsTruthyString(reply.curlError)
    requires reply.httpCode != 200 || !SuccessFlag(reply.body)
    ensures var error := Isset(reply.body, "error");
      Classify(reply) == PaymentFailed(ErrorPrefix +
        if error.Some? && Isset(error.value, "message").Some?
        then ConcatString(Isset(error.value, "message").value)
        else FallbackError)
  {
  }

  /** A payment is created exactly when curl reports no error, the code is 200 and `success` is true. */
  lemma CreatedExactly(reply: GatewayReply)
    ensures Classify(reply).PaymentCreated? <==>
      !IsTruthyString(reply.curlError) && reply.httpCode == 200 && SuccessFlag(reply.body)
    ensures Classify(reply).PaymentCreated? ==>
      Classify(reply).transactionId == Offset(Offset(reply.body, "data"), "transactionId")
  {
  }

  /**
   * The request copies the invoice: amount, currency, the configured return
   * URL, the fixed field list, and metadata with the description, the source
   * tag, the id and the buyer's email.
   */
  lemma RequestCopiesInvoice(invoice: Invoice, returnUrl: Option<string>, now: nat)
    ensures var r := BuildRequest(invoice, returnUrl, now);
      && r.amount == invoice.totalWithTax && r.currency == invoice.currency
      && r.returnUrl == returnUrl
      && r.fields == ["name", "email", "phone", "address"]
      && r.metadata.description == "Invoice #" + invoice.number
      && r.metadata.source == "FOSSBilling"
      && r.metadata.invoiceId == invoice.id
      && r.metadata.clientEmail == invoice.buyerEmail
      && r.externalTransactionId == Token.Encode(invoice.id, now)
  {
  }

  /**
   * The request names the invoice twice, in the metadata and in the
   * token, and for an id of 1 to 15 digits the two agree: the token decodes
   * to the metadata's id.
   */
  lemma RequestCorrelatesInvoice(invoice: Invoice, returnUrl: Option<string>, now: nat)
    requires 1 <= invoice.id < Pow10(Token.MaxLength)
    ensures var r := BuildRequest(invoice, returnUrl, now);
      Token.ParseInvoiceId(r.externalTransactionId) == Some(NatToString(r.metadata.invoiceId))
      && DecimalValue(NatToString(r.metadata.invoiceId)) == invoice.id
  {
    Token.ParseRoundTrip(invoice.id, now);
  }

  datatype TransactionType = Payment
  datatype TransactionStatus = Pending

  /** The host's Payment_Transaction, as far as `process` fills it in; unset fields are None. */
  class PaymentTransaction {
    var id: Option<Json>
    var amount: Option<real>
    var currency: Option<string>
    var txType: Option<TransactionType>
    var status: Option<TransactionStatus>

    constructor ()
      ensures id == None && amount == None && currency == None && txType == None && status == None
    {
      id, amount, currency, txType, status := None, None, None, None, None;
    }

    method SetId(v: Json)
      modifies this`id
      ensures id == Some(v)
    {
      id := Some(v);
    }

    method SetAmount(v: real)
      modifies this`amount
      ensures amount == Some(v)
    {
      amount := Some(v);
    }

    method SetCurrency(v: string)
      modifies this`currency
      ensures currency == Some(v)
    {
      currency := Some(v);
    }

    method SetType(v: TransactionType)
      modifies this`txType
      ensures txType == Some(v)
    {
      txType := Some(v);
    }

    method SetStatus(v: TransactionStatus)
      modifies this`status
      ensures status == Some(v)
    {
      status := Some(v);
    }
  }

  /**
   * `process`: builds the request, hands the POST to `send` (curl and the
   * gateway), classifies the reply and, on success, fills in a pending
   * payment transaction with the gateway's id and the invoice's total and
   * currency. No transaction exists when the payment failed.
   */
  method Process(invoice: Invoice, config: Config, now: nat, send: HttpPost -> GatewayReply)
    returns (outcome: Creation, tx: PaymentTransaction?)
    ensures outcome == Classify(send(BuildPost(config, BuildRequest(invoice, config.returnUrl, now))))
    ensures tx != null <==> outcome.PaymentCreated?
    ensures tx != null ==> fresh(tx)
    ensures tx != null ==>
              && tx.id == Some(outcome.transactionId)
              && tx.amount == Some(invoice.totalWithTax)
              && tx.currency == Some(invoice.currency)
              && tx.txType == Some(Payment)
              && tx.status == Some(Pending)
  {
    var request := BuildRequest(invoice, config.returnUrl, now);
    var reply := send(BuildPost(config, request));
    outcome := Classify(reply);
    match outcome
    case PaymentFailed(_) =>
      tx := null;
    case PaymentCreated(transactionId, _) =>
      tx := NewPendingPayment(transactionId, invoice.totalWithTax, invoice.currency);
  }

  /** A fresh transaction filled in field by field as a pending payment. */
  method NewPendingPayment(transactionId: Json, amount: real, currency: string) returns (tx: PaymentTransaction)
    ensures fresh(tx)
    ensures tx.id == Some(transactionId) && tx.amount == Some(amount) && tx.currency == Some(currency)
    ensures tx.txType == Some(Payment) && tx.status == Some(Pending)
  {
    tx := new PaymentTransaction();
    tx.SetId(transactionId);
    tx.SetAmount(amount);
    tx.SetCurrency(currency);
    tx.SetType(Payment);
    tx.SetStatus(Pending);
  }
}

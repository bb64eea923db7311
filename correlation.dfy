/**
 * The correlation scheme end to end: a webhook that echoes the token of a
 * payment request confirms, refuses or misroutes the invoice the request
 * was built for.
 */
module Correlation {
  import opened Wrappers
  import opened PhpString
  import opened PhpValue
  import Token
  import opened Webhook
  import opened PaymentCreation

  /** A payment.success delivery that passes the signature check and carries `token` in `data`. */
  ghost predicate SuccessDelivery(hmac: (string, string) -> string, secret: Option<string>, rawBody: string,
                                  header: Option<string>, body: Json, data: Json, token: string)
  {
    && SignatureAccepted(hmac, secret, rawBody, header)
    && Isset(body, "event") == Some(JStr(PaymentSuccessEvent))
    && Isset(body, "data") == Some(data)
    && Isset(data, "externalTransactionId") == Some(JStr(token))
  }

  /**
   * For an invoice id of 1 to 15 digits, a SUCCESS webhook echoing the
   * request's token confirms that very invoice: the record's invoice_id
   * reads back as the id.
   */
  lemma IssuedTokenConfirmsInvoice(hmac: (string, string) -> string, secret: Option<string>, rawBody: string,
                                   header: Option<string>, body: Json, data: Json,
                                   invoice: Invoice, returnUrl: Option<string>, now: nat, id: int)
    requires 1 <= invoice.id < Pow10(Token.MaxLength)
    requires SuccessDelivery(hmac, secret, rawBody, header, body, data,
                             BuildRequest(invoice, returnUrl, now).externalTransactionId)
    requires Isset(data, "status") == Some(JStr(SuccessStatus))
    ensures var v := WebhookVerdict(hmac, secret, rawBody, header, body, id);
      && v.Confirmed?
      && v.record.invoiceId == NatToString(invoice.id)
      && DecimalValue(v.record.invoiceId) == invoice.id
  {
    var token := BuildRequest(invoice, returnUrl, now).externalTransactionId;
    SuccessEventVerdict(hmac, secret, rawBody, header, body, id, data);
    Token.ParseRoundTrip(invoice.id, now);
    DecodableTokenVerdict(data, id, token, NatToString(invoice.id));
  }

  /**
   * The same webhook with any other status is ignored, not refused: the
   * token decodes, and only the status filter stops it.
   */
  lemma IssuedTokenPendingIgnored(hmac: (string, string) -> string, secret: Option<string>, rawBody: string,
                                  header: Option<string>, body: Json, data: Json,
                                  invoice: Invoice, returnUrl: Option<string>, now: nat, id: int)
    requires 1 <= invoice.id < Pow10(Token.MaxLength)
    requires SuccessDelivery(hmac, secret, rawBody, header, body, data,
                             BuildRequest(invoice, returnUrl, now).externalTransactionId)
    requires Isset(data, "status") != Some(JStr(SuccessStatus))
    ensures WebhookVerdict(hmac, secret, rawBody, header, body, id) == Ignored
  {
    var token := BuildRequest(invoice, returnUrl, now).externalTransactionId;
    SuccessEventVerdict(hmac, secret, rawBody, header, body, id, data);
    Token.ParseRoundTrip(invoice.id, now);
    DecodableTokenVerdict(data, id, token, NatToString(invoice.id));
  }

  /** Invoice 0's own token is refused as malformed, whatever the status. */
  lemma ZeroInvoiceTokenRejected(hmac: (string, string) -> string, secret: Option<string>, rawBody: string,
                                 header: Option<string>, body: Json, data: Json,
                                 invoice: Invoice, returnUrl: Option<string>, now: nat, id: int)
    requires invoice.id == 0
    requires SuccessDelivery(hmac, secret, rawBody, header, body, data,
                             BuildRequest(invoice, returnUrl, now).externalTransactionId)
    ensures WebhookVerdict(hmac, secret, rawBody, header, body, id) == Rejected(InvalidTokenFormat)
  {
    Token.ZeroIdRefused(now);
    var token := BuildRequest(invoice, returnUrl, now).externalTransactionId;
    assert Truthy(JStr(token)) by {
      Token.EncodeIsPrefix(0, now);
      assert |token| >= 2;
    }
  }

  /**
   * For an id of 16 or more digits a SUCCESS webhook with the request's
   * token is confirmed, but for a different invoice id: the first 15
   * digits.
   */
  lemma LongInvoiceIdMisrouted(hmac: (string, string) -> string, secret: Option<string>, rawBody: string,
                               header: Option<string>, body: Json, data: Json,
                               invoice: Invoice, returnUrl: Option<string>, now: nat, id: int)
    requires invoice.id >= Pow10(Token.MaxLength)
    requires SuccessDelivery(hmac, secret, rawBody, header, body, data,
                             BuildRequest(invoice, returnUrl, now).externalTransactionId)
    requires Isset(data, "status") == Some(JStr(SuccessStatus))
    ensures var v := WebhookVerdict(hmac, secret, rawBody, header, body, id);
      && v.Confirmed?
      && AllSatisfy(v.record.invoiceId, IsDigit)
      && DecimalValue(v.record.invoiceId) != invoice.id
  {
    var token := BuildRequest(invoice, returnUrl, now).externalTransactionId;
    SuccessEventVerdict(hmac, secret, rawBody, header, body, id, data);
    Token.LongIdMisdecoded(invoice.id, now);
    DecodableTokenVerdict(data, id, token, NatToString(invoice.id)[..Token.MaxLength]);
  }
}

/**
 * `processTransaction`: the verdict on one webhook delivery, as a pure
 * function of the delivery, the configured secret and the HMAC; and the
 * write it drives into the host's transaction store.
 */
module Webhook {
  import opened Wrappers
  import opened PhpString
  import opened PhpValue
  import Token

  const PaymentSuccessEvent: string := "payment.success"
  const SuccessStatus: string := "SUCCESS"
  const ProcessedStatus: string := "processed"

  /** Why a delivery is refused; each is a thrown exception in the adapter. */
  datatype Rejection =
    | InvalidSignature
    | InvalidStructure
    | MissingToken
    | TokenNotString
    | InvalidTokenFormat

  function Message(r: Rejection): string {
    match r
    case InvalidSignature => "Invalid webhook signature"
    case InvalidStructure => "Invalid webhook structure"
    case MissingToken => "No externalTransactionId found"
    case TokenNotString => "explode(): Argument #2 ($string) must be of type string, array given"
    case InvalidTokenFormat => "Invalid externalTransactionId format"
  }

  /** Length and 18th character of each message, which tell the five apart. */
  lemma MessageShape(r: Rejection)
    ensures |Message(r)| == match r
      case InvalidSignature => 25
      case InvalidStructure => 25
      case MissingToken => 30
      case TokenNotString => 68
      case InvalidTokenFormat => 36
    ensures r.InvalidSignature? ==> Message(r)[17] == 'i'
    ensures r.InvalidStructure? ==> Message(r)[17] == 't'
  {
  }

  /** Each refusal has its own text: the message tells the reason. */
  lemma MessageIdentifiesReason(r1: Rejection, r2: Rejection)
    ensures Message(r1) == Message(r2) <==> r1 == r2
  {
    if r1 != r2 {
      MessageShape(r1);
      MessageShape(r2);
    }
  }

  /** The array passed to `invoice_transaction_update`. */
  datatype UpdateRecord = UpdateRecord(id: int, invoiceId: string, txnId: Json, amount: Json, status: string)

  /** Ignored is `return null`, Confirmed is the update followed by `return true`. */
  datatype Verdict = Ignored | Rejected(reason: Rejection) | Confirmed(record: UpdateRecord)

  /** `empty($secret)`: unset, "" or "0". */
  predicate IsEmptySecret(secret: Option<string>)
    ensures IsEmptySecret(secret) <==> secret.None? || !IsTruthyString(secret.value)
  {
    secret.None? || secret.value == "" || secret.value == "0"
  }

  /** The signature check passes: it is skipped, or the hex HMAC of the raw body equals the header ('' when absent). */
  predicate SignatureAccepted(hmac: (string, string) -> string, secret: Option<string>, rawBody: string, header: Option<string>)
    ensures !IsEmptySecret(secret) && header.Some? && header.value != hmac(secret.value, rawBody)
            ==> !SignatureAccepted(hmac, secret, rawBody, header)
    ensures !IsEmptySecret(secret) && header.None? && hmac(secret.value, rawBody) != ""
            ==> !SignatureAccepted(hmac, secret, rawBody, header)
  {
    IsEmptySecret(secret) || hmac(secret.value, rawBody) == OrEmpty(header)
  }

  /** Steps after the event filter: field extraction, token decoding, status filter. */
  function PaymentSuccessVerdict(data: Json, id: int): (v: Verdict)
    ensures v.Confirmed? ==> IsTruthyString(v.record.invoiceId) && AllSatisfy(v.record.invoiceId, IsDigit)
  {
    var txnId := IssetOr(data, "transactionId", JNull);
    var amount := IssetOr(data, "amount", JInt(0));
    var status := IssetOr(data, "status", JStr(""));
    var token := IssetOr(data, "externalTransactionId", JNull);
    if !Truthy(token) then Rejected(MissingToken)
    else
      match StringArgument(token)
      case None => Rejected(TokenNotString)
      case Some(text) =>
        match Token.ParseInvoiceId(text)
        case None => Rejected(InvalidTokenFormat)
        case Some(invoiceId) =>
          if status != JStr(SuccessStatus) then Ignored
          else Confirmed(UpdateRecord(id, invoiceId, txnId, amount, ProcessedStatus))
  }

  /**
   * The verdict of `processTransaction` for host transaction `id`, a
   * delivery with raw body `rawBody` (decoded as `body`) and signature
   * header `header`, under the configured secret. `hmac(key, text)` is the
   * lower-case hex HMAC-SHA256.
   */
  function WebhookVerdict(hmac: (string, string) -> string, secret: Option<string>,
                          rawBody: string, header: Option<string>, body: Json, id: int): (v: Verdict)
    ensures v == Rejected(InvalidSignature) <==> !SignatureAccepted(hmac, secret, rawBody, header)
    ensures v.Confirmed? ==> v.record.id == id && v.record.status == ProcessedStatus
    ensures v.Confirmed? ==> IsTruthyString(v.record.invoiceId) && AllSatisfy(v.record.invoiceId, IsDigit)
  {
    if !SignatureAccepted(hmac, secret, rawBody, header) then Rejected(InvalidSignature)
    else
      match (Isset(body, "event"), Isset(body, "data"))
      case (Some(event), Some(data)) =>
        if event != JStr(PaymentSuccessEvent) then Ignored
        else PaymentSuccessVerdict(data, id)
      case _ => Rejected(InvalidStructure)
  }

  /**
   * With a non-empty secret, a header that is not the HMAC of the exact raw
   * body is refused before the body is looked at.
   */
  lemma WrongSignatureRejected(hmac: (string, string) -> string, secret: string,
                               rawBody: string, header: Option<string>, body: Json, id: int)
    requires secret != "" && secret != "0"
    requires OrEmpty(header) != hmac(secret, rawBody)
    ensures WebhookVerdict(hmac, Some(secret), rawBody, header, body, id) == Rejected(InvalidSignature)
  {
  }

  /**
   * An empty secret (unset, "" or "0") switches the check off: the verdict
   * depends neither on the HMAC nor on the header.
   */
  lemma EmptySecretSkipsSignature(hmac1: (string, string) -> string, hmac2: (string, string) -> string,
                                  secret: Option<string>, rawBody: string,
                                  header1: Option<string>, header2: Option<string>, body: Json, id: int)
    requires IsEmptySecret(secret)
    ensures WebhookVerdict(hmac1, secret, rawBody, header1, body, id) == WebhookVerdict(hmac2, secret, rawBody, header2, body, id)
  {
  }

  /** A missing signature header is the same as an empty one. */
  lemma MissingHeaderIsEmpty(hmac: (string, string) -> string, secret: Option<string>, rawBody: string, body: Json, id: int)
    ensures WebhookVerdict(hmac, secret, rawBody, None, body, id) == WebhookVerdict(hmac, secret, rawBody, Some(""), body, id)
  {
  }

  /** Past the signature, a body without `event` or without `data` is refused. */
  lemma MissingStructureRejected(hmac: (string, string) -> string, secret: Option<string>,
                                 rawBody: string, header: Option<string>, body: Json, id: int)
    requires SignatureAccepted(hmac, secret, rawBody, header)
    ensures WebhookVerdict(hmac, secret, rawBody, header, body, id) == Rejected(InvalidStructure)
        <==> Isset(body, "event").None? || Isset(body, "data").None?
  {
  }

  /**
   * Any event but exactly "payment.success" is ignored, whatever `data`
   * holds: two bodies with that event give the same Ignored verdict.
   */
  lemma OtherEventIgnored(hmac: (string, string) -> string, secret: Option<string>,
                          rawBody: string, header: Option<string>, body: Json, id: int)
    requires SignatureAccepted(hmac, secret, rawBody, header)
    requires Isset(body, "event").Some? && Isset(body, "data").Some?
    requires Isset(body, "event").value != JStr(PaymentSuccessEvent)
    ensures WebhookVerdict(hmac, secret, rawBody, header, body, id) == Ignored
  {
  }

  /**
   * The token check precedes everything else in `data`: a missing or false
   * token is refused, whatever the status.
   */
  lemma MissingTokenRejected(data: Json, id: int)
    requires !Truthy(IssetOr(data, "externalTransactionId", JNull))
    ensures PaymentSuccessVerdict(data, id) == Rejected(MissingToken)
  {
  }

  /**
   * Decoding precedes the status filter: a string token without a usable
   * invoice id is refused even when the status is not SUCCESS.
   */
  lemma BadTokenRejectedWhateverStatus(data: Json, id: int, token: string)
    requires Isset(data, "externalTransactionId") == Some(JStr(token))
    requires IsTruthyString(token) && Token.ParseInvoiceId(token).None?
    ensures PaymentSuccessVerdict(data, id) == Rejected(InvalidTokenFormat)
  {
  }

  /** A signed payment.success delivery with `data` present is judged on `data` alone. */
  lemma SuccessEventVerdict(hmac: (string, string) -> string, secret: Option<string>,
                            rawBody: string, header: Option<string>, body: Json, id: int, data: Json)
    requires SignatureAccepted(hmac, secret, rawBody, header)
    requires Isset(body, "event") == Some(JStr(PaymentSuccessEvent))
    requires Isset(body, "data") == Some(data)
    ensures WebhookVerdict(hmac, secret, rawBody, header, body, id) == PaymentSuccessVerdict(data, id)
  {
  }

  /**
   * Once a string token decodes to an invoice id, only the status decides:
   * SUCCESS confirms that id, anything else is ignored.
   */
  lemma DecodableTokenVerdict(data: Json, id: int, token: string, invoiceId: string)
    requires Isset(data, "externalTransactionId") == Some(JStr(token))
    requires Token.ParseInvoiceId(token) == Some(invoiceId)
    ensures PaymentSuccessVerdict(data, id) ==
      if Isset(data, "status") == Some(JStr(SuccessStatus))
      then Confirmed(UpdateRecord(id, invoiceId, IssetOr(data, "transactionId", JNull),
                                  IssetOr(data, "amount", JInt(0)), ProcessedStatus))
      else Ignored
  {
    assert |Token.DecodeDigits(token)| <= |token|;
  }

  /**
   * Confirmed exactly when every check passes and the status is exactly
   * SUCCESS; the record then carries the decoded invoice id, the gateway
   * transaction id (null if absent), the amount (0 if absent) and
   * "processed", and nothing else.
   */
  lemma ConfirmedExactly(hmac: (string, string) -> string, secret: Option<string>,
                         rawBody: string, header: Option<string>, body: Json, id: int)
    ensures var v := WebhookVerdict(hmac, secret, rawBody, header, body, id);
      v.Confirmed? <==>
        SignatureAccepted(hmac, secret, rawBody, header)
        && Isset(body, "event") == Some(JStr(PaymentSuccessEvent))
        && Isset(body, "data").Some?
        && var data := Isset(body, "data").value;
           var token := IssetOr(data, "externalTransactionId", JNull);
           Truthy(token) && StringArgument(token).Some?
           && Token.ParseInvoiceId(StringArgument(token).value).Some?
           && Isset(data, "status") == Some(JStr(SuccessStatus))
    ensures var v := WebhookVerdict(hmac, secret, rawBody, header, body, id);
      v.Confirmed? ==>
        var data := Isset(body, "data").value;
        v.record == UpdateRecord(id,
                                 Token.ParseInvoiceId(StringArgument(Isset(data, "externalTransactionId").value).value).value,
                                 IssetOr(data, "transactionId", JNull),
                                 IssetOr(data, "amount", JInt(0)),
                                 ProcessedStatus)
  {
  }

  /**
   * Ignored exactly for another event, or for a decodable payment.success
   * delivery whose status is not SUCCESS (a pending status is not an error).
   */
  lemma IgnoredExactly(hmac: (string, string) -> string, secret: Option<string>,
                       rawBody: string, header: Option<string>, body: Json, id: int)
    ensures var v := WebhookVerdict(hmac, secret, rawBody, header, body, id);
      v.Ignored? <==>
        SignatureAccepted(hmac, secret, rawBody, header)
        && Isset(body, "event").Some? && Isset(body, "data").Some?
        && (Isset(body, "event").value != JStr(PaymentSuccessEvent)
            || var data := Isset(body, "data").value;
               var token := IssetOr(data, "externalTransactionId", JNull);
               Truthy(token) && StringArgument(token).Some?
               && Token.ParseInvoiceId(StringArgument(token).value).Some?
               && IssetOr(data, "status", JStr("")) != JStr(SuccessStatus))
  {
  }

  /** The host's transaction store, seen through the writes the adapter makes. */
  class TransactionStore {
    var updates: seq<UpdateRecord>

    constructor ()
      ensures updates == []
    {
      updates := [];
    }

    /** `$api_admin->invoice_transaction_update($bd)` */
    method Update(bd: UpdateRecord)
      modifies this
      ensures updates == old(updates) + [bd]
    {
      updates := updates + [bd];
    }
  }

  /**
   * `processTransaction`: computes the verdict and, on Confirmed only,
   * writes its record to the store, once; nothing else is written.
   */
  method ProcessTransaction(store: TransactionStore, hmac: (string, string) -> string, secret: Option<string>,
                            rawBody: string, header: Option<string>, body: Json, id: int)
    returns (v: Verdict)
    modifies store
    ensures v == WebhookVerdict(hmac, secret, rawBody, header, body, id)
    ensures store.updates == old(store.updates) + (if v.Confirmed? then [v.record] else [])
  {
    v := WebhookVerdict(hmac, secret, rawBody, header, body, id);
    if v.Confirmed? {
      store.Update(v.record);
    }
  }
}

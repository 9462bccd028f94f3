/** `PaymentService`: Stripe payment intents tied to agreements through
    the intent's `agreementId` metadata, and the agreement metadata and
    audit entries their confirmation and webhook events write. Stripe
    itself is a parameter. */
module PaymentService {
  import opened Wrappers
  import opened Values
  import opened Models
  import opened Store

  /** The members of a Stripe payment intent this code reads. */
  datatype PaymentIntent = PaymentIntent(
    id: string,
    status: string,
    amount: Value,
    currency: Value,
    metadata: map<string, string>,
    lastPaymentError: Option<string>,
    clientSecret: Value)

  /** What `paymentIntents.create` is asked for. */
  datatype IntentRequest = IntentRequest(amount: Value, currency: string, agreementId: string)

  /** `paymentIntent.metadata.agreementId`, when truthy. */
  function AgreementRef(pi: PaymentIntent): Option<string>
  {
    if "agreementId" in pi.metadata && pi.metadata["agreementId"] != "" then Some(pi.metadata["agreementId"]) else None
  }

  /** `paymentIntent.last_payment_error?.message`. */
  function LastError(pi: PaymentIntent): Value
  {
    if pi.lastPaymentError.Some? then Str(pi.lastPaymentError.value) else Undef
  }

  const ReceivedBody: Value := Obj(map["received" := Bool(true)])

  // ---------------------------------------------------------------------
  // Metadata written on payment

  /** `{ ...metadata, paymentStatus: 'paid', paymentIntentId, paidAmount,
      paidCurrency, paidAt }`. */
  function PaidMetadata(m: Record, intentId: Value, amount: Value, currency: Value, now: int): (r: Record)
    ensures r.Keys == m.Keys + {"paymentStatus", "paymentIntentId", "paidAmount", "paidCurrency", "paidAt"}
    ensures forall k :: k in m && k !in {"paymentStatus", "paymentIntentId", "paidAmount", "paidCurrency", "paidAt"} ==> r[k] == m[k]
    ensures r["paymentStatus"] == Str("paid") && r["paymentIntentId"] == intentId
    ensures r["paidAmount"] == amount && r["paidCurrency"] == currency && r["paidAt"] == Time(now)
  {
    m + map["paymentStatus" := Str("paid"), "paymentIntentId" := intentId, "paidAmount" := amount,
            "paidCurrency" := currency, "paidAt" := Time(now)]
  }

  /** `{ ...metadata, paymentStatus: 'failed', paymentIntentId, lastError }`. */
  function FailedMetadata(m: Record, intentId: Value, lastError: Value): (r: Record)
    ensures r.Keys == m.Keys + {"paymentStatus", "paymentIntentId", "lastError"}
    ensures forall k :: k in m && k !in {"paymentStatus", "paymentIntentId", "lastError"} ==> r[k] == m[k]
    ensures r["paymentStatus"] == Str("failed") && r["paymentIntentId"] == intentId && r["lastError"] == lastError
  {
    m + map["paymentStatus" := Str("failed"), "paymentIntentId" := intentId, "lastError" := lastError]
  }

  function SuccessAudit(agreementId: string, pi: PaymentIntent, now: int): AuditEntry
  {
    AuditEntry(AgreementEntity, agreementId, Update, Changes(None, Some(Fields(map["paymentStatus" := Str("paid")]))),
      map["type" := Str("payment_success"), "paymentIntentId" := Str(pi.id), "amount" := pi.amount, "currency" := pi.currency], now)
  }

  function FailureAudit(agreementId: string, pi: PaymentIntent, now: int): AuditEntry
  {
    AuditEntry(AgreementEntity, agreementId, Update, Changes(None, Some(Fields(map["paymentStatus" := Str("failed")]))),
      map["type" := Str("payment_failure"), "paymentIntentId" := Str(pi.id), "error" := LastError(pi)], now)
  }

  /** The tables after `handlePaymentSuccess` (`succeeded`) or
      `handlePaymentFailure` on `agreements0`/`audit0`: with a known
      agreement its metadata is merged and one entry appended, otherwise
      nothing changes. */
  ghost predicate Handled(agreements: map<string, Agreement>, audit: seq<AuditEntry>,
                          agreements0: map<string, Agreement>, audit0: seq<AuditEntry>,
                          pi: PaymentIntent, succeeded: bool, now: int)
  {
    var ref := AgreementRef(pi);
    if ref.Some? && ref.value in agreements0 then
      var a := agreements0[ref.value];
      var m := if succeeded then PaidMetadata(a.metadata, Str(pi.id), pi.amount, pi.currency, now)
               else FailedMetadata(a.metadata, Str(pi.id), LastError(pi));
      && agreements == agreements0[ref.value := a.(metadata := m)]
      && audit == audit0 + [if succeeded then SuccessAudit(ref.value, pi, now) else FailureAudit(ref.value, pi, now)]
    else agreements == agreements0 && audit == audit0
  }

  /** Payment events change only metadata: no row appears or disappears
      and no status, envelope id, signer list or value changes. */
  lemma {:induction false} PaymentLeavesStatus(agreements: map<string, Agreement>, audit: seq<AuditEntry>,
                                                 agreements0: map<string, Agreement>, audit0: seq<AuditEntry>,
                                                 pi: PaymentIntent, succeeded: bool, now: int)
    requires Handled(agreements, audit, agreements0, audit0, pi, succeeded, now)
    ensures agreements.Keys == agreements0.Keys
    ensures forall k :: k in agreements ==> agreements[k] == agreements0[k].(metadata := agreements[k].metadata)
    ensures |audit| <= |audit0| + 1
  {
    var ref := AgreementRef(pi);
    if ref.Some? && ref.value in agreements0 {
      forall k | k in agreements ensures agreements[k] == agreements0[k].(metadata := agreements[k].metadata) {
        if k != ref.value {
          assert agreements[k] == agreements0[k];
        }
      }
    }
  }

  // ---------------------------------------------------------------------
  // Operations

  /** The entry `createPaymentIntent` writes. */
  function IntentAudit(agreementId: string, amount: Value, currency: string, pi: PaymentIntent, now: int): AuditEntry
  {
    AuditEntry(AgreementEntity, agreementId, Create, Changes(None, Some(Fields(map["paymentIntentId" := Str(pi.id)]))),
      map["type" := Str("payment_intent"), "amount" := amount, "currency" := Str(currency), "status" := Str(pi.status)], now)
  }

  /** `createPaymentIntent`: the intent carries the agreement id; one
      `create` entry records it, whether or not the agreement exists. */
  method CreatePaymentIntent(db: Db, agreementId: string, amount: Value, currency: string, now: int,
                             create: IntentRequest -> Result<PaymentIntent>) returns (r: Result<PaymentIntent>)
    requires db.Valid()
    modifies db
    ensures db.Valid()
    ensures r == create(IntentRequest(amount, currency, agreementId))
    ensures db.agreements == old(db.agreements) && db.templates == old(db.templates)
    ensures r.Err? ==> db.audit == old(db.audit)
    ensures r.Ok? ==> db.audit == old(db.audit) + [IntentAudit(agreementId, amount, currency, r.value, now)]
  {
    r := create(IntentRequest(amount, currency, agreementId));
    if r.Ok? {
      db.AppendAudit(IntentAudit(agreementId, amount, currency, r.value, now));
    }
  }

  function ConfirmationAudit(agreementId: string, paymentIntentId: Value, pi: PaymentIntent, now: int): AuditEntry
  {
    AuditEntry(AgreementEntity, agreementId, Update, Changes(None, Some(Fields(map["paymentStatus" := Str(pi.status)]))),
      map["type" := Str("payment_confirmation"), "paymentIntentId" := paymentIntentId, "status" := Str(pi.status)], now)
  }

  /** The tables after `confirmPayment` answered with `r`: with an
      agreement reference the confirmation is always audited; the metadata
      is merged only when the intent `succeeded` and the agreement exists,
      and that save writes no entry of its own. */
  ghost predicate Confirmed(agreements: map<string, Agreement>, audit: seq<AuditEntry>,
                            agreements0: map<string, Agreement>, audit0: seq<AuditEntry>,
                            paymentIntentId: Value, r: Result<PaymentIntent>, now: int)
  {
    if r.Err? || AgreementRef(r.value).None? then agreements == agreements0 && audit == audit0
    else
      var pi := r.value;
      var aid := AgreementRef(pi).value;
      && audit == audit0 + [ConfirmationAudit(aid, paymentIntentId, pi, now)]
      && agreements == (if pi.status == "succeeded" && aid in agreements0
           then agreements0[aid := agreements0[aid].(metadata :=
                  PaidMetadata(agreements0[aid].metadata, paymentIntentId, pi.amount, pi.currency, now))]
           else agreements0)
  }

  /** `confirmPayment`; `confirm` is Stripe's answer. */
  method ConfirmPayment(db: Db, paymentIntentId: Value, now: int, confirm: Value -> Result<PaymentIntent>)
    returns (r: Result<PaymentIntent>)
    requires db.Valid()
    modifies db
    ensures db.Valid()
    ensures r == confirm(paymentIntentId)
    ensures db.templates == old(db.templates)
    ensures Confirmed(db.agreements, db.audit, old(db.agreements), old(db.audit), paymentIntentId, r, now)
  {
    r := confirm(paymentIntentId);
    if r.Err? {
      return;
    }
    var pi := r.value;
    var ref := AgreementRef(pi);
    if ref.Some? {
      var aid := ref.value;
      db.AppendAudit(ConfirmationAudit(aid, paymentIntentId, pi, now));
      if pi.status == "succeeded" && aid in db.agreements {
        var a := db.agreements[aid];
        var b := a.(metadata := PaidMetadata(a.metadata, paymentIntentId, pi.amount, pi.currency, now));
        ResaveStorable(db.agreements, b);
        var ok := db.SaveAgreement(b);
      }
    }
  }

  /** `handlePaymentSuccess`. */
  method HandlePaymentSuccess(db: Db, pi: PaymentIntent, now: int)
    requires db.Valid()
    modifies db
    ensures db.Valid()
    ensures db.templates == old(db.templates)
    ensures Handled(db.agreements, db.audit, old(db.agreements), old(db.audit), pi, true, now)
  {
    var ref := AgreementRef(pi);
    if ref.None? || ref.value !in db.agreements {
      return;
    }
    var a := db.agreements[ref.value];
    var b := a.(metadata := PaidMetadata(a.metadata, Str(pi.id), pi.amount, pi.currency, now));
    ResaveStorable(db.agreements, b);
    var ok := db.SaveAgreement(b);
    db.AppendAudit(SuccessAudit(ref.value, pi, now));
  }

  /** `handlePaymentFailure`. */
  method HandlePaymentFailure(db: Db, pi: PaymentIntent, now: int)
    requires db.Valid()
    modifies db
    ensures db.Valid()
    ensures db.templates == old(db.templates)
    ensures Handled(db.agreements, db.audit, old(db.agreements), old(db.audit), pi, false, now)
  {
    var ref := AgreementRef(pi);
    if ref.None? || ref.value !in db.agreements {
      return;
    }
    var a := db.agreements[ref.value];
    var b := a.(metadata := FailedMetadata(a.metadata, Str(pi.id), LastError(pi)));
    ResaveStorable(db.agreements, b);
    var ok := db.SaveAgreement(b);
    db.AppendAudit(FailureAudit(ref.value, pi, now));
  }

  /** A verified Stripe event. */
  datatype StripeEvent = StripeEvent(eventType: string, intent: PaymentIntent)

  /** `handleWebhookEvent`. `construct` is `stripe.webhooks.constructEvent`
      on the raw body and the signature header; it fails on a bad
      signature, and that failure is rethrown. */
  method HandleWebhookEvent(db: Db, payload: string, signature: Option<string>, now: int,
                            construct: (string, Option<string>) -> Result<StripeEvent>) returns (r: Result<Value>)
    requires db.Valid()
    modifies db
    ensures db.Valid()
    ensures db.templates == old(db.templates)
    ensures var ev := construct(payload, signature);
      && (ev.Err? ==> r == Err(ev.error) && db.agreements == old(db.agreements) && db.audit == old(db.audit))
      && (ev.Ok? ==> r == Ok(ReceivedBody))
      && (ev.Ok? && ev.value.eventType == "payment_intent.succeeded" ==>
            Handled(db.agreements, db.audit, old(db.agreements), old(db.audit), ev.value.intent, true, now))
      && (ev.Ok? && ev.value.eventType == "payment_intent.payment_failed" ==>
            Handled(db.agreements, db.audit, old(db.agreements), old(db.audit), ev.value.intent, false, now))
      && (ev.Ok? && ev.value.eventType != "payment_intent.succeeded" && ev.value.eventType != "payment_intent.payment_failed" ==>
            db.agreements == old(db.agreements) && db.audit == old(db.audit))
  {
    var ev := construct(payload, signature);
    if ev.Err? {
      return Err(ev.error);
    }
    if ev.value.eventType == "payment_intent.succeeded" {
      HandlePaymentSuccess(db, ev.value.intent, now);
    } else if ev.value.eventType == "payment_intent.payment_failed" {
      HandlePaymentFailure(db, ev.value.intent, now);
    }
    r := Ok(ReceivedBody);
  }
}

/** The agreement routes that drive the lifecycle: create (optionally
    with a payment intent), send for signature, confirm payment and void.
    Errors go to the framework's error handler, which is not modelled; a
    handler's outcome is therefore its reply body or the error it passes
    on. */
module AgreementRoutes {
  import opened Wrappers
  import opened Values
  import opened Models
  import opened Store
  import opened Redis
  import opened AgreementService
  import opened DocuSignService
  import opened DocuSignWorker
  import opened PaymentService

  // ---------------------------------------------------------------------
  // Create

  datatype PaymentInfo = PaymentInfo(id: string, clientSecret: Value)

  /** `{ agreement, paymentIntent? }`: the agreement as created, before the
      payment metadata was added. */
  datatype CreateReply = CreateReply(agreement: Agreement, paymentIntent: Option<PaymentInfo>)

  /** `{ ...agreement.metadata, paymentIntentId, paymentAmount,
      paymentStatus: 'pending' }`. */
  function PendingMetadata(m: Record, pi: PaymentIntent, amount: Value): (r: Record)
    ensures r.Keys == m.Keys + {"paymentIntentId", "paymentAmount", "paymentStatus"}
    ensures forall k :: k in m && k !in {"paymentIntentId", "paymentAmount", "paymentStatus"} ==> r[k] == m[k]
    ensures r["paymentIntentId"] == Str(pi.id) && r["paymentAmount"] == amount && r["paymentStatus"] == Str("pending")
  {
    m + map["paymentIntentId" := Str(pi.id), "paymentAmount" := amount, "paymentStatus" := Str("pending")]
  }

  /** `POST /`. `newId` is the id the database assigns; `create` is
      Stripe's answer to the intent request (currency `usd`). A failure of
      Stripe leaves the created agreement in place. */
  method CreateRoute(db: Db, templateId: string, signers: seq<Signer>, paymentAmount: Value, newId: string, now: int,
                     create: IntentRequest -> Result<PaymentIntent>) returns (r: Result<CreateReply>)
    requires db.Valid()
    requires newId !in db.agreements
    modifies db
    ensures db.Valid()
    ensures db.templates == old(db.templates)
    ensures templateId !in old(db.templates) ==>
      r == Err(NotFound("Template not found")) && db.agreements == old(db.agreements) && db.audit == old(db.audit)
    ensures templateId in old(db.templates) ==>
      var a := NewDraft(newId, templateId, signers, now);
      var created := Audit(AgreementEntity, newId, Create, Changes(None, Some(AgreementSnap(a))), now);
      var pi := create(IntentRequest(paymentAmount, "usd", newId));
      && (!Truthy(paymentAmount) ==>
            r == Ok(CreateReply(a, None)) && db.agreements == old(db.agreements)[newId := a] && db.audit == old(db.audit) + [created])
      && (Truthy(paymentAmount) && pi.Err? ==>
            r == Err(pi.error) && db.agreements == old(db.agreements)[newId := a] && db.audit == old(db.audit) + [created])
      && (Truthy(paymentAmount) && pi.Ok? ==>
            var b := a.(metadata := PendingMetadata(a.metadata, pi.value, paymentAmount));
            && r == Ok(CreateReply(a, Some(PaymentInfo(pi.value.id, pi.value.clientSecret))))
            && db.agreements == old(db.agreements)[newId := b]
            && db.audit == old(db.audit) + [created] + [IntentAudit(newId, paymentAmount, "usd", pi.value, now)] + [UpdateAudit(a, b, now)])
  {
    var created := CreateAgreement(db, templateId, signers, newId, now);
    if created.Err? {
      return Err(created.error);
    }
    var a := created.value;
    if !Truthy(paymentAmount) {
      return Ok(CreateReply(a, None));
    }
    r := AttachPayment(db, a, paymentAmount, now, create);
    if r.Ok? && r.value.paymentIntent.Some? {
      SaveTwice(old(db.agreements), newId, a, db.agreements[newId]);
    }
  }

  /** The payment half of `POST /`, on the row just created: the intent is
      requested in `usd`, and its id and the amount are merged into the
      metadata as pending through `updateAgreement`. */
  method AttachPayment(db: Db, a: Agreement, paymentAmount: Value, now: int,
                       create: IntentRequest -> Result<PaymentIntent>) returns (r: Result<CreateReply>)
    requires db.Valid()
    requires a.id in db.agreements && db.agreements[a.id] == a
    modifies db
    ensures db.Valid()
    ensures db.templates == old(db.templates)
    ensures var pi := create(IntentRequest(paymentAmount, "usd", a.id));
      && (pi.Err? ==> r == Err(pi.error) && db.agreements == old(db.agreements) && db.audit == old(db.audit))
      && (pi.Ok? ==>
            var b := a.(metadata := PendingMetadata(a.metadata, pi.value, paymentAmount));
            && r == Ok(CreateReply(a, Some(PaymentInfo(pi.value.id, pi.value.clientSecret))))
            && db.agreements == old(db.agreements)[a.id := b]
            && db.audit == old(db.audit) + [IntentAudit(a.id, paymentAmount, "usd", pi.value, now)] + [UpdateAudit(a, b, now)])
  {
    var pi := CreatePaymentIntent(db, a.id, paymentAmount, "usd", now, create);
    if pi.Err? {
      return Err(pi.error);
    }
    var b := a.(metadata := PendingMetadata(a.metadata, pi.value, paymentAmount));
    var u := Patch(None, Some(b.metadata), None);
    assert ApplyPatch(a, u) == b;
    PatchWithoutEnvelopeSucceeds(db.agreements, a.id, u);
    var updated := UpdateAgreement(db, a.id, u, now);
    r := Ok(CreateReply(a, Some(PaymentInfo(pi.value.id, pi.value.clientSecret))));
  }

  // ---------------------------------------------------------------------
  // Send

  /** `metadata.paymentAmount && metadata.paymentStatus !== 'paid'`. */
  predicate PaymentRequired(m: Record)
  {
    Truthy(Get(m, "paymentAmount")) && Get(m, "paymentStatus") != Str("paid")
  }

  const PaymentRequiredError := AppError(400, "Payment required before sending for signature")

  /** `agreement.template!.docusignTemplateId` when the row's template is
      gone. */
  const MissingTemplateError := Failure("Cannot read properties of null (reading 'docusignTemplateId')")

  /** The update a successful send applies. */
  function SendPatch(m: Record, envelopeId: string, now: int): (u: Patch)
    ensures u.status == Some(Sent) && u.envelopeId == Some(envelopeId)
    ensures u.metadata == Some(m["sentAt" := Time(now)])
  {
    Patch(Some(Sent), Some(m["sentAt" := Time(now)]), Some(envelopeId))
  }

  /** An agreement created with a payment amount cannot be sent until a
      payment event has marked it paid; once paid, the gate is open. */
  lemma PaymentGatesSend(m: Record, pi: PaymentIntent, amount: Value, intentId: Value, paid: Value, currency: Value, now: int)
    ensures PaymentRequired(PendingMetadata(m, pi, amount)) <==> Truthy(amount)
    ensures !PaymentRequired(PaidMetadata(m, intentId, paid, currency, now))
    ensures !PaymentRequired(FailedMetadata(m, intentId, paid)) <==> !Truthy(Get(m, "paymentAmount"))
  {
  }

  /** `POST /:id/send`. */
  method SendRoute(db: Db, redis: Cache, id: string, userId: string, now: int, jwt: Result<string>,
                   createApi: EnvelopeDefinition -> Result<string>) returns (r: Result<string>)
    requires db.Valid()
    modifies db, redis
    ensures db.Valid()
    ensures db.templates == old(db.templates)
    ensures !(id in old(db.agreements) && !PaymentRequired(old(db.agreements)[id].metadata)
              && old(db.agreements)[id].templateId in old(db.templates)) ==>
      && db.agreements == old(db.agreements) && db.audit == old(db.audit) && redis.entries == old(redis.entries)
      && r == (if id !in old(db.agreements) then Err(NotFound("Agreement not found"))
               else if PaymentRequired(old(db.agreements)[id].metadata) then Err(PaymentRequiredError)
               else Err(MissingTemplateError))
    ensures id in old(db.agreements) && !PaymentRequired(old(db.agreements)[id].metadata)
            && old(db.agreements)[id].templateId in old(db.templates) ==>
      var a := old(db.agreements)[id];
      var sent := EnvelopeOutcome(old(redis.entries), userId, now, jwt,
                    old(db.templates)[a.templateId].docusignTemplateId, AsEnvelopeSigners(a), createApi);
      && redis.entries == TokenEntries(old(redis.entries), userId, now, jwt)
      && (sent.Err? ==> r == sent && db.agreements == old(db.agreements) && db.audit == old(db.audit))
      && (sent.Ok? ==>
            var u := SendPatch(a.metadata, sent.value, now);
            && AfterUpdate(db.agreements, db.audit, old(db.agreements), old(db.audit), id, u, now)
            && r == (if UpdateOutcome(old(db.agreements), id, u).Ok? then sent else Err(UpdateOutcome(old(db.agreements), id, u).error)))
  {
    var found := GetAgreement(db.agreements, id);
    if found.Err? {
      return Err(found.error);
    }
    var a := found.value;
    if PaymentRequired(a.metadata) {
      return Err(PaymentRequiredError);
    }
    if a.templateId !in db.templates {
      return Err(MissingTemplateError);
    }
    var sent := CreateEnvelope(redis, userId, now, jwt, db.templates[a.templateId].docusignTemplateId, AsEnvelopeSigners(a), createApi);
    if sent.Err? {
      return sent;
    }
    var updated := UpdateAgreement(db, a.id, SendPatch(a.metadata, sent.value, now), now);
    if updated.Err? {
      return Err(updated.error);
    }
    r := sent;
  }

  // ---------------------------------------------------------------------
  // Confirm payment

  /** `{ status, agreement }`, the agreement read again after confirming. */
  datatype ConfirmReply = ConfirmReply(status: string, agreement: Agreement)

  /** `POST /:id/confirm-payment`; `confirm` is Stripe's answer. The id in
      the body is compared with the stored one by `!==`. */
  method ConfirmPaymentRoute(db: Db, id: string, paymentIntentId: Value, now: int, confirm: Value -> Result<PaymentIntent>)
    returns (r: Result<ConfirmReply>)
    requires db.Valid()
    modifies db
    ensures db.Valid()
    ensures db.templates == old(db.templates)
    ensures id !in old(db.agreements) ==>
      r == Err(NotFound("Agreement not found")) && db.agreements == old(db.agreements) && db.audit == old(db.audit)
    ensures id in old(db.agreements) && Get(old(db.agreements)[id].metadata, "paymentIntentId") != paymentIntentId ==>
      r == Err(AppError(400, "Invalid payment intent ID")) && db.agreements == old(db.agreements) && db.audit == old(db.audit)
    ensures id in old(db.agreements) && Get(old(db.agreements)[id].metadata, "paymentIntentId") == paymentIntentId ==>
      var pi := confirm(paymentIntentId);
      && Confirmed(db.agreements, db.audit, old(db.agreements), old(db.audit), paymentIntentId, pi, now)
      && id in db.agreements
      && r == (if pi.Ok? then Ok(ConfirmReply(pi.value.status, db.agreements[id])) else Err(pi.error))
  {
    var found := GetAgreement(db.agreements, id);
    if found.Err? {
      return Err(found.error);
    }
    if Get(found.value.metadata, "paymentIntentId") != paymentIntentId {
      return Err(AppError(400, "Invalid payment intent ID"));
    }
    var pi := ConfirmPayment(db, paymentIntentId, now, confirm);
    if pi.Err? {
      return Err(pi.error);
    }
    r := Ok(ConfirmReply(pi.value.status, db.agreements[id]));
  }

  // ---------------------------------------------------------------------
  // Void

  /** The update `POST /:id/void` applies: the metadata is replaced. */
  function VoidPatch(reason: Value, now: int): (u: Patch)
    ensures u.status == Some(Voided) && u.envelopeId.None?
    ensures u.metadata == Some(map["voidedAt" := Time(now), "voidReason" := reason])
  {
    Patch(Some(Voided), Some(map["voidedAt" := Time(now), "voidReason" := reason]), None)
  }

  /** Voiding succeeds on any stored agreement, whatever its status, and
      leaves exactly the two void keys in its metadata. */
  lemma VoidFromAnyState(agreements: map<string, Agreement>, id: string, reason: Value, now: int)
    requires AgreementsKeyed(agreements) && EnvelopeIdsUnique(agreements) && id in agreements
    ensures var o := UpdateOutcome(agreements, id, VoidPatch(reason, now));
      && o.Ok?
      && o.value.status == Voided
      && o.value.metadata == map["voidedAt" := Time(now), "voidReason" := reason]
      && o.value == agreements[id].(status := Voided, metadata := o.value.metadata)
  {
    PatchWithoutEnvelopeSucceeds(agreements, id, VoidPatch(reason, now));
  }

  /** `POST /:id/void`. */
  method VoidRoute(db: Db, id: string, reason: Value, now: int) returns (r: Result<Agreement>)
    requires db.Valid()
    modifies db
    ensures db.Valid()
    ensures db.templates == old(db.templates)
    ensures r == UpdateOutcome(old(db.agreements), id, VoidPatch(reason, now))
    ensures AfterUpdate(db.agreements, db.audit, old(db.agreements), old(db.audit), id, VoidPatch(reason, now), now)
  {
    r := UpdateAgreement(db, id, VoidPatch(reason, now), now);
  }
}

/** The webhook routes: DocuSign envelope events, gated by the signature
    check, update the agreement through `updateAgreement` and queue the
    signed notification; Stripe events are handed to the payment
    service. */
module Webhooks {
  import opened Wrappers
  import opened Values
  import opened Models
  import opened Store
  import opened Redis
  import opened Queues
  import opened AgreementService
  import opened DocuSignService
  import opened PaymentService

  /** An HTTP reply: status code and JSON body. */
  datatype Reply = Reply(status: int, body: Value)

  const Unauthorized := Reply(401, Obj(map["error" := Str("Invalid signature")]))
  const ServerError := Reply(500, Obj(map["error" := Str("Internal server error")]))
  const Received := Reply(200, ReceivedBody)

  datatype EnvelopeEvent = SignedEvent | DeclinedEvent | VoidedEvent | OtherEvent

  /** `switch (data.event)`. */
  function EventOf(data: Value): (e: EnvelopeEvent)
    ensures e == SignedEvent <==> Member(data, "event") == Str("envelope-signed")
    ensures e == DeclinedEvent <==> Member(data, "event") == Str("envelope-declined")
    ensures e == VoidedEvent <==> Member(data, "event") == Str("envelope-voided")
  {
    var ev := Member(data, "event");
    if ev == Str("envelope-signed") then SignedEvent
    else if ev == Str("envelope-declined") then DeclinedEvent
    else if ev == Str("envelope-voided") then VoidedEvent
    else OtherEvent
  }

  /** `data.agreementId` as a primary key; anything but a string makes the
      lookup fail. */
  function PayloadAgreementId(data: Value): Option<string>
  {
    match Member(data, "agreementId")
    case Str(s) => Some(s)
    case _ => None
  }

  /** `{ ...data.metadata, signedAt }` with status `signed`. */
  function SignedPatch(data: Value, now: int): (u: Patch)
    ensures u.status == Some(Signed) && u.envelopeId.None? && u.metadata.Some?
    ensures u.metadata.value == Spread(Member(data, "metadata"))["signedAt" := Time(now)]
  {
    Patch(Some(Signed), Some(Spread(Member(data, "metadata"))["signedAt" := Time(now)]), None)
  }

  /** `{ ...data.metadata, declinedAt, declinedBy, declineReason }` with
      status `voided`. */
  function DeclinedPatch(data: Value, now: int): (u: Patch)
    ensures u.status == Some(Voided) && u.envelopeId.None? && u.metadata.Some?
    ensures u.metadata.value.Keys == Spread(Member(data, "metadata")).Keys + {"declinedAt", "declinedBy", "declineReason"}
    ensures u.metadata.value["declinedAt"] == Time(now)
    ensures u.metadata.value["declinedBy"] == Member(data, "recipientEmail")
    ensures u.metadata.value["declineReason"] == Member(data, "declineReason")
    ensures forall k :: k in Spread(Member(data, "metadata")) && k !in {"declinedAt", "declinedBy", "declineReason"} ==>
      u.metadata.value[k] == Spread(Member(data, "metadata"))[k]
  {
    Patch(Some(Voided), Some(Spread(Member(data, "metadata")) + map["declinedAt" := Time(now),
      "declinedBy" := Member(data, "recipientEmail"), "declineReason" := Member(data, "declineReason")]), None)
  }

  /** `{ ...data.metadata, voidedAt, voidedBy, voidReason }` with status
      `voided`. */
  function VoidedPatch(data: Value, now: int): (u: Patch)
    ensures u.status == Some(Voided) && u.envelopeId.None? && u.metadata.Some?
    ensures u.metadata.value.Keys == Spread(Member(data, "metadata")).Keys + {"voidedAt", "voidedBy", "voidReason"}
    ensures u.metadata.value["voidedAt"] == Time(now)
    ensures u.metadata.value["voidedBy"] == Member(data, "senderEmail")
    ensures u.metadata.value["voidReason"] == Member(data, "voidReason")
    ensures forall k :: k in Spread(Member(data, "metadata")) && k !in {"voidedAt", "voidedBy", "voidReason"} ==>
      u.metadata.value[k] == Spread(Member(data, "metadata"))[k]
  {
    Patch(Some(Voided), Some(Spread(Member(data, "metadata")) + map["voidedAt" := Time(now),
      "voidedBy" := Member(data, "senderEmail"), "voidReason" := Member(data, "voidReason")]), None)
  }

  /** The notification the signed event queues. */
  function SignedJob(data: Value): Job
  {
    Job("envelope-signed", map["type" := Str("envelope-signed"), "agreementId" := Member(data, "agreementId")])
  }

  /** What the handler decides before touching the store: a reply with no
      change, or an update (and, for a completed signature, a notification). */
  datatype Plan = Respond(reply: Reply) | Apply(patch: Patch, notify: bool)

  /** The DocuSign handler's decision. `parsed` is `JSON.parse(payload)`,
      `None` when it throws; `status` and `download` are the outcomes of
      `getEnvelopeStatus` and `downloadSignedDocument`. */
  function WebhookPlan(valid: bool, parsed: Option<Value>, status: Result<EnvelopeStatus>, download: Result<string>, now: int): Plan
  {
    if !valid then Respond(Unauthorized)
    else if parsed.None? || parsed.value.Null? then Respond(ServerError)
    else
      var data := parsed.value;
      match EventOf(data)
      case SignedEvent =>
        if status.Err? then Respond(ServerError)
        else if status.value.status != "completed" then Respond(Received)
        else if download.Err? then Respond(ServerError)
        else Apply(SignedPatch(data, now), true)
      case DeclinedEvent => Apply(DeclinedPatch(data, now), false)
      case VoidedEvent => Apply(VoidedPatch(data, now), false)
      case OtherEvent => Respond(Received)
  }

  /** An invalid signature is answered 401 before the payload is read. */
  lemma InvalidSignatureRejected(parsed: Option<Value>, status: Result<EnvelopeStatus>, download: Result<string>, now: int)
    ensures WebhookPlan(false, parsed, status, download, now) == Respond(Unauthorized)
  {
  }

  /** An agreement is marked signed only for an `envelope-signed` event
      whose envelope DocuSign reports `completed`, and only then is a
      notification queued. */
  lemma SignedOnlyWhenCompleted(valid: bool, parsed: Option<Value>, status: Result<EnvelopeStatus>, download: Result<string>, now: int)
    requires WebhookPlan(valid, parsed, status, download, now).Apply?
    ensures var p := WebhookPlan(valid, parsed, status, download, now);
      && valid && parsed.Some?
      && (p.patch.status == Some(Signed) <==> EventOf(parsed.value) == SignedEvent)
      && (p.notify <==> EventOf(parsed.value) == SignedEvent)
      && (p.notify ==> status == Ok(status.value) && status.value.status == "completed" && download.Ok?)
  {
  }

  /** Events other than the three are acknowledged and change nothing. */
  lemma OtherEventsAcknowledged(parsed: Value, status: Result<EnvelopeStatus>, download: Result<string>, now: int)
    requires !parsed.Null? && EventOf(parsed) == OtherEvent
    ensures WebhookPlan(true, Some(parsed), status, download, now) == Respond(Received)
  {
  }

  /** No current-state check: the new status and metadata are the same
      whatever the stored row's status and metadata were, and a decline
      keeps no stored key (such as the payment state) the payload does not
      carry. */
  lemma PayloadDecidesMetadata(a: Agreement, b: Agreement, data: Value, now: int)
    ensures ApplyPatch(a, DeclinedPatch(data, now)).status == ApplyPatch(b, DeclinedPatch(data, now)).status == Voided
    ensures ApplyPatch(a, DeclinedPatch(data, now)).metadata == ApplyPatch(b, DeclinedPatch(data, now)).metadata
    ensures ApplyPatch(a, VoidedPatch(data, now)).metadata == ApplyPatch(b, VoidedPatch(data, now)).metadata
    ensures ApplyPatch(a, SignedPatch(data, now)).metadata == ApplyPatch(b, SignedPatch(data, now)).metadata
    ensures ApplyPatch(a, SignedPatch(data, now)).status == Signed
    ensures "paymentStatus" !in Spread(Member(data, "metadata")) ==>
      "paymentStatus" !in ApplyPatch(a, DeclinedPatch(data, now)).metadata
  {
  }

  /** The DocuSign webhook route. Any error reaching the handler's catch
      (a bad `agreementId`, a missing row, a failed save, a failed
      DocuSign call) is answered 500. */
  method DocuSignWebhook(db: Db, redis: Cache, notifications: JobQueue,
                         signature: Option<string>, payload: string, secret: Option<string>, hmac: (string, string) -> Option<string>,
                         parsed: Option<Value>, userId: string, jwt: Result<string>, listRecipients: Result<Recipients>,
                         download: Result<string>, now: int) returns (reply: Reply)
    requires db.Valid()
    modifies db, redis, notifications
    ensures db.Valid()
    ensures db.templates == old(db.templates)
    ensures var valid := ValidateWebhookSignature(signature, payload, secret, hmac);
      var signedEvent := valid && parsed.Some? && !parsed.value.Null? && EventOf(parsed.value) == SignedEvent;
      redis.entries == if signedEvent then TokenEntries(old(redis.entries), userId, now, jwt) else old(redis.entries)
    ensures var plan := WebhookPlan(ValidateWebhookSignature(signature, payload, secret, hmac), parsed,
                                    StatusOutcome(old(redis.entries), userId, now, jwt, listRecipients), download, now);
      && (plan.Respond? ==>
            reply == plan.reply && db.agreements == old(db.agreements) && db.audit == old(db.audit)
            && notifications.jobs == old(notifications.jobs))
      && (plan.Apply? && PayloadAgreementId(parsed.value).None? ==>
            reply == ServerError && db.agreements == old(db.agreements) && db.audit == old(db.audit)
            && notifications.jobs == old(notifications.jobs))
      && (plan.Apply? && PayloadAgreementId(parsed.value).Some? ==>
            var id := PayloadAgreementId(parsed.value).value;
            && AfterUpdate(db.agreements, db.audit, old(db.agreements), old(db.audit), id, plan.patch, now)
            && (UpdateOutcome(old(db.agreements), id, plan.patch).Err? ==>
                  reply == ServerError && notifications.jobs == old(notifications.jobs))
            && (UpdateOutcome(old(db.agreements), id, plan.patch).Ok? ==>
                  && reply == Received
                  && notifications.jobs == old(notifications.jobs) + (if plan.notify then [SignedJob(parsed.value)] else [])))
  {
    ghost var entries0 := redis.entries;
    var valid := ValidateWebhookSignature(signature, payload, secret, hmac);
    if !valid {
      return Unauthorized;
    }
    if parsed.None? || parsed.value.Null? {
      return ServerError;
    }
    var data := parsed.value;
    var patch: Patch;
    var notify := false;
    match EventOf(data) {
      case SignedEvent =>
        var status := GetEnvelopeStatus(redis, userId, now, jwt, listRecipients);
        if status.Err? {
          return ServerError;
        }
        if status.value.status != "completed" {
          return Received;
        }
        if download.Err? {
          return ServerError;
        }
        patch, notify := SignedPatch(data, now), true;
      case DeclinedEvent =>
        patch := DeclinedPatch(data, now);
      case VoidedEvent =>
        patch := VoidedPatch(data, now);
      case OtherEvent =>
        return Received;
    }
    assert WebhookPlan(valid, parsed, StatusOutcome(entries0, userId, now, jwt, listRecipients), download, now) == Apply(patch, notify);
    reply := ApplyEnvelopeEvent(db, notifications, data, patch, notify, now);
  }

  /** The tail of the DocuSign handler once it has decided on an update:
      `updateAgreement` on the payload's `agreementId`, then the signed
      notification when one is due. */
  method ApplyEnvelopeEvent(db: Db, notifications: JobQueue, data: Value, patch: Patch, notify: bool, now: int)
    returns (reply: Reply)
    requires db.Valid()
    modifies db, notifications
    ensures db.Valid()
    ensures db.templates == old(db.templates)
    ensures PayloadAgreementId(data).None? ==>
      reply == ServerError && db.agreements == old(db.agreements) && db.audit == old(db.audit)
      && notifications.jobs == old(notifications.jobs)
    ensures PayloadAgreementId(data).Some? ==>
      var id := PayloadAgreementId(data).value;
      && AfterUpdate(db.agreements, db.audit, old(db.agreements), old(db.audit), id, patch, now)
      && (UpdateOutcome(old(db.agreements), id, patch).Err? ==>
            reply == ServerError && notifications.jobs == old(notifications.jobs))
      && (UpdateOutcome(old(db.agreements), id, patch).Ok? ==>
            && reply == Received
            && notifications.jobs == old(notifications.jobs) + (if notify then [SignedJob(data)] else []))
  {
    var id := PayloadAgreementId(data);
    if id.None? {
      return ServerError;
    }
    var updated := UpdateAgreement(db, id.value, patch, now);
    if updated.Err? {
      return ServerError;
    }
    if notify {
      var job := SignedJob(data);
      notifications.Add(job.name, job.data);
    }
    reply := Received;
  }

  /** The Stripe webhook route: the payment service's answer, or 500. */
  method StripeWebhook(db: Db, payload: string, signature: Option<string>, now: int,
                       construct: (string, Option<string>) -> Result<StripeEvent>) returns (reply: Reply)
    requires db.Valid()
    modifies db
    ensures db.Valid()
    ensures db.templates == old(db.templates)
    ensures construct(payload, signature).Err? ==>
      reply == ServerError && db.agreements == old(db.agreements) && db.audit == old(db.audit)
    ensures construct(payload, signature).Ok? ==> reply == Received
    ensures var ev := construct(payload, signature);
      ev.Ok? && ev.value.eventType == "payment_intent.succeeded" ==>
        Handled(db.agreements, db.audit, old(db.agreements), old(db.audit), ev.value.intent, true, now)
    ensures var ev := construct(payload, signature);
      ev.Ok? && ev.value.eventType == "payment_intent.payment_failed" ==>
        Handled(db.agreements, db.audit, old(db.agreements), old(db.audit), ev.value.intent, false, now)
    ensures var ev := construct(payload, signature);
      ev.Ok? && ev.value.eventType != "payment_intent.succeeded" && ev.value.eventType != "payment_intent.payment_failed" ==>
        db.agreements == old(db.agreements) && db.audit == old(db.audit)
  {
    var r := HandleWebhookEvent(db, payload, signature, now, construct);
    if r.Err? {
      return ServerError;
    }
    reply := Reply(200, r.value);
  }
}

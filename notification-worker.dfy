/** `processNotificationJob`: deliver a threshold-breach or envelope-signed
    notice to every signer of an agreement, by SMS when the signer has a
    phone and by email always. Twilio and SendGrid are one parameter that
    says whether a delivery went through. */
module NotificationWorker {
  import opened Wrappers
  import opened Values
  import opened Models
  import opened Store
  import opened AgreementService

  datatype Delivery = Sms(to: string, body: string) | Email(to: string, subject: string, text: string)

  /** One delivery and whether it went through; a failed one is logged
      and passed over. */
  datatype Attempt = Attempt(delivery: Delivery, delivered: bool)

  datatype NotificationKind = ThresholdBreach | EnvelopeSigned

  /** `switch (type)` on the job data. */
  function KindOf(data: Record): (k: Option<NotificationKind>)
    ensures k == Some(ThresholdBreach) <==> Get(data, "type") == Str("threshold-breach")
    ensures k == Some(EnvelopeSigned) <==> Get(data, "type") == Str("envelope-signed")
  {
    if Get(data, "type") == Str("threshold-breach") then Some(ThresholdBreach)
    else if Get(data, "type") == Str("envelope-signed") then Some(EnvelopeSigned)
    else None
  }

  const BreachSubject := "Agreement Threshold Breach Alert"
  const SignedSubject := "Agreement Signing Complete"

  /** The text of a breach notice, each part rendered as a template literal
      renders it. */
  function ThresholdMessage(agreementId: string, field: Value, currentValue: Value, threshold: Value, operator: Value): string
  {
    "\n    Threshold breach detected for agreement " + (agreementId
      + (":\n    Field: " + (ToJsString(field)
      + ("\n    Current Value: " + (ToJsString(currentValue)
      + ("\n    Threshold: " + (ToJsString(operator) + (" " + (ToJsString(threshold)
      + "\n  ")))))))))
  }

  function SignedMessage(agreementId: string): string
  {
    "Agreement " + agreementId + " has been signed by all parties."
  }

  /** `t` occurs in `s` at position `i`. */
  predicate OccursAt(s: string, t: string, i: int)
  {
    0 <= i <= |s| - |t| && s[i..i + |t|] == t
  }

  ghost predicate Contains(s: string, t: string)
  {
    exists i :: OccursAt(s, t, i)
  }

  lemma ContainsFront(t: string, rest: string)
    ensures Contains(t + rest, t)
  {
    assert OccursAt(t + rest, t, 0);
  }

  lemma ContainsBehind(a: string, s: string, t: string)
    requires Contains(s, t)
    ensures Contains(a + s, t)
  {
    var i :| OccursAt(s, t, i);
    assert (a + s)[|a| + i..|a| + i + |t|] == s[i..i + |t|];
    assert OccursAt(a + s, t, |a| + i);
  }

  /** The breach notice names the agreement, the field, the value, the
      operator and the threshold. */
  lemma ThresholdMessageMentions(agreementId: string, field: Value, currentValue: Value, threshold: Value, operator: Value)
    ensures var m := ThresholdMessage(agreementId, field, currentValue, threshold, operator);
      && Contains(m, agreementId) && Contains(m, ToJsString(field)) && Contains(m, ToJsString(currentValue))
      && Contains(m, ToJsString(operator)) && Contains(m, ToJsString(threshold))
  {
    var f, cv, op, th := ToJsString(field), ToJsString(currentValue), ToJsString(operator), ToJsString(threshold);
    var p0, p1, p2, p3, p4 := "\n    Threshold breach detected for agreement ", ":\n    Field: ", "\n    Current Value: ", "\n    Threshold: ", "\n  ";
    var t9 := th + p4;
    var t8 := " " + t9;
    var t7 := op + t8;
    var t6 := p3 + t7;
    var t5 := cv + t6;
    var t4 := p2 + t5;
    var t3 := f + t4;
    var t2 := p1 + t3;
    var t1 := agreementId + t2;
    var m := p0 + t1;
    assert m == ThresholdMessage(agreementId, field, currentValue, threshold, operator);
    // the threshold
    ContainsFront(th, p4);
    ContainsBehind(" ", t9, th);
    ContainsBehind(op, t8, th);
    ContainsBehind(p3, t7, th);
    ContainsBehind(cv, t6, th);
    ContainsBehind(p2, t5, th);
    ContainsBehind(f, t4, th);
    ContainsBehind(p1, t3, th);
    ContainsBehind(agreementId, t2, th);
    ContainsBehind(p0, t1, th);
    // the operator
    ContainsFront(op, t8);
    ContainsBehind(p3, t7, op);
    ContainsBehind(cv, t6, op);
    ContainsBehind(p2, t5, op);
    ContainsBehind(f, t4, op);
    ContainsBehind(p1, t3, op);
    ContainsBehind(agreementId, t2, op);
    ContainsBehind(p0, t1, op);
    // the current value
    ContainsFront(cv, t6);
    ContainsBehind(p2, t5, cv);
    ContainsBehind(f, t4, cv);
    ContainsBehind(p1, t3, cv);
    ContainsBehind(agreementId, t2, cv);
    ContainsBehind(p0, t1, cv);
    // the field
    ContainsFront(f, t4);
    ContainsBehind(p1, t3, f);
    ContainsBehind(agreementId, t2, f);
    ContainsBehind(p0, t1, f);
    // the agreement
    ContainsFront(agreementId, t2);
    ContainsBehind(p0, t1, agreementId);
  }

  // ---------------------------------------------------------------------
  // Fan-out

  /** One signer's turn: SMS first if a phone is present, then email. */
  function SignerDeliveries(s: Signer, subject: string, text: string): (ds: seq<Delivery>)
    ensures |ds| == (if HasPhone(s) then 2 else 1)
    ensures ds[|ds| - 1] == Email(s.email, subject, text)
    ensures HasPhone(s) ==> ds[0] == Sms(s.phone.value, text)
  {
    (if HasPhone(s) then [Sms(s.phone.value, text)] else []) + [Email(s.email, subject, text)]
  }

  /** Every delivery the loop attempts, signer by signer in order. */
  function Planned(signers: seq<Signer>, subject: string, text: string): seq<Delivery>
    decreases |signers|
  {
    if signers == [] then []
    else Planned(signers[..|signers| - 1], subject, text) + SignerDeliveries(signers[|signers| - 1], subject, text)
  }

  function PhoneCount(signers: seq<Signer>): nat
    decreases |signers|
  {
    if signers == [] then 0
    else PhoneCount(signers[..|signers| - 1]) + (if HasPhone(signers[|signers| - 1]) then 1 else 0)
  }

  /** One email per signer plus one SMS per signer with a phone. */
  lemma {:induction false} PlannedLength(signers: seq<Signer>, subject: string, text: string)
    ensures |Planned(signers, subject, text)| == |signers| + PhoneCount(signers)
    decreases |signers|
  {
    if signers != [] {
      PlannedLength(signers[..|signers| - 1], subject, text);
    }
  }

  /** Every signer is emailed. */
  lemma {:induction false} EveryoneEmailed(signers: seq<Signer>, subject: string, text: string)
    ensures forall s :: s in signers ==> Email(s.email, subject, text) in Planned(signers, subject, text)
    decreases |signers|
  {
    if signers != [] {
      var n := |signers| - 1;
      EveryoneEmailed(signers[..n], subject, text);
      forall s | s in signers ensures Email(s.email, subject, text) in Planned(signers, subject, text) {
        if s != signers[n] {
          assert s in signers[..n];
        } else {
          var ds := SignerDeliveries(signers[n], subject, text);
          assert ds[|ds| - 1] in ds;
        }
      }
    }
  }

  /** Only signers with a phone get an SMS, at that phone. */
  lemma {:induction false} SmsOnlyToPhones(signers: seq<Signer>, subject: string, text: string)
    ensures forall d :: d in Planned(signers, subject, text) && d.Sms? ==>
      exists s :: s in signers && HasPhone(s) && d == Sms(s.phone.value, text)
    decreases |signers|
  {
    if signers != [] {
      var n := |signers| - 1;
      SmsOnlyToPhones(signers[..n], subject, text);
      forall d | d in Planned(signers, subject, text) && d.Sms?
        ensures exists s :: s in signers && HasPhone(s) && d == Sms(s.phone.value, text)
      {
        if d in Planned(signers[..n], subject, text) {
          var s :| s in signers[..n] && HasPhone(s) && d == Sms(s.phone.value, text);
          assert s in signers;
        } else {
          assert signers[n] in signers;
        }
      }
    }
  }

  /** Either message goes out as a whole email body to each signer, and
      the SMS, when sent, carries the same text. */
  lemma {:induction false} DeliveriesCarryText(signers: seq<Signer>, subject: string, text: string)
    ensures forall d :: d in Planned(signers, subject, text) ==>
      (d.Sms? && d.body == text) || (d.Email? && d.subject == subject && d.text == text)
    decreases |signers|
  {
    if signers != [] {
      DeliveriesCarryText(signers[..|signers| - 1], subject, text);
    }
  }

  /** The loops of `sendThresholdBreachNotifications` and
      `sendEnvelopeSignedNotifications`: every planned delivery is
      attempted, in order, each failure caught on its own. */
  method FanOut(signers: seq<Signer>, subject: string, text: string, deliver: Delivery -> bool) returns (attempts: seq<Attempt>)
    ensures |attempts| == |Planned(signers, subject, text)|
    ensures forall i :: 0 <= i < |attempts| ==>
      attempts[i] == Attempt(Planned(signers, subject, text)[i], deliver(Planned(signers, subject, text)[i]))
  {
    attempts := [];
    var j := 0;
    while j < |signers|
      invariant 0 <= j <= |signers|
      invariant |attempts| == |Planned(signers[..j], subject, text)|
      invariant forall i :: 0 <= i < |attempts| ==>
        attempts[i] == Attempt(Planned(signers[..j], subject, text)[i], deliver(Planned(signers[..j], subject, text)[i]))
    {
      var signer := signers[j];
      if HasPhone(signer) {
        var sms := Sms(signer.phone.value, text);
        var ok := deliver(sms);
        attempts := attempts + [Attempt(sms, ok)];
      }
      var email := Email(signer.email, subject, text);
      var ok := deliver(email);
      attempts := attempts + [Attempt(email, ok)];
      assert signers[..j + 1][..j] == signers[..j];
      j := j + 1;
    }
    assert signers[..j] == signers;
  }

  datatype NotifyResult = NotifyResult(success: bool, timestamp: int)

  /** The agreement the job names, with its template. */
  function JobAgreement(db: map<string, Agreement>, templates: map<string, Template>, data: Record): Option<Agreement>
  {
    match Get(data, "agreementId")
    case Str(id) => if id in db && db[id].templateId in templates then Some(db[id]) else None
    case _ => None
  }

  /** The subject and text a known kind sends. */
  function Notice(kind: NotificationKind, a: Agreement, data: Record): (string, string)
  {
    match kind
    case ThresholdBreach =>
      (BreachSubject, ThresholdMessage(a.id, Get(data, "field"), Get(data, "currentValue"), Get(data, "threshold"), Get(data, "operator")))
    case EnvelopeSigned => (SignedSubject, SignedMessage(a.id))
  }

  /** `processNotificationJob`. Nothing is written; `attempts` lists the
      deliveries in the order they were made. */
  method ProcessNotificationJob(db: Db, data: Record, now: int, deliver: Delivery -> bool)
    returns (r: Result<NotifyResult>, attempts: seq<Attempt>)
    ensures JobAgreement(db.agreements, db.templates, data).None? ==>
      r == Err(Failure("Agreement or template not found")) && attempts == []
    ensures JobAgreement(db.agreements, db.templates, data).Some? && KindOf(data).None? ==>
      r == Err(Failure("Unknown notification type: " + ToJsString(Get(data, "type")))) && attempts == []
    ensures JobAgreement(db.agreements, db.templates, data).Some? && KindOf(data).Some? ==>
      var n := Notice(KindOf(data).value, JobAgreement(db.agreements, db.templates, data).value, data);
      var plan := Planned(JobAgreement(db.agreements, db.templates, data).value.signers, n.0, n.1);
      && r == Ok(NotifyResult(true, now))
      && |attempts| == |plan|
      && forall i :: 0 <= i < |attempts| ==> attempts[i] == Attempt(plan[i], deliver(plan[i]))
  {
    var found := JobAgreement(db.agreements, db.templates, data);
    if found.None? {
      return Err(Failure("Agreement or template not found")), [];
    }
    var a := found.value;
    var kind := KindOf(data);
    if kind.None? {
      return Err(Failure("Unknown notification type: " + ToJsString(Get(data, "type")))), [];
    }
    var n := Notice(kind.value, a, data);
    attempts := FanOut(a.signers, n.0, n.1, deliver);
    r := Ok(NotifyResult(true, now));
  }

  // ---------------------------------------------------------------------
  // The breach job the agreement service enqueues

  /** As written, a breach job has no `type`, so the worker rejects it as
      an unknown notification type ("undefined"). */
  lemma BreachDataAsWrittenRejected(agreementId: string, field: string, v: Value, threshold: int, op: Operator)
    ensures KindOf(BreachDataAsWritten(agreementId, field, v, threshold, op)).None?
    ensures ToJsString(Get(BreachDataAsWritten(agreementId, field, v, threshold, op), "type")) == "undefined"
  {
  }

  /** The corrected job is dispatched to the breach sender, whose notice
      carries the job's field, value, operator and threshold. */
  lemma BreachDataDispatched(a: Agreement, field: string, v: Value, threshold: int, op: Operator)
    ensures var d := BreachData(a.id, field, v, threshold, op);
      && KindOf(d) == Some(ThresholdBreach)
      && Notice(ThresholdBreach, a, d) ==
           (BreachSubject, ThresholdMessage(a.id, Str(field), v, Num(threshold), Str(OperatorText(op))))
  {
  }
}

/** `processDocuSignJob`: create the envelope for an agreement, then mark
    the agreement sent and audit the `send`. */
module DocuSignWorker {
  import opened Wrappers
  import opened Values
  import opened Models
  import opened Store
  import opened DocuSignService

  /** The worker's roles: the service's mapping with every signer's tabs
      set to the agreement's current values. */
  function WorkerRoles(a: Agreement): (roles: seq<TemplateRole>)
    ensures |roles| == |a.signers|
    ensures forall i :: 0 <= i < |roles| ==>
      && roles[i].email == a.signers[i].email && roles[i].name == a.signers[i].name
      && roles[i].roleName == a.signers[i].role
      && roles[i].tabs == Some(TextTabs(a.currentValues))
    decreases |a.signers|
  {
    if a.signers == [] then []
    else
      var s := a.signers[|a.signers| - 1];
      WorkerRoles(a.(signers := a.signers[..|a.signers| - 1]))
        + [TemplateRole(s.email, s.name, s.role, Some(TextTabs(a.currentValues)))]
  }

  function AsEnvelopeSigners(a: Agreement): (ss: seq<EnvelopeSigner>)
    ensures |ss| == |a.signers|
    ensures forall i :: 0 <= i < |ss| ==>
      ss[i] == EnvelopeSigner(a.signers[i].email, a.signers[i].name, a.signers[i].role, Some(a.currentValues))
  {
    seq(|a.signers|, i requires 0 <= i < |a.signers| =>
      EnvelopeSigner(a.signers[i].email, a.signers[i].name, a.signers[i].role, Some(a.currentValues)))
  }

  /** The worker builds exactly the roles the service would for the same
      signers carrying the current values as tabs. */
  lemma {:induction false} WorkerRolesMatchService(a: Agreement)
    ensures WorkerRoles(a) == Roles(AsEnvelopeSigners(a))
  {
    var w := WorkerRoles(a);
    var s := Roles(AsEnvelopeSigners(a));
    assert |w| == |s|;
    forall i | 0 <= i < |w| ensures w[i] == s[i] {
      RolesEntry(AsEnvelopeSigners(a), i);
    }
  }

  /** Each role is the mapping of its own signer. */
  lemma {:induction false} RolesEntry(signers: seq<EnvelopeSigner>, i: nat)
    requires i < |signers|
    ensures Roles(signers)[i] == RoleOf(signers[i])
    decreases |signers|
  {
    if i < |signers| - 1 {
      RolesEntry(signers[..|signers| - 1], i);
    }
  }

  /** What the job returns. */
  datatype SendResult = SendResult(success: bool, envelopeId: string, timestamp: int)

  /** The `agreementId` of the job data as a primary key. */
  function JobAgreementId(data: Record): Option<string>
  {
    match Get(data, "agreementId")
    case Str(s) => Some(s)
    case _ => None
  }

  /** `processDocuSignJob`. `createApi` is DocuSign's answer to the
      envelope definition. The prior status is not checked. */
  method ProcessDocuSignJob(db: Db, data: Record, now: int, createApi: EnvelopeDefinition -> Result<string>)
    returns (r: Result<SendResult>)
    requires db.Valid()
    modifies db
    ensures db.Valid()
    ensures db.templates == old(db.templates)
    ensures var id := JobAgreementId(data);
      !(id.Some? && id.value in old(db.agreements) && old(db.agreements)[id.value].templateId in old(db.templates)) ==>
        r == Err(Failure("Agreement or template not found"))
        && db.agreements == old(db.agreements) && db.audit == old(db.audit)
    ensures var id := JobAgreementId(data);
      id.Some? && id.value in old(db.agreements) && old(db.agreements)[id.value].templateId in old(db.templates) ==>
        var a := old(db.agreements)[id.value];
        var def := EnvelopeDefinition(old(db.templates)[a.templateId].docusignTemplateId, WorkerRoles(a), "sent");
        var sent := createApi(def);
        && (sent.Err? ==> r == Err(sent.error) && db.agreements == old(db.agreements) && db.audit == old(db.audit))
        && (sent.Ok? ==>
              var b := a.(docusignEnvelopeId := Some(sent.value), status := Sent);
              && (AgreementStorable(old(db.agreements), b) ==>
                    && r == Ok(SendResult(true, sent.value, now))
                    && db.agreements == old(db.agreements)[a.id := b]
                    && db.audit == old(db.audit) + [AuditEntry(AgreementEntity, a.id, Send,
                         Changes(Some(AgreementSnap(a)), Some(AgreementSnap(b))), map["envelopeId" := Str(sent.value)], now)])
              && (!AgreementStorable(old(db.agreements), b) ==>
                    r == Err(Failure(UniqueViolation)) && db.agreements == old(db.agreements) && db.audit == old(db.audit)))
  {
    var id := JobAgreementId(data);
    if !(id.Some? && id.value in db.agreements && db.agreements[id.value].templateId in db.templates) {
      return Err(Failure("Agreement or template not found"));
    }
    var a := db.agreements[id.value];
    var def := EnvelopeDefinition(db.templates[a.templateId].docusignTemplateId, WorkerRoles(a), "sent");
    var sent := createApi(def);
    if sent.Err? {
      return Err(sent.error);
    }
    var b := a.(docusignEnvelopeId := Some(sent.value), status := Sent);
    var ok := db.SaveAgreement(b);
    if !ok {
      return Err(Failure(UniqueViolation));
    }
    db.AppendAudit(AuditEntry(AgreementEntity, a.id, Send, Changes(Some(AgreementSnap(a)), Some(AgreementSnap(b))),
                              map["envelopeId" := Str(sent.value)], now));
    r := Ok(SendResult(true, sent.value, now));
  }
}

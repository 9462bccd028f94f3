/** `AgreementService`: creating and updating agreements, and the periodic
    threshold check that refreshes an agreement's dynamic values from the
    data feeds and queues a notification for every breached threshold. */
module AgreementService {
  import opened Wrappers
  import opened Values
  import opened Models
  import opened Store
  import opened Redis
  import opened DataSync
  import opened Queues

  // ---------------------------------------------------------------------
  // Threshold evaluation

  /** `evaluateThreshold` on numbers: one comparison per declared operator,
      `false` for any other operator. */
  function EvaluateThreshold(value: int, threshold: int, op: Operator): (b: bool)
    ensures op == Gt ==> (b <==> value > threshold)
    ensures op == Lt ==> (b <==> value < threshold)
    ensures op == EqOp ==> (b <==> value == threshold)
    ensures op == Ge ==> (b <==> value >= threshold)
    ensures op == Le ==> (b <==> value <= threshold)
    ensures !DeclaredOperator(op) ==> !b
  {
    match op
    case Gt => value > threshold
    case Lt => value < threshold
    case EqOp => value == threshold
    case Ge => value >= threshold
    case Le => value <= threshold
    case UnknownOp(_) => false
  }

  /** The five operators form one total order: exactly one of `>`, `<`,
      `==` holds, `>=` is `>` or `==`, `<=` is `<` or `==`, and swapping
      the operands turns `>` into `<`. */
  lemma OperatorAlgebra(v: int, t: int)
    ensures EvaluateThreshold(v, t, Ge) == (EvaluateThreshold(v, t, Gt) || EvaluateThreshold(v, t, EqOp))
    ensures EvaluateThreshold(v, t, Le) == (EvaluateThreshold(v, t, Lt) || EvaluateThreshold(v, t, EqOp))
    ensures EvaluateThreshold(v, t, Gt) == EvaluateThreshold(t, v, Lt)
    ensures EvaluateThreshold(v, t, Ge) == !EvaluateThreshold(v, t, Lt)
    ensures (if EvaluateThreshold(v, t, Gt) then 1 else 0) + (if EvaluateThreshold(v, t, Lt) then 1 else 0)
      + (if EvaluateThreshold(v, t, EqOp) then 1 else 0) == 1
  {
  }

  /** `evaluateThreshold` as it runs on the value `get` extracted, which
      need not be a number: `===` is strict equality, and the ordering
      operators convert the value to a number first, a value with no
      numeric reading (NaN) comparing false. */
  function CompareWith(v: Value, threshold: int, op: Operator): (b: bool)
    ensures v.Num? ==> b == EvaluateThreshold(v.n, threshold, op)
    ensures op == EqOp ==> (b <==> v == Num(threshold))
    ensures NumericValue(v).None? ==> !b
  {
    if op == EqOp then v == Num(threshold)
    else match NumericValue(v)
      case Some(n) => EvaluateThreshold(n, threshold, op)
      case None => false
  }

  /** `config.threshold && config.operator`: both present and truthy, so a
      threshold of 0 is never evaluated. */
  predicate ThresholdConfigured(c: FieldConfig)
  {
    && c.threshold.Some? && c.threshold.value != 0
    && c.operator.Some? && OperatorTruthy(c.operator.value)
  }

  lemma ZeroThresholdUnchecked(c: FieldConfig)
    requires c.threshold == Some(0) || c.threshold.None?
    ensures !ThresholdConfigured(c)
  {
  }

  // ---------------------------------------------------------------------
  // Breach notifications

  /** The data `checkAgreementThresholds` enqueues for a breach, as written:
      it has no `type` member. See `BreachDataAsWrittenRejected`. */
  function BreachDataAsWritten(agreementId: string, field: string, v: Value, threshold: int, op: Operator): (d: Record)
    ensures "type" !in d
    ensures Get(d, "agreementId") == Str(agreementId) && Get(d, "field") == Str(field)
  {
    map["agreementId" := Str(agreementId), "field" := Str(field), "currentValue" := v,
        "threshold" := Num(threshold), "operator" := Str(OperatorText(op))]
  }

  /** The breach data with the `type` the notification worker dispatches on. */
  function BreachData(agreementId: string, field: string, v: Value, threshold: int, op: Operator): (d: Record)
    ensures d == BreachDataAsWritten(agreementId, field, v, threshold, op)["type" := Str("threshold-breach")]
    ensures d - {"type"} == BreachDataAsWritten(agreementId, field, v, threshold, op)
    ensures Get(d, "type") == Str("threshold-breach")
    ensures Get(d, "agreementId") == Str(agreementId) && Get(d, "field") == Str(field)
    ensures Get(d, "currentValue") == v && Get(d, "threshold") == Num(threshold) && Get(d, "operator") == Str(OperatorText(op))
  {
    BreachDataAsWritten(agreementId, field, v, threshold, op)["type" := Str("threshold-breach")]
  }

  function BreachJob(agreementId: string, field: string, v: Value, threshold: int, op: Operator): Job
  {
    Job("threshold-breach", BreachData(agreementId, field, v, threshold, op))
  }

  // ---------------------------------------------------------------------
  // The field loop

  /** What the loop over the dynamic fields has accumulated: the cache, the
      `updates` object, the jobs enqueued and `thresholdBreached`. */
  datatype Progress = Progress(entries: map<string, Entry>, updates: Record, jobs: seq<Job>, breached: bool)

  /** One iteration: fetch, record the extracted value, and enqueue a job
      if a configured threshold is breached. A fetch that throws is caught:
      the field contributes nothing but whatever it did to the cache. */
  function FieldStep(p: Progress, agreementId: string, f: DynamicField, now: int, remote: Remote): Progress
  {
    var s := GetDataStep(p.entries, f.config.kind, f.config.source, now, remote);
    match s.result
    case Err(_) => p.(entries := s.entries)
    case Ok(data) =>
      var v := Member(data, f.config.path);
      var hit := ThresholdConfigured(f.config) && CompareWith(v, f.config.threshold.value, f.config.operator.value);
      Progress(s.entries, p.updates[f.name := v],
        if hit then p.jobs + [BreachJob(agreementId, f.name, v, f.config.threshold.value, f.config.operator.value)] else p.jobs,
        p.breached || hit)
  }

  /** The loop over `fields`, the i-th field's request answered by
      `remotes(i)`. */
  function Scan(agreementId: string, fields: seq<DynamicField>, entries: map<string, Entry>, now: int, remotes: nat -> Remote): Progress
    decreases |fields|
  {
    if fields == [] then Progress(entries, map[], [], false)
    else
      var n := |fields| - 1;
      FieldStep(Scan(agreementId, fields[..n], entries, now, remotes), agreementId, fields[n], now, remotes(n))
  }

  /** A field whose fetch throws is skipped: no update, no job. */
  lemma FailedFieldSkipped(p: Progress, agreementId: string, f: DynamicField, now: int, remote: Remote)
    requires GetDataStep(p.entries, f.config.kind, f.config.source, now, remote).result.Err?
    ensures var q := FieldStep(p, agreementId, f, now, remote);
      q.updates == p.updates && q.jobs == p.jobs && q.breached == p.breached
  {
  }

  /** A fetched field records its extracted value and enqueues exactly one
      job if its configured threshold is breached, none otherwise. */
  lemma FetchedFieldRecorded(p: Progress, agreementId: string, f: DynamicField, now: int, remote: Remote)
    requires GetDataStep(p.entries, f.config.kind, f.config.source, now, remote).result.Ok?
    ensures var data := GetDataStep(p.entries, f.config.kind, f.config.source, now, remote).result.value;
      var v := Member(data, f.config.path);
      var q := FieldStep(p, agreementId, f, now, remote);
      && q.updates == p.updates[f.name := v]
      && (ThresholdConfigured(f.config) && CompareWith(v, f.config.threshold.value, f.config.operator.value) ==>
            q.jobs == p.jobs + [BreachJob(agreementId, f.name, v, f.config.threshold.value, f.config.operator.value)] && q.breached)
      && (!(ThresholdConfigured(f.config) && CompareWith(v, f.config.threshold.value, f.config.operator.value)) ==>
            q.jobs == p.jobs && q.breached == p.breached)
  {
  }

  /** The result is true exactly when at least one job was enqueued. */
  lemma {:induction false} BreachedIffJobs(agreementId: string, fields: seq<DynamicField>, entries: map<string, Entry>, now: int, remotes: nat -> Remote)
    ensures var p := Scan(agreementId, fields, entries, now, remotes); p.breached <==> |p.jobs| > 0
    decreases |fields|
  {
    if fields != [] {
      BreachedIffJobs(agreementId, fields[..|fields| - 1], entries, now, remotes);
    }
  }

  /** Every enqueued job is a `threshold-breach` for this agreement and
      names a field whose threshold and operator are configured. */
  lemma {:induction false} JobsAreBreaches(agreementId: string, fields: seq<DynamicField>, entries: map<string, Entry>, now: int, remotes: nat -> Remote)
    ensures forall j :: j in Scan(agreementId, fields, entries, now, remotes).jobs ==>
      && j.name == "threshold-breach"
      && Get(j.data, "type") == Str("threshold-breach")
      && Get(j.data, "agreementId") == Str(agreementId)
      && exists f :: f in fields && ThresholdConfigured(f.config) && Get(j.data, "field") == Str(f.name)
    decreases |fields|
  {
    if fields != [] {
      var n := |fields| - 1;
      JobsAreBreaches(agreementId, fields[..n], entries, now, remotes);
      var p := Scan(agreementId, fields[..n], entries, now, remotes);
      var q := Scan(agreementId, fields, entries, now, remotes);
      forall j | j in q.jobs
        ensures && j.name == "threshold-breach"
          && Get(j.data, "type") == Str("threshold-breach")
          && Get(j.data, "agreementId") == Str(agreementId)
          && exists f :: f in fields && ThresholdConfigured(f.config) && Get(j.data, "field") == Str(f.name)
      {
        if j in p.jobs {
          var f :| f in fields[..n] && ThresholdConfigured(f.config) && Get(j.data, "field") == Str(f.name);
          assert f in fields;
        } else {
          assert fields[n] in fields;
        }
      }
    }
  }

  /** Only field names appear in `updates`. */
  lemma {:induction false} UpdatesNameFields(agreementId: string, fields: seq<DynamicField>, entries: map<string, Entry>, now: int, remotes: nat -> Remote)
    ensures forall k :: k in Scan(agreementId, fields, entries, now, remotes).updates ==> exists f :: f in fields && f.name == k
    decreases |fields|
  {
    if fields != [] {
      var n := |fields| - 1;
      UpdatesNameFields(agreementId, fields[..n], entries, now, remotes);
      var p := Scan(agreementId, fields[..n], entries, now, remotes);
      forall k | k in Scan(agreementId, fields, entries, now, remotes).updates
        ensures exists f :: f in fields && f.name == k
      {
        if k in p.updates {
          var f :| f in fields[..n] && f.name == k;
          assert f in fields;
        } else {
          assert fields[n] in fields;
        }
      }
    }
  }

  /** The loop never loses work: the fields after a prefix only add keys
      to `updates` and jobs after those already enqueued, whatever they
      fetch (so a failing field does not stop the rest). */
  lemma {:induction false} ScanExtends(agreementId: string, fields: seq<DynamicField>, i: nat, entries: map<string, Entry>, now: int, remotes: nat -> Remote)
    requires i <= |fields|
    ensures var p := Scan(agreementId, fields[..i], entries, now, remotes);
      var q := Scan(agreementId, fields, entries, now, remotes);
      && p.updates.Keys <= q.updates.Keys
      && p.jobs <= q.jobs
      && (p.breached ==> q.breached)
    decreases |fields|
  {
    if i < |fields| {
      var n := |fields| - 1;
      assert fields[..n][..i] == fields[..i];
      ScanExtends(agreementId, fields[..n], i, entries, now, remotes);
    } else {
      assert fields[..i] == fields;
    }
  }

  /** A template whose fields all lack a usable threshold (absent, or 0)
      never breaches. */
  lemma {:induction false} UnconfiguredNeverBreaches(agreementId: string, fields: seq<DynamicField>, entries: map<string, Entry>, now: int, remotes: nat -> Remote)
    requires forall f :: f in fields ==> !ThresholdConfigured(f.config)
    ensures Scan(agreementId, fields, entries, now, remotes).jobs == []
    ensures !Scan(agreementId, fields, entries, now, remotes).breached
    decreases |fields|
  {
    if fields != [] {
      var n := |fields| - 1;
      assert fields[n] in fields;
      forall f | f in fields[..n] ensures !ThresholdConfigured(f.config) {
        assert f in fields;
      }
      UnconfiguredNeverBreaches(agreementId, fields[..n], entries, now, remotes);
    }
  }

  /** A worked case: a price field on AAPL with threshold `> 150` and a
      fresh quote of 155 breaches, queues one job and records the value. */
  lemma PriceAboveThreshold(agreementId: string, now: int)
    ensures var c := FieldConfig(Price, "AAPL", "05. price", Some(150), Some(Gt));
      var quote := Obj(map["05. price" := Num(155)]);
      var remotes := (i: nat) => Remote(Responded(Obj(map["Global Quote" := quote])), None);
      var p := Scan(agreementId, [DynamicField("price", c)], map[], now, remotes);
      && p.breached
      && p.updates == map["price" := Num(155)]
      && p.jobs == [BreachJob(agreementId, "price", Num(155), 150, Gt)]
      && p.entries == Stored(map[], "market:AAPL", quote, 300, now)
  {
    var c := FieldConfig(Price, "AAPL", "05. price", Some(150), Some(Gt));
    var fields := [DynamicField("price", c)];
    assert fields[..0] == [];
    assert MarketKey("AAPL") == "market:AAPL";
  }

  // ---------------------------------------------------------------------
  // Service operations

  /** `findByPk(id, { include: template })` finds the agreement and its template. */
  predicate WithTemplate(agreements: map<string, Agreement>, templates: map<string, Template>, id: string)
  {
    id in agreements && agreements[id].templateId in templates
  }

  /** Enqueueing one more job extends the jobs queued so far. */
  lemma AppendJob(before: seq<Job>, queued: seq<Job>, job: Job)
    ensures before + queued + [job] == before + (queued + [job])
  {
  }

  /** The loop of `checkAgreementThresholds` over the template's fields:
      each value is fetched through the cache, recorded in `updates`, and
      checked against its threshold; a breach enqueues one job. */
  method RefreshFields(redis: Cache, notifications: JobQueue, agreementId: string, fields: seq<DynamicField>, now: int,
                       remotes: nat -> Remote)
    returns (updates: Record, breached: bool)
    modifies redis, notifications
    ensures var p := Scan(agreementId, fields, old(redis.entries), now, remotes);
      && updates == p.updates && breached == p.breached
      && redis.entries == p.entries
      && notifications.jobs == old(notifications.jobs) + p.jobs
  {
    breached := false;
    updates := map[];
    ghost var queued: seq<Job> := [];
    var i := 0;
    while i < |fields|
      invariant 0 <= i <= |fields|
      invariant Progress(redis.entries, updates, queued, breached) == Scan(agreementId, fields[..i], old(redis.entries), now, remotes)
      invariant notifications.jobs == old(notifications.jobs) + queued
    {
      ghost var before := Progress(redis.entries, updates, queued, breached);
      var f := fields[i];
      var data := GetData(redis, f.config.kind, f.config.source, now, remotes(i));
      if data.Ok? {
        var v := Member(data.value, f.config.path);
        updates := updates[f.name := v];
        if ThresholdConfigured(f.config) {
          var threshold := f.config.threshold.value;
          var hit := CompareWith(v, threshold, f.config.operator.value);
          if hit {
            breached := true;
            var job := BreachJob(agreementId, f.name, v, threshold, f.config.operator.value);
            notifications.Add(job.name, job.data);
            AppendJob(old(notifications.jobs), queued, job);
            queued := queued + [job];
          }
        }
      }
      assert fields[..i + 1][..i] == fields[..i];
      assert Progress(redis.entries, updates, queued, breached) == FieldStep(before, agreementId, f, now, remotes(i));
      i := i + 1;
    }
    assert fields[..i] == fields;
  }

  /** `checkAgreementThresholds`. */
  method CheckAgreementThresholds(db: Db, redis: Cache, notifications: JobQueue, agreementId: string, now: int, remotes: nat -> Remote)
    returns (r: Result<bool>)
    requires db.Valid()
    modifies db, redis, notifications
    ensures db.Valid()
    ensures db.templates == old(db.templates)
    ensures !WithTemplate(old(db.agreements), old(db.templates), agreementId) ==>
      && r == Err(NotFound("Agreement or template not found"))
      && db.agreements == old(db.agreements) && db.audit == old(db.audit)
      && redis.entries == old(redis.entries) && notifications.jobs == old(notifications.jobs)
    ensures WithTemplate(old(db.agreements), old(db.templates), agreementId) ==>
      var a := old(db.agreements)[agreementId];
      var p := Scan(agreementId, old(db.templates)[a.templateId].dynamicFields, old(redis.entries), now, remotes);
      && r == Ok(p.breached)
      && redis.entries == p.entries
      && notifications.jobs == old(notifications.jobs) + p.jobs
      && (|p.updates| == 0 ==> db.agreements == old(db.agreements) && db.audit == old(db.audit))
      && (|p.updates| > 0 ==>
            var a' := a.(currentValues := a.currentValues + p.updates, lastChecked := now);
            && db.agreements == old(db.agreements)[agreementId := a']
            && db.audit == old(db.audit) + [Audit(AgreementEntity, agreementId, Update,
                 Changes(Some(Fields(a.currentValues)), Some(Fields(a'.currentValues))), now)])
  {
    if !(agreementId in db.agreements && db.agreements[agreementId].templateId in db.templates) {
      return Err(NotFound("Agreement or template not found"));
    }
    var a := db.agreements[agreementId];
    var fields := db.templates[a.templateId].dynamicFields;
    var updates, breached := RefreshFields(redis, notifications, agreementId, fields, now, remotes);
    if |updates| > 0 {
      var a' := a.(currentValues := a.currentValues + updates, lastChecked := now);
      ResaveStorable(db.agreements, a');
      var ok := db.SaveAgreement(a');
      db.AppendAudit(Audit(AgreementEntity, agreementId, Update, Changes(Some(Fields(a.currentValues)), Some(Fields(a'.currentValues))), now));
    }
    r := Ok(breached);
  }

  /** The row `createAgreement` inserts. */
  function NewDraft(id: string, templateId: string, signers: seq<Signer>, now: int): (a: Agreement)
    ensures a.status == Draft && a.currentValues == map[] && a.metadata == map[]
    ensures a.signers == signers && a.templateId == templateId && a.id == id
    ensures a.docusignEnvelopeId.None?
  {
    DefaultAgreement(id, templateId, now).(signers := signers)
  }

  /** `createAgreement`; `newId` is the UUID the database generates. */
  method CreateAgreement(db: Db, templateId: string, signers: seq<Signer>, newId: string, now: int) returns (r: Result<Agreement>)
    requires db.Valid()
    requires newId !in db.agreements
    modifies db
    ensures db.Valid()
    ensures db.templates == old(db.templates)
    ensures templateId !in old(db.templates) ==>
      r == Err(NotFound("Template not found")) && db.agreements == old(db.agreements) && db.audit == old(db.audit)
    ensures templateId in old(db.templates) ==>
      var a := NewDraft(newId, templateId, signers, now);
      && r == Ok(a)
      && db.agreements == old(db.agreements)[newId := a]
      && db.audit == old(db.audit) + [Audit(AgreementEntity, newId, Create, Changes(None, Some(AgreementSnap(a))), now)]
  {
    if templateId !in db.templates {
      return Err(NotFound("Template not found"));
    }
    var a := NewDraft(newId, templateId, signers, now);
    var ok := db.SaveAgreement(a);
    db.AppendAudit(Audit(AgreementEntity, newId, Create, Changes(None, Some(AgreementSnap(a))), now));
    r := Ok(a);
  }

  /** The `Partial<Agreement>` callers pass to `updateAgreement`: each
      present member replaces the column of the same name. */
  datatype Patch = Patch(status: Option<AgreementStatus>, metadata: Option<Record>, envelopeId: Option<string>)

  function ApplyPatch(a: Agreement, u: Patch): (b: Agreement)
    ensures b.id == a.id && b.templateId == a.templateId && b.signers == a.signers
    ensures b.currentValues == a.currentValues && b.lastChecked == a.lastChecked
    ensures b.status == (if u.status.Some? then u.status.value else a.status)
    ensures b.metadata == (if u.metadata.Some? then u.metadata.value else a.metadata)
    ensures b.docusignEnvelopeId == (if u.envelopeId.Some? then u.envelopeId else a.docusignEnvelopeId)
  {
    a.(status := if u.status.Some? then u.status.value else a.status,
       metadata := if u.metadata.Some? then u.metadata.value else a.metadata,
       docusignEnvelopeId := if u.envelopeId.Some? then u.envelopeId else a.docusignEnvelopeId)
  }

  /** The columns a patch does not name keep their values, and a patch
      replaces, rather than merges into, the metadata. */
  lemma PatchOnlyNamedColumns(a: Agreement, s: AgreementStatus, m: Record)
    ensures ApplyPatch(a, Patch(Some(s), None, None)) == a.(status := s)
    ensures ApplyPatch(a, Patch(None, Some(m), None)).metadata == m
    ensures ApplyPatch(a, Patch(None, None, None)) == a
  {
  }

  /** The outcome of `updateAgreement`: 404 for an unknown id, the unique
      index's error when the patched row clashes with another envelope id,
      and otherwise the patched row. */
  function UpdateOutcome(agreements: map<string, Agreement>, id: string, u: Patch): (r: Result<Agreement>)
    ensures id !in agreements ==> r == Err(NotFound("Agreement not found"))
    ensures r.Ok? ==> id in agreements && r.value == ApplyPatch(agreements[id], u)
    ensures id in agreements && AgreementStorable(agreements, ApplyPatch(agreements[id], u)) ==> r.Ok?
    ensures id in agreements && !AgreementStorable(agreements, ApplyPatch(agreements[id], u)) ==> r == Err(Failure(UniqueViolation))
  {
    if id !in agreements then Err(NotFound("Agreement not found"))
    else
      var b := ApplyPatch(agreements[id], u);
      if AgreementStorable(agreements, b) then Ok(b) else Err(Failure(UniqueViolation))
  }

  /** The audit entry of an update: the whole row before and after. */
  function UpdateAudit(before: Agreement, after: Agreement, now: int): AuditEntry
  {
    Audit(AgreementEntity, before.id, Update, Changes(Some(AgreementSnap(before)), Some(AgreementSnap(after))), now)
  }

  /** The tables after `updateAgreement(id, u)` on `agreements0`/`audit0`:
      on success the row is replaced and one update entry appended,
      otherwise nothing changes. */
  ghost predicate AfterUpdate(agreements: map<string, Agreement>, audit: seq<AuditEntry>,
                              agreements0: map<string, Agreement>, audit0: seq<AuditEntry>, id: string, u: Patch, now: int)
  {
    var o := UpdateOutcome(agreements0, id, u);
    if o.Ok? then agreements == agreements0[id := o.value] && audit == audit0 + [UpdateAudit(agreements0[id], o.value, now)]
    else agreements == agreements0 && audit == audit0
  }

  /** `updateAgreement`: a partial update with no check of the current
      state, audited with the whole record before and after. */
  method UpdateAgreement(db: Db, id: string, u: Patch, now: int) returns (r: Result<Agreement>)
    requires db.Valid()
    modifies db
    ensures db.Valid()
    ensures db.templates == old(db.templates)
    ensures r == UpdateOutcome(old(db.agreements), id, u)
    ensures AfterUpdate(db.agreements, db.audit, old(db.agreements), old(db.audit), id, u, now)
  {
    if id !in db.agreements {
      return Err(NotFound("Agreement not found"));
    }
    var a := db.agreements[id];
    var b := ApplyPatch(a, u);
    var ok := db.SaveAgreement(b);
    if !ok {
      return Err(Failure(UniqueViolation));
    }
    db.AppendAudit(UpdateAudit(a, b, now));
    r := Ok(b);
  }

  /** A patch that leaves the envelope id alone always succeeds on a
      stored row. */
  lemma PatchWithoutEnvelopeSucceeds(agreements: map<string, Agreement>, id: string, u: Patch)
    requires AgreementsKeyed(agreements) && EnvelopeIdsUnique(agreements)
    requires id in agreements && u.envelopeId.None?
    ensures UpdateOutcome(agreements, id, u) == Ok(ApplyPatch(agreements[id], u))
  {
    ResaveStorable(agreements, ApplyPatch(agreements[id], u));
  }

  /** `getAgreement`. */
  function GetAgreement(agreements: map<string, Agreement>, id: string): (r: Result<Agreement>)
    ensures r.Ok? <==> id in agreements
    ensures r.Ok? ==> r.value == agreements[id]
    ensures r.Err? ==> r.error == NotFound("Agreement not found")
  {
    if id in agreements then Ok(agreements[id]) else Err(NotFound("Agreement not found"))
  }
}

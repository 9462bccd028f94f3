/** The three persisted entities (backend/src/models): agreements,
    templates and audit-log entries, with their closed enumerations,
    column defaults and table-level constraints. */
module Models {
  import opened Wrappers
  import opened Values

  // ---------------------------------------------------------------------
  // Agreement

  datatype AgreementStatus = Draft | Sent | Signed | Expired | Voided

  datatype SignerStatus = Pending | SignerSigned | Declined

  /** A signer as stored in the `signers` JSONB column. The notification
      worker also reads an optional `phone`, which the declared interface
      does not list. */
  datatype Signer = Signer(
    email: string,
    name: string,
    role: string,
    phone: Option<string>,
    status: SignerStatus)

  /** `if (signer.phone)`: present and non-empty. */
  predicate HasPhone(s: Signer)
  {
    s.phone.Some? && s.phone.value != ""
  }

  /** The envelope id is optional here although the column is declared
      NOT NULL; see `DraftViolatesDeclaredNotNull`. */
  datatype Agreement = Agreement(
    id: string,
    templateId: string,
    docusignEnvelopeId: Option<string>,
    status: AgreementStatus,
    currentValues: Record,
    signers: seq<Signer>,
    metadata: Record,
    lastChecked: int)

  /** The row Sequelize builds when only `id` and `templateId` are given:
      every other column takes its declared default. */
  function DefaultAgreement(id: string, templateId: string, now: int): (a: Agreement)
    ensures a.id == id && a.templateId == templateId
    ensures a.status == Draft && a.docusignEnvelopeId == None
    ensures a.currentValues == map[] && a.signers == [] && a.metadata == map[]
    ensures a.lastChecked == now
  {
    Agreement(id, templateId, None, Draft, map[], [], map[], now)
  }

  /** No two agreements share an envelope id (the unique index on
      `docusignEnvelopeId`; absent ids never collide). */
  predicate EnvelopeIdsUnique(m: map<string, Agreement>)
  {
    forall a, b :: a in m && b in m && a != b && m[a].docusignEnvelopeId.Some? ==>
      m[a].docusignEnvelopeId != m[b].docusignEnvelopeId
  }

  /** The agreements table as it is declared: `docusignEnvelopeId` is
      `allowNull: false`. */
  predicate RowAdmittedAsDeclared(a: Agreement)
  {
    a.docusignEnvelopeId.Some?
  }

  /** As written, the row `createAgreement` inserts (template, signers,
      `draft`, empty values, nothing else) can never pass the declared
      NOT NULL check on `docusignEnvelopeId`. */
  lemma DraftViolatesDeclaredNotNull(id: string, templateId: string, signers: seq<Signer>, now: int)
    ensures !RowAdmittedAsDeclared(DefaultAgreement(id, templateId, now).(signers := signers))
  {
  }

  /** Corrected column: nullable and unique. A draft without an envelope
      id can always be inserted without breaking uniqueness. */
  lemma {:induction false} DraftAdmitted(m: map<string, Agreement>, a: Agreement)
    requires EnvelopeIdsUnique(m)
    requires a.docusignEnvelopeId.None?
    ensures EnvelopeIdsUnique(m[a.id := a])
  {
    var m' := m[a.id := a];
    forall x, y | x in m' && y in m' && x != y && m'[x].docusignEnvelopeId.Some?
      ensures m'[x].docusignEnvelopeId != m'[y].docusignEnvelopeId
    {
      assert x != a.id;
      if y == a.id {
        assert m'[y].docusignEnvelopeId.None?;
      } else {
        assert m'[x] == m[x] && m'[y] == m[y];
      }
    }
  }

  // ---------------------------------------------------------------------
  // Template

  /** `type` of a dynamic field. The JSONB column does not enforce the
      declared union, so an unrecognised string is kept as it was. */
  datatype SourceKind = Price | Iot | Weather | UnknownKind(raw: string)

  datatype Operator = Gt | Lt | EqOp | Ge | Le | UnknownOp(raw: string)

  predicate DeclaredKind(k: SourceKind)
  {
    !k.UnknownKind?
  }

  predicate DeclaredOperator(op: Operator)
  {
    !op.UnknownOp?
  }

  function OperatorText(op: Operator): (s: string)
    ensures DeclaredOperator(op) ==> s != ""
  {
    match op
    case Gt => ">"
    case Lt => "<"
    case EqOp => "=="
    case Ge => ">="
    case Le => "<="
    case UnknownOp(raw) => raw
  }

  /** `if (config.operator)`: a non-empty string. */
  predicate OperatorTruthy(op: Operator)
  {
    OperatorText(op) != ""
  }

  /** The descriptor of one dynamic field; `threshold` and `operator` are
      optional. */
  datatype FieldConfig = FieldConfig(
    kind: SourceKind,
    source: string,
    path: string,
    threshold: Option<int>,
    operator: Option<Operator>)

  /** One entry of `dynamicFields`, in the order the store enumerates them. */
  datatype DynamicField = DynamicField(name: string, config: FieldConfig)

  /** `name` and `docusignTemplateId` are required; `description` may be null. */
  datatype Template = Template(
    id: string,
    name: string,
    description: Option<string>,
    docusignTemplateId: string,
    dynamicFields: seq<DynamicField>)

  /** The unique index on `docusignTemplateId`. */
  predicate TemplateRefsUnique(m: map<string, Template>)
  {
    forall a, b :: a in m && b in m && a != b ==> m[a].docusignTemplateId != m[b].docusignTemplateId
  }

  // ---------------------------------------------------------------------
  // AuditLog

  datatype EntityType = AgreementEntity | TemplateEntity

  datatype AuditAction = Create | Update | Delete | Send | Sign | Void | Expire

  /** What `changes.before` / `changes.after` hold: a whole record, or a
      plain object of selected fields. */
  datatype Snapshot =
    | AgreementSnap(agreement: Agreement)
    | TemplateSnap(template: Template)
    | Fields(values: Record)

  datatype Changes = Changes(before: Option<Snapshot>, after: Option<Snapshot>)

  /** An audit-log row. It has a creation time and no update time. */
  datatype AuditEntry = AuditEntry(
    entityType: EntityType,
    entityId: string,
    action: AuditAction,
    changes: Changes,
    metadata: Record,
    createdAt: int)

  /** An entry written without `metadata`, which then defaults to `{}`. */
  function Audit(entityType: EntityType, entityId: string, action: AuditAction, changes: Changes, now: int): (e: AuditEntry)
    ensures e.metadata == map[] && e.createdAt == now
    ensures e.entityType == entityType && e.entityId == entityId && e.action == action && e.changes == changes
  {
    AuditEntry(entityType, entityId, action, changes, map[], now)
  }
}

/** The relational store: the agreements, templates and audit_logs tables. */
module Store {
  import opened Wrappers
  import opened Values
  import opened Models

  predicate AgreementsKeyed(m: map<string, Agreement>)
  {
    forall k :: k in m ==> m[k].id == k
  }

  predicate TemplatesKeyed(m: map<string, Template>)
  {
    forall k :: k in m ==> m[k].id == k
  }

  /** Saving `a` keeps the envelope-id index unique. */
  predicate AgreementStorable(m: map<string, Agreement>, a: Agreement)
  {
    a.docusignEnvelopeId.Some? ==>
      !exists k :: k in m && k != a.id && m[k].docusignEnvelopeId == a.docusignEnvelopeId
  }

  /** Saving `t` keeps the template-reference index unique. */
  predicate TemplateStorable(m: map<string, Template>, t: Template)
  {
    !exists k :: k in m && k != t.id && m[k].docusignTemplateId == t.docusignTemplateId
  }

  lemma {:induction false} StorableKeepsEnvelopeIdsUnique(m: map<string, Agreement>, a: Agreement)
    requires EnvelopeIdsUnique(m) && AgreementStorable(m, a)
    ensures EnvelopeIdsUnique(m[a.id := a])
  {
    var m' := m[a.id := a];
    forall x, y | x in m' && y in m' && x != y && m'[x].docusignEnvelopeId.Some?
      ensures m'[x].docusignEnvelopeId != m'[y].docusignEnvelopeId
    {
      if x == a.id {
        assert m'[y] == m[y];
      } else if y == a.id {
        assert m'[x] == m[x];
      } else {
        assert m'[x] == m[x] && m'[y] == m[y];
      }
    }
  }

  lemma {:induction false} StorableKeepsTemplateRefsUnique(m: map<string, Template>, t: Template)
    requires TemplateRefsUnique(m) && TemplateStorable(m, t)
    ensures TemplateRefsUnique(m[t.id := t])
  {
    var m' := m[t.id := t];
    forall x, y | x in m' && y in m' && x != y
      ensures m'[x].docusignTemplateId != m'[y].docusignTemplateId
    {
      if x == t.id {
        assert m'[y] == m[y];
      } else if y == t.id {
        assert m'[x] == m[x];
      } else {
        assert m'[x] == m[x] && m'[y] == m[y];
      }
    }
  }

  /** The message of the unique-constraint error a rejected write throws. */
  const UniqueViolation := "Validation error"

  /** Two saves of the same key in a row leave only the second. */
  lemma SaveTwice(m: map<string, Agreement>, k: string, a: Agreement, b: Agreement)
    ensures m[k := a][k := b] == m[k := b]
  {
  }

  /** Writing back a stored row with its envelope id unchanged never
      clashes with the unique index. */
  lemma ResaveStorable(m: map<string, Agreement>, a: Agreement)
    requires AgreementsKeyed(m) && EnvelopeIdsUnique(m)
    requires a.id in m && a.docusignEnvelopeId == m[a.id].docusignEnvelopeId
    ensures AgreementStorable(m, a)
  {
    if a.docusignEnvelopeId.Some? {
      forall k | k in m && k != a.id
        ensures m[k].docusignEnvelopeId != a.docusignEnvelopeId
      {
        assert m[a.id].docusignEnvelopeId.Some?;
      }
    }
  }

  class Db {
    var agreements: map<string, Agreement>
    var templates: map<string, Template>
    /** Append-only. */
    var audit: seq<AuditEntry>

    ghost predicate Valid()
      reads this
    {
      && AgreementsKeyed(agreements)
      && TemplatesKeyed(templates)
      && EnvelopeIdsUnique(agreements)
      && TemplateRefsUnique(templates)
    }

    constructor ()
      ensures Valid()
      ensures agreements == map[] && templates == map[] && audit == []
    {
      agreements, templates, audit := map[], map[], [];
    }

    /** INSERT or UPDATE of one agreement row; a clash on the unique
        envelope-id index makes the write fail and leaves the table as it was. */
    method SaveAgreement(a: Agreement) returns (ok: bool)
      requires Valid()
      modifies this
      ensures Valid()
      ensures ok == AgreementStorable(old(agreements), a)
      ensures agreements == if ok then old(agreements)[a.id := a] else old(agreements)
      ensures templates == old(templates) && audit == old(audit)
    {
      ok := AgreementStorable(agreements, a);
      if ok {
        StorableKeepsEnvelopeIdsUnique(agreements, a);
        agreements := agreements[a.id := a];
      }
    }

    /** INSERT or UPDATE of one template row, guarded by the unique index
        on `docusignTemplateId`. */
    method SaveTemplate(t: Template) returns (ok: bool)
      requires Valid()
      modifies this
      ensures Valid()
      ensures ok == TemplateStorable(old(templates), t)
      ensures templates == if ok then old(templates)[t.id := t] else old(templates)
      ensures agreements == old(agreements) && audit == old(audit)
    {
      ok := TemplateStorable(templates, t);
      if ok {
        StorableKeepsTemplateRefsUnique(templates, t);
        templates := templates[t.id := t];
      }
    }

    method DestroyTemplate(id: string)
      requires Valid()
      modifies this
      ensures Valid()
      ensures templates == old(templates) - {id}
      ensures agreements == old(agreements) && audit == old(audit)
    {
      templates := templates - {id};
    }

    method AppendAudit(e: AuditEntry)
      requires Valid()
      modifies this
      ensures Valid()
      ensures audit == old(audit) + [e]
      ensures agreements == old(agreements) && templates == old(templates)
    {
      audit := audit + [e];
    }
  }
}

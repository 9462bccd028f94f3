/** `TemplateService`: template records with an audit entry per change,
    and the template files kept in object storage under a per-template
    prefix. */
module TemplateService {
  import opened Wrappers
  import opened Values
  import opened Models
  import opened Store

  // ---------------------------------------------------------------------
  // Records

  /** What `createTemplate` is given; `dynamicFields` may be omitted. */
  datatype TemplateInput = TemplateInput(
    name: string,
    description: Option<string>,
    docusignTemplateId: string,
    dynamicFields: Option<seq<DynamicField>>)

  /** The row `Template.create` inserts: absent fields take their declared
      defaults (`dynamicFields` empty, `description` null). */
  function NewTemplate(id: string, input: TemplateInput): (t: Template)
    ensures t.id == id && t.name == input.name && t.description == input.description
    ensures t.docusignTemplateId == input.docusignTemplateId
    ensures input.dynamicFields.None? ==> t.dynamicFields == []
    ensures input.dynamicFields.Some? ==> t.dynamicFields == input.dynamicFields.value
  {
    Template(id, input.name, input.description, input.docusignTemplateId,
             if input.dynamicFields.Some? then input.dynamicFields.value else [])
  }

  /** `createTemplate`; `newId` is the UUID the database generates. */
  method CreateTemplate(db: Db, input: TemplateInput, newId: string, now: int) returns (r: Result<Template>)
    requires db.Valid()
    requires newId !in db.templates
    modifies db
    ensures db.Valid()
    ensures db.agreements == old(db.agreements)
    ensures var t := NewTemplate(newId, input);
      && (TemplateStorable(old(db.templates), t) ==>
            && r == Ok(t)
            && db.templates == old(db.templates)[newId := t]
            && db.audit == old(db.audit) + [Audit(TemplateEntity, newId, Create, Changes(None, Some(TemplateSnap(t))), now)])
      && (!TemplateStorable(old(db.templates), t) ==>
            r == Err(Failure(UniqueViolation)) && db.templates == old(db.templates) && db.audit == old(db.audit))
  {
    var t := NewTemplate(newId, input);
    var ok := db.SaveTemplate(t);
    if !ok {
      return Err(Failure(UniqueViolation));
    }
    db.AppendAudit(Audit(TemplateEntity, newId, Create, Changes(None, Some(TemplateSnap(t))), now));
    r := Ok(t);
  }

  /** The `Partial<Template>` `updateTemplate` applies. */
  datatype TemplatePatch = TemplatePatch(
    name: Option<string>,
    description: Option<Option<string>>,
    docusignTemplateId: Option<string>,
    dynamicFields: Option<seq<DynamicField>>)

  function ApplyTemplatePatch(t: Template, u: TemplatePatch): (s: Template)
    ensures s.id == t.id
    ensures s.name == (if u.name.Some? then u.name.value else t.name)
    ensures s.description == (if u.description.Some? then u.description.value else t.description)
    ensures s.docusignTemplateId == (if u.docusignTemplateId.Some? then u.docusignTemplateId.value else t.docusignTemplateId)
    ensures s.dynamicFields == (if u.dynamicFields.Some? then u.dynamicFields.value else t.dynamicFields)
  {
    t.(name := if u.name.Some? then u.name.value else t.name,
       description := if u.description.Some? then u.description.value else t.description,
       docusignTemplateId := if u.docusignTemplateId.Some? then u.docusignTemplateId.value else t.docusignTemplateId,
       dynamicFields := if u.dynamicFields.Some? then u.dynamicFields.value else t.dynamicFields)
  }

  /** `updateTemplate`. */
  method UpdateTemplate(db: Db, id: string, u: TemplatePatch, now: int) returns (r: Result<Template>)
    requires db.Valid()
    modifies db
    ensures db.Valid()
    ensures db.agreements == old(db.agreements)
    ensures id !in old(db.templates) ==>
      r == Err(NotFound("Template not found")) && db.templates == old(db.templates) && db.audit == old(db.audit)
    ensures id in old(db.templates) ==>
      var t := old(db.templates)[id];
      var s := ApplyTemplatePatch(t, u);
      && (TemplateStorable(old(db.templates), s) ==>
            && r == Ok(s)
            && db.templates == old(db.templates)[id := s]
            && db.audit == old(db.audit) + [Audit(TemplateEntity, id, Update, Changes(Some(TemplateSnap(t)), Some(TemplateSnap(s))), now)])
      && (!TemplateStorable(old(db.templates), s) ==>
            r == Err(Failure(UniqueViolation)) && db.templates == old(db.templates) && db.audit == old(db.audit))
  {
    if id !in db.templates {
      return Err(NotFound("Template not found"));
    }
    var t := db.templates[id];
    var s := ApplyTemplatePatch(t, u);
    var ok := db.SaveTemplate(s);
    if !ok {
      return Err(Failure(UniqueViolation));
    }
    db.AppendAudit(Audit(TemplateEntity, id, Update, Changes(Some(TemplateSnap(t)), Some(TemplateSnap(s))), now));
    r := Ok(s);
  }

  /** `getTemplate`. */
  function GetTemplate(templates: map<string, Template>, id: string): (r: Result<Template>)
    ensures r.Ok? <==> id in templates
    ensures r.Ok? ==> r.value == templates[id]
    ensures r.Err? ==> r.error == NotFound("Template not found")
  {
    if id in templates then Ok(templates[id]) else Err(NotFound("Template not found"))
  }

  /** `deleteTemplate`: the row is removed and a `delete` entry keeps only
      the record as it was. */
  method DeleteTemplate(db: Db, id: string, now: int) returns (r: Result<()>)
    requires db.Valid()
    modifies db
    ensures db.Valid()
    ensures db.agreements == old(db.agreements)
    ensures id !in old(db.templates) ==>
      r == Err(NotFound("Template not found")) && db.templates == old(db.templates) && db.audit == old(db.audit)
    ensures id in old(db.templates) ==>
      && r == Ok(())
      && db.templates == old(db.templates) - {id}
      && db.audit == old(db.audit) + [Audit(TemplateEntity, id, Delete, Changes(Some(TemplateSnap(old(db.templates)[id])), None), now)]
  {
    if id !in db.templates {
      return Err(NotFound("Template not found"));
    }
    var t := db.templates[id];
    db.DestroyTemplate(id);
    db.AppendAudit(Audit(TemplateEntity, id, Delete, Changes(Some(TemplateSnap(t)), None), now));
    r := Ok(());
  }

  // ---------------------------------------------------------------------
  // Files

  /** `MINIO_BUCKET_NAME || 'ddae-documents'`. */
  function BucketName(configured: Option<string>): (b: string)
    ensures b != ""
    ensures configured.Some? && configured.value != "" ==> b == configured.value
  {
    if configured.Some? && configured.value != "" then configured.value else "ddae-documents"
  }

  /** `templates/<templateId>/<filename>`. */
  function ObjectName(templateId: string, filename: string): (name: string)
    ensures |name| == |"templates/"| + |templateId| + 1 + |filename|
    ensures name[..|"templates/"|] == "templates/"
    ensures name[|"templates/"|..|"templates/"| + |templateId|] == templateId
    ensures name[|"templates/"| + |templateId|] == '/'
    ensures name[|"templates/"| + |templateId| + 1..] == filename
  {
    "templates/" + templateId + "/" + filename
  }

  /** Template ids without a `/` keep each template's files under its own
      prefix: two templates never share an object name. */
  lemma {:induction false} ObjectNamesSeparate(a: string, b: string, f: string, g: string)
    requires '/' !in a && '/' !in b
    requires ObjectName(a, f) == ObjectName(b, g)
    ensures a == b && f == g
  {
    var n := ObjectName(a, f);
    var p := |"templates/"|;
    assert a == n[p..p + |a|] == b;
  }

  type Bytes = seq<bv8>

  /** The object store: bucket and object name to contents. */
  class ObjectStore {
    var objects: map<(string, string), Bytes>

    constructor ()
      ensures objects == map[]
    {
      objects := map[];
    }
  }

  /** `uploadTemplateFile`; `stored` says whether `putObject` succeeded.
      The template is looked up before storage is touched. */
  method UploadTemplateFile(db: Db, store: ObjectStore, bucket: string, templateId: string, file: Bytes, filename: string,
                            stored: bool) returns (r: Result<string>)
    modifies store
    ensures templateId !in db.templates ==> r == Err(NotFound("Template not found")) && store.objects == old(store.objects)
    ensures templateId in db.templates && !stored ==>
      r == Err(AppError(500, "Failed to upload template file")) && store.objects == old(store.objects)
    ensures templateId in db.templates && stored ==>
      && r == Ok(ObjectName(templateId, filename))
      && store.objects == old(store.objects)[(bucket, ObjectName(templateId, filename)) := file]
  {
    if templateId !in db.templates {
      return Err(NotFound("Template not found"));
    }
    var objectName := ObjectName(templateId, filename);
    if !stored {
      return Err(AppError(500, "Failed to upload template file"));
    }
    store.objects := store.objects[(bucket, objectName) := file];
    r := Ok(objectName);
  }

  /** `getTemplateFile`; `readable` says whether the read stream completed.
      A missing object fails like a broken stream. */
  method GetTemplateFile(db: Db, store: ObjectStore, bucket: string, templateId: string, filename: string,
                         readable: bool) returns (r: Result<Bytes>)
    ensures templateId !in db.templates ==> r == Err(NotFound("Template not found"))
    ensures templateId in db.templates && readable && (bucket, ObjectName(templateId, filename)) in store.objects ==>
      r == Ok(store.objects[(bucket, ObjectName(templateId, filename))])
    ensures templateId in db.templates && !(readable && (bucket, ObjectName(templateId, filename)) in store.objects) ==>
      r == Err(AppError(500, "Failed to retrieve template file"))
  {
    if templateId !in db.templates {
      return Err(NotFound("Template not found"));
    }
    var objectName := ObjectName(templateId, filename);
    if !readable || (bucket, objectName) !in store.objects {
      return Err(AppError(500, "Failed to retrieve template file"));
    }
    r := Ok(store.objects[(bucket, objectName)]);
  }
}

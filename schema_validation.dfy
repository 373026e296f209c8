/**
 * The structural check of JSON-LD objects in `src/utils/schemaValidation.js`:
 * `validateSchemaStructure` collects error messages by pushing onto a list, and
 * `validateSchemaBeforeRender` applies it to a schema or to every member of a list.
 */
module SchemaValidation {
  import opened Wrappers
  import opened Js
  import opened MetaTags

  /** The `{ valid, errors }` object `validateSchemaStructure` returns. */
  datatype Report = Report(valid: bool, errors: seq<string>)

  const NotAnObject := "Schema must be an object"

  /** The keys every schema must carry, in the order they are checked. */
  const RequiredKeys: seq<string> := ["@context", "@type"]

  /** `typeof v === 'object'` for a non-null value: plain objects and arrays. */
  predicate IsObject(v: Value) {
    v.Obj? || v.Arr?
  }

  /** The error for each required key whose value is falsy, in the order of `keys`. */
  function MissingKeyErrors(schema: Value, keys: seq<string>): (errs: seq<string>)
    ensures |errs| <= |keys|
  {
    if |keys| == 0 then []
    else (if Truthy(Prop(schema, keys[0])) then [] else ["Schema must include " + keys[0]])
         + MissingKeyErrors(schema, keys[1..])
  }

  /** The report of the structural check, stated as "one error per missing required key". */
  function StructureReport(schema: Value): (r: Report)
    ensures r.valid <==> r.errors == []
    ensures |r.errors| <= 2
    ensures !Truthy(schema) || !IsObject(schema) ==> r == Report(false, [NotAnObject])
  {
    if !Truthy(schema) || !IsObject(schema) then Report(false, [NotAnObject])
    else
      var errs := MissingKeyErrors(schema, RequiredKeys);
      Report(errs == [], errs)
  }

  /** The warning printed for a `@context` other than schema.org's. */
  function ContextWarning(context: Value): string {
    "Unexpected @context: " + ToJsString(context) + ". Expected: " + SchemaOrg
  }

  /** `validateSchemaStructure(schema)`, returning the report and the warnings it prints. */
  method ValidateSchemaStructure(schema: Value) returns (report: Report, warnings: seq<string>)
    ensures report == StructureReport(schema)
    ensures report.valid <==> report.errors == []
    ensures IsObject(schema) ==> (report.errors ==
      (if Truthy(Prop(schema, "@context")) then [] else ["Schema must include @context"])
      + (if Truthy(Prop(schema, "@type")) then [] else ["Schema must include @type"]))
    ensures warnings == if IsObject(schema) && Truthy(Prop(schema, "@context")) && Prop(schema, "@context") != Str(SchemaOrg)
                        then [ContextWarning(Prop(schema, "@context"))] else []
  {
    if !Truthy(schema) || !IsObject(schema) {
      return Report(false, [NotAnObject]), [];
    }
    var errors: seq<string> := [];
    if !Truthy(Prop(schema, "@context")) {
      errors := errors + ["Schema must include @context"];
    }
    if !Truthy(Prop(schema, "@type")) {
      errors := errors + ["Schema must include @type"];
    }
    warnings := [];
    var context := Prop(schema, "@context");
    if Truthy(context) && context != Str(SchemaOrg) {
      warnings := warnings + [ContextWarning(context)];
    }
    report := Report(|errors| == 0, errors);
    RequiredKeyErrors(schema);
  }

  /** The missing-key errors are the `@context` error, then the `@type` error, each when its key is falsy. */
  lemma RequiredKeyErrors(schema: Value)
    ensures MissingKeyErrors(schema, RequiredKeys) ==
      (if Truthy(Prop(schema, "@context")) then [] else ["Schema must include @context"])
      + (if Truthy(Prop(schema, "@type")) then [] else ["Schema must include @type"])
  {
    var keys := RequiredKeys;
    assert keys[1..] == ["@type"] && keys[1..][1..] == [];
    assert "Schema must include " + "@context" == "Schema must include @context";
    assert "Schema must include " + "@type" == "Schema must include @type";
    assert MissingKeyErrors(schema, keys[1..][1..]) == [];
    assert MissingKeyErrors(schema, keys[1..]) ==
      (if Truthy(Prop(schema, "@type")) then [] else ["Schema must include @type"]);
  }

  /** A `@context` that is present but not schema.org's leaves validity to `@type` alone. */
  lemma ContextValueOnlyWarns(schema: Value)
    requires IsObject(schema) && Truthy(Prop(schema, "@context"))
    ensures StructureReport(schema).valid <==> Truthy(Prop(schema, "@type"))
  {
    RequiredKeyErrors(schema);
  }

  /** What `validateSchemaBeforeRender` returns: `{ valid: true }`, a bare boolean, or a report. */
  datatype Verdict = Passed | Bare(ok: bool) | Structure(report: Report)

  /** `schemas.every(s => validateSchemaStructure(s).valid)`. */
  function EveryValid(schemas: seq<Value>): (ok: bool)
    ensures ok <==> forall i :: 0 <= i < |schemas| ==> StructureReport(schemas[i]).valid
  {
    if |schemas| == 0 then true
    else StructureReport(schemas[0]).valid && EveryValid(schemas[1..])
  }

  /** `validateSchemaBeforeRender(schema)`. */
  function ValidateSchemaBeforeRender(schema: Value): (r: Verdict)
    ensures !Truthy(schema) ==> r == Passed
    ensures schema.Arr? ==> r.Bare? && (r.ok <==> forall i :: 0 <= i < |schema.items| ==> StructureReport(schema.items[i]).valid)
    ensures Truthy(schema) && !schema.Arr? ==> r == Structure(StructureReport(schema))
  {
    if !Truthy(schema) then Passed
    else if schema.Arr? then Bare(EveryValid(schema.items))
    else Structure(StructureReport(schema))
  }

  /**
   * The `@graph` wrapper that `mergeSchemas` builds for two or more schemas has no
   * `@type`, so the structural check always rejects it with exactly that error.
   */
  lemma MergedGraphLacksType(schemas: seq<Value>)
    requires |schemas| >= 2
    ensures StructureReport(MergeSchemas(Arr(schemas))) == Report(false, ["Schema must include @type"])
  {
    var merged := MergeSchemas(Arr(schemas));
    assert "@context"[1] != "@type"[1];
    assert "@graph"[1] != "@type"[1];
    LookupAbsent(merged.fields, "@type");
    RequiredKeyErrors(merged);
  }
}

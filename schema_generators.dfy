/**
 * The JSON-LD builders of `src/schemaGenerators.js`. Each returns an object literal
 * that starts with `@context` and `@type` and adds optional fields with conditional
 * spreads, `...(v && { key: v })`: the field is there exactly when `v` is truthy.
 */
module SchemaGenerators {
  import opened Wrappers
  import opened Js
  import opened MetaTags
  import opened SchemaValidation

  /** `'@context': 'https://schema.org', '@type': t`, the head of every builder's output. */
  function Header(schemaType: string): seq<Field> {
    [Field("@context", Str(SchemaOrg)), Field("@type", Str(schemaType))]
  }

  /** The header reads back as `@context` and `@type` whatever follows it. */
  lemma HeaderReads(schemaType: string, rest: seq<Field>)
    ensures Lookup(Header(schemaType) + rest, "@context") == Str(SchemaOrg)
    ensures Lookup(Header(schemaType) + rest, "@type") == Str(schemaType)
    ensures Keys(Header(schemaType)) == ["@context", "@type"]
  {
    var fields := Header(schemaType) + rest;
    assert "@context"[1] != "@type"[1];
    assert fields[1..] == [Field("@type", Str(schemaType))] + rest;
  }

  /** A key that does not start with `@` is not one of the header's. */
  lemma PlainKeyNotInHeader(schemaType: string, key: string)
    requires |key| > 0 && key[0] != '@'
    ensures key !in Keys(Header(schemaType))
  {
    HeaderReads(schemaType, []);
    assert "@context"[0] == '@' && "@type"[0] == '@';
  }

  /** Spreading only falsy candidates adds nothing. */
  lemma {:induction false} SpreadFalsy(candidates: seq<Field>)
    requires forall i :: 0 <= i < |candidates| ==> !Truthy(candidates[i].val)
    ensures Spread(candidates) == []
  {
    if |candidates| > 0 {
      assert forall i :: 0 <= i < |candidates[1..]| ==> candidates[1..][i] == candidates[i + 1];
      SpreadFalsy(candidates[1..]);
    }
  }

  /** The conditional spreads, in order: each candidate field is kept when its value is truthy. */
  function Spread(candidates: seq<Field>): (r: seq<Field>)
    ensures |r| <= |candidates|
  {
    if |candidates| == 0 then []
    else (if Truthy(candidates[0].val) then [candidates[0]] else []) + Spread(candidates[1..])
  }

  /** What reading an optional field back gives: the value when it was spread, `undefined` when not. */
  function IfTruthy(v: Value): Value {
    if Truthy(v) then v else Undefined
  }

  predicate DistinctKeys(fields: seq<Field>) {
    forall i, j :: 0 <= i < j < |fields| ==> fields[i].key != fields[j].key
  }

  /** The object carries `key` exactly when `v` is truthy, and then with value `v`. */
  predicate Carries(r: Value, key: string, v: Value) {
    r.Obj? && (key in Keys(r.fields) <==> Truthy(v)) && Prop(r, key) == IfTruthy(v)
  }

  lemma {:induction false} SpreadKeys(candidates: seq<Field>, key: string)
    requires key !in Keys(candidates)
    ensures key !in Keys(Spread(candidates))
  {
    if |candidates| > 0 {
      var head := if Truthy(candidates[0].val) then [candidates[0]] else [];
      KeysConcat(head, Spread(candidates[1..]));
      assert Keys(candidates) == [candidates[0].key] + Keys(candidates[1..]);
      SpreadKeys(candidates[1..], key);
    }
  }

  /** With distinct keys, each candidate is spread exactly when truthy and reads back as itself. */
  lemma {:induction false} SpreadCarries(candidates: seq<Field>, i: nat)
    requires i < |candidates| && DistinctKeys(candidates)
    ensures (candidates[i].key in Keys(Spread(candidates)) <==> Truthy(candidates[i].val))
    ensures Lookup(Spread(candidates), candidates[i].key) == IfTruthy(candidates[i].val)
  {
    var c := candidates[0];
    var head := if Truthy(c.val) then [c] else [];
    var tail := candidates[1..];
    KeysConcat(head, Spread(tail));
    LookupConcat(head, Spread(tail), candidates[i].key);
    if i == 0 {
      assert forall j :: 0 <= j < |tail| ==> tail[j].key != c.key by {
        forall j | 0 <= j < |tail| ensures tail[j].key != c.key {
          assert tail[j] == candidates[j + 1];
        }
      }
      SpreadKeys(tail, c.key);
      if !Truthy(c.val) {
        LookupAbsent(Spread(tail), c.key);
      }
    } else {
      assert tail[i - 1] == candidates[i];
      assert candidates[i].key != c.key;
      assert DistinctKeys(tail) by {
        forall a, b | 0 <= a < b < |tail| ensures tail[a].key != tail[b].key {
          assert tail[a] == candidates[a + 1] && tail[b] == candidates[b + 1];
        }
      }
      SpreadCarries(tail, i - 1);
    }
  }

  /** An object of fixed fields followed by spreads carries every candidate as the spread promises. */
  lemma ObjectCarries(fixed: seq<Field>, candidates: seq<Field>, i: nat, key: string, v: Value)
    requires i < |candidates| && DistinctKeys(candidates) && candidates[i] == Field(key, v)
    requires key !in Keys(fixed)
    ensures Carries(Obj(fixed + Spread(candidates)), key, v)
  {
    SpreadCarries(candidates, i);
    KeysConcat(fixed, Spread(candidates));
    LookupConcat(fixed, Spread(candidates), key);
  }

  /** The fixed fields read back as themselves whatever is spread after them. */
  lemma FixedFieldRead(fixed: seq<Field>, rest: seq<Field>, key: string)
    requires key in Keys(fixed)
    ensures Lookup(fixed + rest, key) == Lookup(fixed, key)
  {
    LookupConcat(fixed, rest, key);
  }

  // ---------------------------------------------------------------------------
  // generateOrganizationSchema

  /** The argument of `generateOrganizationSchema`; `sameAs` is `None` when left out. */
  datatype OrganizationConfig = OrganizationConfig(
    name: Value, alternateName: Value, url: Value, logo: Value, description: Value,
    address: Value, contactPoint: Value, sameAs: Option<seq<Value>>,
    areaServed: Value, hasOfferCatalog: Value)

  /** `sameAs = []`, then `sameAs.length > 0 && { sameAs }`: the list, or `false`. */
  function SameAsValue(sameAs: Option<seq<Value>>): (v: Value)
    ensures Truthy(v) <==> sameAs.Some? && |sameAs.value| > 0
  {
    var list := if sameAs.Some? then sameAs.value else [];
    if |list| > 0 then Arr(list) else Bool(false)
  }

  function OrganizationCandidates(c: OrganizationConfig): seq<Field> {
    [Field("alternateName", c.alternateName), Field("url", c.url), Field("logo", c.logo),
     Field("description", c.description), Field("address", c.address),
     Field("contactPoint", c.contactPoint), Field("sameAs", SameAsValue(c.sameAs)),
     Field("areaServed", c.areaServed), Field("hasOfferCatalog", c.hasOfferCatalog)]
  }

  lemma OrganizationKeysDistinct(c: OrganizationConfig)
    ensures DistinctKeys(OrganizationCandidates(c))
  {
  }

  /** `generateOrganizationSchema(config)`. */
  function GenerateOrganizationSchema(c: OrganizationConfig): (r: Value)
    ensures r.Obj? && Prop(r, "@context") == Str(SchemaOrg) && Prop(r, "@type") == Str("Organization")
  {
    var rest := [Field("name", c.name)] + Spread(OrganizationCandidates(c));
    HeaderReads("Organization", rest);
    Obj(Header("Organization") + rest)
  }

  /**
   * The organization object always has `name`, and has each optional field exactly
   * when the config's value for it is truthy (`sameAs` when the list is non-empty),
   * holding that value.
   */
  lemma OrganizationFields(c: OrganizationConfig)
    ensures var r := GenerateOrganizationSchema(c);
      "name" in Keys(r.fields) && Prop(r, "name") == c.name
      && forall i :: 0 <= i < |OrganizationCandidates(c)| ==>
           Carries(r, OrganizationCandidates(c)[i].key, OrganizationCandidates(c)[i].val)
  {
    var fixed := Header("Organization") + [Field("name", c.name)];
    var cands := OrganizationCandidates(c);
    assert GenerateOrganizationSchema(c) == Obj(fixed + Spread(cands));
    PlainKeyNotInHeader("Organization", "name");
    LookupConcat(Header("Organization"), [Field("name", c.name)], "name");
    KeysConcat(Header("Organization"), [Field("name", c.name)]);
    OrganizationKeysDistinct(c);
    forall i | 0 <= i < |cands| ensures Carries(Obj(fixed + Spread(cands)), cands[i].key, cands[i].val) {
      assert cands[i].key[0] != '@' && cands[i].key != "name";
      ObjectCarries(fixed, cands, i, cands[i].key, cands[i].val);
    }
    FixedFieldRead(fixed, Spread(cands), "name");
    KeysConcat(fixed, Spread(cands));
  }

  /** `sameAs` appears exactly when the list is given and non-empty, and then holds the list. */
  lemma OrganizationSameAs(c: OrganizationConfig)
    ensures var r := GenerateOrganizationSchema(c);
      ("sameAs" in Keys(r.fields) <==> c.sameAs.Some? && |c.sameAs.value| > 0)
      && (c.sameAs.Some? && |c.sameAs.value| > 0 ==> Prop(r, "sameAs") == Arr(c.sameAs.value))
  {
    OrganizationFields(c);
    assert OrganizationCandidates(c)[6] == Field("sameAs", SameAsValue(c.sameAs));
  }

  // ---------------------------------------------------------------------------
  // generateProfessionalServiceSchema

  datatype ProfessionalServiceConfig = ProfessionalServiceConfig(
    name: Value, description: Value, url: Value, areaServed: Value, serviceType: Value, provider: Value)

  function ProfessionalServiceCandidates(c: ProfessionalServiceConfig): seq<Field> {
    [Field("name", c.name), Field("description", c.description), Field("url", c.url),
     Field("areaServed", c.areaServed), Field("serviceType", c.serviceType), Field("provider", c.provider)]
  }

  /** `generateProfessionalServiceSchema(config)`. */
  function GenerateProfessionalServiceSchema(c: ProfessionalServiceConfig): (r: Value)
    ensures r.Obj? && Prop(r, "@context") == Str(SchemaOrg) && Prop(r, "@type") == Str("ProfessionalService")
  {
    HeaderReads("ProfessionalService", Spread(ProfessionalServiceCandidates(c)));
    Obj(Header("ProfessionalService") + Spread(ProfessionalServiceCandidates(c)))
  }

  /** Every field of the professional-service object is there exactly when truthy. */
  lemma ProfessionalServiceFields(c: ProfessionalServiceConfig)
    ensures var r := GenerateProfessionalServiceSchema(c);
      Carries(r, "name", c.name) && Carries(r, "description", c.description)
      && Carries(r, "url", c.url) && Carries(r, "areaServed", c.areaServed)
      && Carries(r, "serviceType", c.serviceType) && Carries(r, "provider", c.provider)
  {
    ProfessionalServiceCarries(c, 0);
    ProfessionalServiceCarries(c, 1);
    ProfessionalServiceCarries(c, 2);
    ProfessionalServiceCarries(c, 3);
    ProfessionalServiceCarries(c, 4);
    ProfessionalServiceCarries(c, 5);
  }

  /** One candidate of the professional-service object, placed after the header. */
  lemma ProfessionalServiceCarries(c: ProfessionalServiceConfig, i: nat)
    requires i < 6
    ensures var f := ProfessionalServiceCandidates(c)[i];
      Carries(GenerateProfessionalServiceSchema(c), f.key, f.val)
  {
    var cands := ProfessionalServiceCandidates(c);
    assert DistinctKeys(cands);
    HeaderReads("ProfessionalService", []);
    ObjectCarries(Header("ProfessionalService"), cands, i, cands[i].key, cands[i].val);
  }

  /** A config with only a name gives exactly `@context`, `@type` and `name`. */
  lemma ProfessionalServiceNameOnly(name: string)
    requires name != ""
    ensures Keys(GenerateProfessionalServiceSchema(ProfessionalServiceConfig(
      Str(name), Undefined, Undefined, Undefined, Undefined, Undefined)).fields)
      == ["@context", "@type", "name"]
  {
    var c := ProfessionalServiceConfig(Str(name), Undefined, Undefined, Undefined, Undefined, Undefined);
    var cands := ProfessionalServiceCandidates(c);
    SpreadFalsy(cands[1..]);
    assert Spread(cands) == [Field("name", Str(name))];
    KeysConcat(Header("ProfessionalService"), Spread(cands));
    HeaderReads("ProfessionalService", []);
  }

  // ---------------------------------------------------------------------------
  // generateBreadcrumbSchema

  /** One entry of the argument of `generateBreadcrumbSchema`. */
  datatype BreadcrumbItem = BreadcrumbItem(name: Value, url: Value)

  /** `{ '@type': 'ListItem', position: index + 1, name: item.name, item: item.url }`. */
  function ListItem(item: BreadcrumbItem, index: nat): Value {
    Obj([Field("@type", Str("ListItem")), Field("position", Num(index + 1)),
         Field("name", item.name), Field("item", item.url)])
  }

  /** A list item reads back its name, its url under `item`, and its 1-based position. */
  lemma ListItemReads(item: BreadcrumbItem, index: nat)
    ensures Prop(ListItem(item, index), "name") == item.name
    ensures Prop(ListItem(item, index), "item") == item.url
    ensures Prop(ListItem(item, index), "position") == Num(index + 1)
  {
    var fs := ListItem(item, index).fields;
    var tail := [Field("position", Num(index + 1)), Field("name", item.name), Field("item", item.url)];
    assert fs == [Field("@type", Str("ListItem"))] + tail;
    assert "@type" != "position" && "@type" != "name" && "@type" != "item" by {
      assert "@type"[0] != "position"[0] && "@type"[0] != "name"[0];
    }
    LookupConcat([Field("@type", Str("ListItem"))], tail, "position");
    LookupConcat([Field("@type", Str("ListItem"))], tail, "name");
    LookupConcat([Field("@type", Str("ListItem"))], tail, "item");
    assert "position" != "name" && "position" != "item" && "name" != "item" by {
      assert "position"[0] != "name"[0] && "position"[0] != "item"[0] && "name"[0] != "item"[0];
    }
    LookupConcat([Field("position", Num(index + 1))], tail[1..], "name");
    LookupConcat([Field("position", Num(index + 1))], tail[1..], "item");
    LookupConcat([Field("name", item.name)], tail[2..], "item");
  }

  /** `generateBreadcrumbSchema(items)`. */
  function GenerateBreadcrumbSchema(items: seq<BreadcrumbItem>): (r: Value)
    ensures Prop(r, "@context") == Str(SchemaOrg) && Prop(r, "@type") == Str("BreadcrumbList")
    ensures var list := Prop(r, "itemListElement");
      list.Arr? && |list.items| == |items|
      && forall i :: 0 <= i < |items| ==> list.items[i] == ListItem(items[i], i)
  {
    var list := seq(|items|, i requires 0 <= i < |items| => ListItem(items[i], i));
    var rest := [Field("itemListElement", Arr(list))];
    HeaderReads("BreadcrumbList", rest);
    PlainKeyNotInHeader("BreadcrumbList", "itemListElement");
    LookupConcat(Header("BreadcrumbList"), rest, "itemListElement");
    Obj(Header("BreadcrumbList") + rest)
  }

  /** Reads the `(name, url)` pairs back out of a breadcrumb list: the inverse of the builder. */
  function BreadcrumbItems(schema: Value): seq<BreadcrumbItem> {
    var list := Prop(schema, "itemListElement");
    if list.Arr? then
      seq(|list.items|, i requires 0 <= i < |list.items| =>
        BreadcrumbItem(Prop(list.items[i], "name"), Prop(list.items[i], "item")))
    else []
  }

  /** The breadcrumb list keeps every item, in order, and numbers them 1, 2, 3, … */
  lemma BreadcrumbRoundTrip(items: seq<BreadcrumbItem>)
    ensures BreadcrumbItems(GenerateBreadcrumbSchema(items)) == items
    ensures var list := Prop(GenerateBreadcrumbSchema(items), "itemListElement").items;
      forall i :: 0 <= i < |list| ==> Prop(list[i], "position") == Num(i + 1)
  {
    var list := Prop(GenerateBreadcrumbSchema(items), "itemListElement").items;
    forall i | 0 <= i < |list|
      ensures Prop(list[i], "name") == items[i].name && Prop(list[i], "item") == items[i].url
      ensures Prop(list[i], "position") == Num(i + 1)
    {
      ListItemReads(items[i], i);
    }
  }

  // ---------------------------------------------------------------------------
  // generateWebPageSchema

  datatype WebPageConfig = WebPageConfig(
    name: Value, description: Value, url: Value, inLanguage: Value, isPartOf: Value)

  /** `inLanguage = 'es'`: the default applies only when the value is `undefined`. */
  function Language(inLanguage: Value): Value {
    if inLanguage.Undefined? then Str("es") else inLanguage
  }

  function WebPageCandidates(c: WebPageConfig): seq<Field> {
    [Field("name", c.name), Field("description", c.description), Field("url", c.url),
     Field("inLanguage", Language(c.inLanguage)), Field("isPartOf", c.isPartOf)]
  }

  /** `generateWebPageSchema(config)`. */
  function GenerateWebPageSchema(c: WebPageConfig): (r: Value)
    ensures r.Obj? && Prop(r, "@context") == Str(SchemaOrg) && Prop(r, "@type") == Str("WebPage")
  {
    HeaderReads("WebPage", Spread(WebPageCandidates(c)));
    Obj(Header("WebPage") + Spread(WebPageCandidates(c)))
  }

  /**
   * `inLanguage` is "es" when not given and the given value when truthy; a falsy
   * given value (such as "") leaves the field out. The other fields are there
   * exactly when truthy.
   */
  lemma WebPageFields(c: WebPageConfig)
    ensures var r := GenerateWebPageSchema(c);
      (c.inLanguage.Undefined? ==> Prop(r, "inLanguage") == Str("es"))
      && (Truthy(c.inLanguage) ==> Prop(r, "inLanguage") == c.inLanguage)
      && (!c.inLanguage.Undefined? && !Truthy(c.inLanguage) ==> "inLanguage" !in Keys(r.fields))
      && Carries(r, "name", c.name) && Carries(r, "description", c.description)
      && Carries(r, "url", c.url) && Carries(r, "isPartOf", c.isPartOf)
  {
    var cands := WebPageCandidates(c);
    assert DistinctKeys(cands);
    HeaderReads("WebPage", []);
    ObjectCarries(Header("WebPage"), cands, 0, "name", c.name);
    ObjectCarries(Header("WebPage"), cands, 1, "description", c.description);
    ObjectCarries(Header("WebPage"), cands, 2, "url", c.url);
    ObjectCarries(Header("WebPage"), cands, 3, "inLanguage", Language(c.inLanguage));
    ObjectCarries(Header("WebPage"), cands, 4, "isPartOf", c.isPartOf);
  }

  // ---------------------------------------------------------------------------

  /** Whatever the config, every builder's output passes the structural check. */
  lemma GeneratedSchemasValid(org: OrganizationConfig, service: ProfessionalServiceConfig,
                              items: seq<BreadcrumbItem>, page: WebPageConfig)
    ensures StructureReport(GenerateOrganizationSchema(org)).valid
    ensures StructureReport(GenerateProfessionalServiceSchema(service)).valid
    ensures StructureReport(GenerateBreadcrumbSchema(items)).valid
    ensures StructureReport(GenerateWebPageSchema(page)).valid
  {
    RequiredKeyErrors(GenerateOrganizationSchema(org));
    RequiredKeyErrors(GenerateProfessionalServiceSchema(service));
    RequiredKeyErrors(GenerateBreadcrumbSchema(items));
    RequiredKeyErrors(GenerateWebPageSchema(page));
  }
}

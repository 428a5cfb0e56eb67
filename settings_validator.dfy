/**
 * static/js/modules/settingsValidator.js: `validateSettings` completes a settings
 * object against `settingsSchema`. Every missing section is created, every
 * missing required field gets its default and adds one error, fields already
 * present are kept, and the result is valid exactly when no error was added.
 * Values are JSON values; the shallow copy's sharing of nested objects with the
 * input is not modelled.
 */
module SettingsValidator {
  import opened Outcome
  import opened Json

  /** A section of the schema: an object with required fields, or an array whose items have required fields. */
  datatype SectionSchema =
    | ObjectSection(required: seq<string>, defaults: map<string, Json>)
    | ArraySection(itemRequired: seq<string>, itemDefaults: map<string, Json>)

  /** `settingsSchema`, in its declaration order. */
  const Schema: seq<(string, SectionSchema)> := [
    ("global", ObjectSection(["threshold", "delay"],
                             map["threshold" := JStr("0.5"), "delay" := JStr("1.0")])),
    ("microphone", ObjectSection(["enabled", "webhook_url", "audio_source", "device_index"],
                                 map["enabled" := JBool(false), "webhook_url" := JStr(""),
                                     "audio_source" := JStr("default"), "device_index" := JStr("0")])),
    ("rtsp_sources", ArraySection(["id", "name", "url", "webhook_url", "enabled"],
                                  map["webhook_url" := JStr(""), "enabled" := JBool(false), "url" := JStr("")])),
    ("saved_vban_sources", ArraySection(["name", "ip", "port", "stream_name", "webhook_url", "enabled"],
                                        map["webhook_url" := JStr(""), "enabled" := JBool(false),
                                            "port" := JNum(6980.0), "stream_name" := JStr("")])),
    ("vban", ObjectSection(["stream_name", "ip", "port", "webhook_url", "enabled"],
                           map["stream_name" := JStr(""), "ip" := JStr("0.0.0.0"), "port" := JNum(6980.0),
                               "webhook_url" := JStr(""), "enabled" := JBool(false)]))
  ]

  /** The messages pushed to `errors`. */
  datatype ValidationError =
    | NotAnArray(section: string)
    | MissingInItem(field: string, section: string)
    | MissingInSection(field: string, section: string)

  /** The `in` operator applied to a primitive: the TypeError escapes `validateSettings`. */
  datatype TypeError = InOnPrimitive(section: string)

  datatype Validation = Validation(settings: map<string, Json>, errors: seq<ValidationError>, isValid: bool)

  predicate Distinct(s: seq<string>)
  {
    forall i, j :: 0 <= i < j < |s| ==> s[i] != s[j]
  }

  function RequiredOf(s: SectionSchema): seq<string>
  {
    if s.ObjectSection? then s.required else s.itemRequired
  }

  /** No section lists a field twice, and no section appears twice. */
  lemma SchemaDistinct()
    ensures forall k :: 0 <= k < |Schema| ==> Distinct(RequiredOf(Schema[k].1))
    ensures forall i, j :: 0 <= i < j < |Schema| ==> Schema[i].0 != Schema[j].0
  {
  }

  /**
   * The value a missing field gets: the section default as it stands, but for an
   * array item `defaults[field] || null`, so a falsy or absent default is `null`.
   */
  function DefaultFor(defaults: map<string, Json>, field: string, item: bool): (v: Json)
    ensures !item && field in defaults ==> v == defaults[field]
    ensures item ==> (v == JNull <==> field !in defaults || !Truthy(defaults[field]))
    ensures item && v != JNull ==> v == defaults[field]
  {
    if field in defaults && (!item || Truthy(defaults[field])) then defaults[field] else JNull
  }

  /** Of the array-item defaults only the port survives `|| null`; every other item default is `null`. */
  lemma ItemDefaults()
    ensures forall f :: f in Schema[2].1.itemRequired ==> DefaultFor(Schema[2].1.itemDefaults, f, true) == JNull
    ensures DefaultFor(Schema[3].1.itemDefaults, "port", true) == JNum(6980.0)
    ensures forall f :: f in Schema[3].1.itemRequired && f != "port" ==> DefaultFor(Schema[3].1.itemDefaults, f, true) == JNull
  {
  }

  /** An object after the required-field pass: its fields, and the fields reported missing, in order. */
  datatype Filling = Filling(fields: map<string, Json>, missing: seq<string>)

  /**
   * The `forEach` over `required` on an object with `fields`: a field not yet
   * present gets its default and is reported.
   */
  function Fill(fields: map<string, Json>, required: seq<string>, defaults: map<string, Json>, item: bool): Filling
  {
    if required == [] then Filling(fields, [])
    else
      var before := Fill(fields, required[..|required| - 1], defaults, item);
      var field := required[|required| - 1];
      if field in before.fields then before
      else Filling(before.fields[field := DefaultFor(defaults, field, item)], before.missing + [field])
  }

  /**
   * The pass never overwrites a present field, adds exactly the required ones,
   * gives each added one its default, and reports exactly the required fields
   * that were absent.
   */
  lemma {:induction false} FillSpec(fields: map<string, Json>, required: seq<string>, defaults: map<string, Json>, item: bool)
    ensures var r := Fill(fields, required, defaults, item);
      && (forall f :: f in r.fields <==> f in fields || f in required)
      && (forall f :: f in fields ==> r.fields[f] == fields[f])
      && (forall f :: f in r.fields && f !in fields ==> r.fields[f] == DefaultFor(defaults, f, item))
      && (forall f :: f in r.missing <==> f in required && f !in fields)
  {
    if required != [] {
      var init := required[..|required| - 1];
      FillSpec(fields, init, defaults, item);
      assert forall f :: f in required <==> f in init || f == required[|required| - 1];
    }
  }

  /** With the required fields listed once each, each absent field is reported exactly once. */
  lemma {:induction false} FillReportsOnce(fields: map<string, Json>, required: seq<string>, defaults: map<string, Json>, item: bool)
    requires Distinct(required)
    ensures Distinct(Fill(fields, required, defaults, item).missing)
  {
    if required != [] {
      var init := required[..|required| - 1];
      var field := required[|required| - 1];
      assert Distinct(init);
      FillReportsOnce(fields, init, defaults, item);
      FillSpec(fields, init, defaults, item);
      assert field !in init;
    }
  }

  /** The body of the `forEach` over required fields, as a loop over one object. */
  method FillFields(fields: map<string, Json>, required: seq<string>, defaults: map<string, Json>, item: bool)
    returns (filled: map<string, Json>, missing: seq<string>)
    ensures Filling(filled, missing) == Fill(fields, required, defaults, item)
  {
    filled := fields;
    missing := [];
    for i := 0 to |required|
      invariant Filling(filled, missing) == Fill(fields, required[..i], defaults, item)
    {
      assert required[..i + 1][..i] == required[..i];
      var field := required[i];
      if field !in filled {
        filled := filled[field := DefaultFor(defaults, field, item)];
        missing := missing + [field];
      }
    }
    assert required[..|required|] == required;
  }

  function InSection(fields: seq<string>, section: string): (es: seq<ValidationError>)
    ensures |es| == |fields| && forall k :: 0 <= k < |fields| ==> es[k] == MissingInSection(fields[k], section)
  {
    seq(|fields|, k requires 0 <= k < |fields| => MissingInSection(fields[k], section))
  }

  function InItem(fields: seq<string>, section: string): (es: seq<ValidationError>)
    ensures |es| == |fields| && forall k :: 0 <= k < |fields| ==> es[k] == MissingInItem(fields[k], section)
  {
    seq(|fields|, k requires 0 <= k < |fields| => MissingInItem(fields[k], section))
  }

  /** The `map` over the items of an array section: each item spread into an object and filled, and its errors. */
  function Items(items: seq<Json>, required: seq<string>, defaults: map<string, Json>, section: string)
    : (r: (seq<Json>, seq<ValidationError>))
    ensures |r.0| == |items|
  {
    if items == [] then ([], [])
    else
      var before := Items(items[..|items| - 1], required, defaults, section);
      var f := Fill(Spread(items[|items| - 1]), required, defaults, true);
      (before.0 + [JObj(f.fields)], before.1 + InItem(f.missing, section))
  }

  /** Item `k` of the output is item `k` of the input, spread and filled. */
  lemma {:induction false} ItemsAt(items: seq<Json>, required: seq<string>, defaults: map<string, Json>, section: string, k: nat)
    requires k < |items|
    ensures Items(items, required, defaults, section).0[k] == JObj(Fill(Spread(items[k]), required, defaults, true).fields)
  {
    if k < |items| - 1 {
      ItemsAt(items[..|items| - 1], required, defaults, section, k);
    }
  }

  /** Every item, spread into an object, carries every required field. */
  predicate ItemsHave(items: seq<Json>, required: seq<string>)
  {
    forall k, f :: 0 <= k < |items| && f in required ==> f in Spread(items[k])
  }

  /** The items pass reports nothing exactly when no item lacks a required field. */
  lemma {:induction false} ItemsClean(items: seq<Json>, required: seq<string>, defaults: map<string, Json>, section: string)
    ensures Items(items, required, defaults, section).1 == [] <==> ItemsHave(items, required)
  {
    if items != [] {
      var init := items[..|items| - 1];
      var last := items[|items| - 1];
      ItemsClean(init, required, defaults, section);
      FillClean(Spread(last), required, defaults, true);
      var f := Fill(Spread(last), required, defaults, true);
      var before := Items(init, required, defaults, section);
      assert Items(items, required, defaults, section).1 == before.1 + InItem(f.missing, section);
      if before.1 == [] && f.missing == [] {
        forall k, g | 0 <= k < |items| && g in required
          ensures g in Spread(items[k])
        {
          if k < |init| {
            assert init[k] == items[k];
          }
        }
      } else if before.1 != [] {
        var k, g :| 0 <= k < |init| && g in required && g !in Spread(init[k]);
        assert init[k] == items[k];
      }
    }
  }

  /** The pass over one object reports nothing exactly when every required field is present. */
  lemma FillClean(fields: map<string, Json>, required: seq<string>, defaults: map<string, Json>, item: bool)
    ensures Fill(fields, required, defaults, item).missing == [] <==> forall g :: g in required ==> g in fields
  {
    FillSpec(fields, required, defaults, item);
    var f := Fill(fields, required, defaults, item);
    if f.missing != [] {
      assert f.missing[0] in f.missing;
    }
  }

  /** The `map` over the items of an array section, one item at a time. */
  method ValidateItems(items: seq<Json>, required: seq<string>, defaults: map<string, Json>, section: string)
    returns (out: seq<Json>, errors: seq<ValidationError>)
    ensures (out, errors) == Items(items, required, defaults, section)
  {
    out := [];
    errors := [];
    for k := 0 to |items|
      invariant (out, errors) == Items(items[..k], required, defaults, section)
    {
      assert items[..k + 1][..k] == items[..k];
      var filled, missing := FillFields(Spread(items[k]), required, defaults, true);
      out := out + [JObj(filled)];
      errors := errors + InItem(missing, section);
    }
    assert items[..|items|] == items;
  }

  /**
   * One section's pass: a falsy value is replaced by an empty array or object;
   * an array section that is not an array is reported and emptied; an object
   * section is completed. An array in an object section takes its missing
   * fields as properties JSON does not carry, so only the errors remain; a
   * truthy primitive makes `in` throw.
   */
  function SectionOutcome(value: Json, name: string, schema: SectionSchema): Result<(Json, seq<ValidationError>), TypeError>
  {
    match schema
    case ArraySection(required, defaults) => Ok(ArrayOutcome(value, name, required, defaults))
    case ObjectSection(required, defaults) => ObjectOutcome(value, name, required, defaults)
  }

  /** The pass over an array section: a falsy value becomes `[]`, any other non-array is reported and becomes `[]`. */
  function ArrayOutcome(value: Json, name: string, required: seq<string>, defaults: map<string, Json>): (Json, seq<ValidationError>)
  {
    var items := if value.JArr? then value.items else [];
    var reported := if !Truthy(value) || value.JArr? then [] else [NotAnArray(name)];
    var r := Items(items, required, defaults, name);
    (JArr(r.0), reported + r.1)
  }

  /** The pass over an object section: a falsy value becomes `{}` and is completed like any object. */
  function ObjectOutcome(value: Json, name: string, required: seq<string>, defaults: map<string, Json>)
    : Result<(Json, seq<ValidationError>), TypeError>
  {
    var v := if Truthy(value) then value else JObj(map[]);
    if v.JObj? then
      var f := Fill(v.fields, required, defaults, false);
      Ok((JObj(f.fields), InSection(f.missing, name)))
    else if v.JArr? then Ok((v, InSection(required, name)))
    else Err(InOnPrimitive(name))
  }

  /** One section's pass, as the body of the `forEach` over the schema does it. */
  method ValidateSection(value: Json, name: string, schema: SectionSchema)
    returns (r: Result<(Json, seq<ValidationError>), TypeError>)
    ensures r == SectionOutcome(value, name, schema)
  {
    var v := value;
    if !Truthy(v) {
      v := if schema.ArraySection? then JArr([]) else JObj(map[]);
    }
    if schema.ArraySection? {
      var reported: seq<ValidationError> := [];
      if !v.JArr? {
        reported := [NotAnArray(name)];
        v := JArr([]);
      }
      var out, itemErrors := ValidateItems(v.items, schema.itemRequired, schema.itemDefaults, name);
      return Ok((JArr(out), reported + itemErrors));
    }
    if v.JObj? {
      var filled, missing := FillFields(v.fields, schema.required, schema.defaults, false);
      return Ok((JObj(filled), InSection(missing, name)));
    }
    if v.JArr? {
      return Ok((v, InSection(schema.required, name)));
    }
    return Err(InOnPrimitive(name));
  }

  type Pass = Result<(map<string, Json>, seq<ValidationError>), TypeError>

  /** The sections `sections`, validated in order, starting from the settings `vs`. */
  function ValidateFrom(vs: map<string, Json>, sections: seq<(string, SectionSchema)>): Pass
    decreases |sections|
  {
    if sections == [] then Ok((vs, []))
    else
      match SectionOutcome(Get(vs, sections[0].0), sections[0].0, sections[0].1)
      case Err(e) => Err(e)
      case Ok(out) => Prepend(out.1, ValidateFrom(vs[sections[0].0 := out.0], sections[1..]))
  }

  function Prepend(es: seq<ValidationError>, r: Pass): Pass
  {
    match r
    case Err(e) => Err(e)
    case Ok(out) => Ok((out.0, es + out.1))
  }

  lemma PrependAssoc(a: seq<ValidationError>, b: seq<ValidationError>, r: Pass)
    ensures Prepend(a, Prepend(b, r)) == Prepend(a + b, r)
  {
    if r.Ok? {
      assert a + (b + r.value.1) == (a + b) + r.value.1;
    }
  }

  lemma PrependNothing(r: Pass)
    ensures Prepend([], r) == r
  {
    if r.Ok? {
      assert [] + r.value.1 == r.value.1;
    }
  }

  /** `validateSettings` against the schema `sections`. */
  function ValidateWith(sections: seq<(string, SectionSchema)>, settings: Json): Result<Validation, TypeError>
  {
    match ValidateFrom(Spread(settings), sections)
    case Err(e) => Err(e)
    case Ok(out) => Ok(Validation(out.0, out.1, out.1 == []))
  }

  /** `validateSettings(settings)` against `settingsSchema`. */
  function Validate(settings: Json): Result<Validation, TypeError>
  {
    ValidateWith(Schema, settings)
  }

  /** The copy, the `forEach` over the sections of `sections`, and the verdict. */
  method ValidateSettingsWith(sections: seq<(string, SectionSchema)>, settings: Json) returns (r: Result<Validation, TypeError>)
    ensures r == ValidateWith(sections, settings)
  {
    var vs := Spread(settings);
    var errors: seq<ValidationError> := [];
    assert sections[0..] == sections;
    PrependNothing(ValidateFrom(vs, sections));
    for i := 0 to |sections|
      invariant ValidateFrom(Spread(settings), sections) == Prepend(errors, ValidateFrom(vs, sections[i..]))
    {
      var name := sections[i].0;
      var out := ValidateSection(Get(vs, name), name, sections[i].1);
      assert sections[i..][0] == sections[i] && sections[i..][1..] == sections[i + 1..];
      if out.Err? {
        return Err(out.error);
      }
      PrependAssoc(errors, out.value.1, ValidateFrom(vs[name := out.value.0], sections[i + 1..]));
      vs := vs[name := out.value.0];
      errors := errors + out.value.1;
    }
    assert ValidateFrom(vs, sections[|sections|..]) == Ok((vs, []));
    assert errors + [] == errors;
    return Ok(Validation(vs, errors, errors == []));
  }

  /** Each section name appears once. */
  predicate DistinctNames(sections: seq<(string, SectionSchema)>)
  {
    forall i, j :: 0 <= i < j < |sections| ==> sections[i].0 != sections[j].0
  }

  /**
   * A section value the pass leaves without an error: after a falsy value is
   * replaced, an array section is an array whose items carry every required
   * field, and an object section is an object carrying every required field
   * (or an array, when nothing is required).
   */
  predicate SectionComplete(value: Json, schema: SectionSchema)
  {
    var v := if Truthy(value) then value else if schema.ArraySection? then JArr([]) else JObj(map[]);
    match schema
    case ArraySection(required, _) => v.JArr? && ItemsHave(v.items, required)
    case ObjectSection(required, _) =>
      (v.JObj? && forall f :: f in required ==> f in v.fields) || (v.JArr? && required == [])
  }

  /** A section's pass reports nothing exactly when the section was complete. */
  lemma SectionClean(value: Json, name: string, schema: SectionSchema)
    ensures SectionOutcome(value, name, schema).Ok? && SectionOutcome(value, name, schema).value.1 == []
        <==> SectionComplete(value, schema)
  {
    match schema
    case ArraySection(required, defaults) => ArrayClean(value, name, required, defaults);
    case ObjectSection(required, defaults) => ObjectClean(value, name, required, defaults);
  }

  lemma ArrayClean(value: Json, name: string, required: seq<string>, defaults: map<string, Json>)
    ensures ArrayOutcome(value, name, required, defaults).1 == [] <==> SectionComplete(value, ArraySection(required, defaults))
  {
    var items := if value.JArr? then value.items else [];
    ItemsClean(items, required, defaults, name);
    var r := Items(items, required, defaults, name);
    var none: seq<ValidationError> := [];
    assert none + r.1 == r.1;
    if value.JArr? {
      assert ArrayOutcome(value, name, required, defaults).1 == r.1;
    } else if !Truthy(value) {
      assert items == [] && r.1 == [];
      assert ArrayOutcome(value, name, required, defaults).1 == [];
    } else {
      assert ArrayOutcome(value, name, required, defaults).1 == [NotAnArray(name)] + r.1;
    }
  }

  lemma ObjectClean(value: Json, name: string, required: seq<string>, defaults: map<string, Json>)
    ensures ObjectOutcome(value, name, required, defaults).Ok? && ObjectOutcome(value, name, required, defaults).value.1 == []
        <==> SectionComplete(value, ObjectSection(required, defaults))
  {
    var v := if Truthy(value) then value else JObj(map[]);
    if v.JObj? {
      FillClean(v.fields, required, defaults, false);
    } else if v.JArr? && required != [] {
      assert |InSection(required, name)| > 0;
    }
  }

  /** The passes over distinct sections report nothing exactly when every section was complete in the input. */
  lemma {:induction false} ValidateFromClean(vs: map<string, Json>, sections: seq<(string, SectionSchema)>)
    requires DistinctNames(sections)
    ensures ValidateFrom(vs, sections).Ok? && ValidateFrom(vs, sections).value.1 == []
        <==> forall k :: 0 <= k < |sections| ==> SectionComplete(Get(vs, sections[k].0), sections[k].1)
    decreases |sections|
  {
    if sections != [] {
      var name := sections[0].0;
      SectionClean(Get(vs, name), name, sections[0].1);
      var out := SectionOutcome(Get(vs, name), name, sections[0].1);
      if out.Ok? {
        var next := vs[name := out.value.0];
        var rest := sections[1..];
        assert DistinctNames(rest);
        ValidateFromClean(next, rest);
        assert forall k :: 0 <= k < |rest| ==> rest[k] == sections[k + 1] && Get(next, rest[k].0) == Get(vs, rest[k].0);
        if out.value.1 == [] && ValidateFrom(next, rest).Ok? && ValidateFrom(next, rest).value.1 == [] {
          forall k | 0 <= k < |sections|
            ensures SectionComplete(Get(vs, sections[k].0), sections[k].1)
          {
            if k > 0 {
              assert sections[k] == rest[k - 1];
            }
          }
        }
      }
    }
  }

  /** `key` names one of `sections`. */
  predicate Names(sections: seq<(string, SectionSchema)>, key: string)
  {
    exists k :: 0 <= k < |sections| && sections[k].0 == key
  }

  /** Where the passes succeed, the result has the input's keys and the section names, and no other. */
  lemma {:induction false} ValidateFromKeys(vs: map<string, Json>, sections: seq<(string, SectionSchema)>)
    requires ValidateFrom(vs, sections).Ok?
    ensures forall key :: key in ValidateFrom(vs, sections).value.0 <==> key in vs || Names(sections, key)
    decreases |sections|
  {
    if sections != [] {
      var name := sections[0].0;
      var out := SectionOutcome(Get(vs, name), name, sections[0].1);
      var rest := sections[1..];
      ValidateFromKeys(vs[name := out.value.0], rest);
      forall key | Names(sections, key)
        ensures key == name || Names(rest, key)
      {
        var k :| 0 <= k < |sections| && sections[k].0 == key;
        if k > 0 {
          assert rest[k - 1].0 == key;
        }
      }
    }
  }

  /**
   * Where the passes over distinct sections succeed, every key outside the
   * schema keeps its value and every section holds what its own pass made of
   * the input's value.
   */
  lemma {:induction false} ValidateFromResult(vs: map<string, Json>, sections: seq<(string, SectionSchema)>)
    requires DistinctNames(sections)
    requires ValidateFrom(vs, sections).Ok?
    ensures var m := ValidateFrom(vs, sections).value.0;
      && (forall key :: key in vs && (forall k :: 0 <= k < |sections| ==> sections[k].0 != key) ==> key in m && m[key] == vs[key])
      && (forall k :: 0 <= k < |sections| ==>
            var out := SectionOutcome(Get(vs, sections[k].0), sections[k].0, sections[k].1);
            out.Ok? && sections[k].0 in m && m[sections[k].0] == out.value.0)
    decreases |sections|
  {
    if sections != [] {
      var name := sections[0].0;
      var out := SectionOutcome(Get(vs, name), name, sections[0].1);
      var next := vs[name := out.value.0];
      var rest := sections[1..];
      assert DistinctNames(rest);
      ValidateFromResult(next, rest);
      ValidateFromKeys(next, rest);
      var m := ValidateFrom(vs, sections).value.0;
      assert m == ValidateFrom(next, rest).value.0;
      forall key | key in vs && (forall k :: 0 <= k < |sections| ==> sections[k].0 != key)
        ensures key in m && m[key] == vs[key]
      {
        assert forall k :: 0 <= k < |rest| ==> rest[k] == sections[k + 1];
      }
      forall k | 0 <= k < |sections|
        ensures var o := SectionOutcome(Get(vs, sections[k].0), sections[k].0, sections[k].1);
                o.Ok? && sections[k].0 in m && m[sections[k].0] == o.value.0
      {
        if k > 0 {
          assert sections[k] == rest[k - 1];
          assert Get(next, rest[k - 1].0) == Get(vs, sections[k].0);
        } else {
          assert forall j :: 0 <= j < |rest| ==> rest[j] == sections[j + 1];
        }
      }
    }
  }

  /** A pass over fields that are all present changes nothing and reports nothing. */
  lemma {:induction false} FillComplete(fields: map<string, Json>, required: seq<string>, defaults: map<string, Json>, item: bool)
    requires forall f :: f in required ==> f in fields
    ensures Fill(fields, required, defaults, item) == Filling(fields, [])
  {
    if required != [] {
      FillComplete(fields, required[..|required| - 1], defaults, item);
    }
  }

  /** The items pass over objects that already carry every required field changes nothing and reports nothing. */
  lemma {:induction false} ItemsComplete(items: seq<Json>, required: seq<string>, defaults: map<string, Json>, section: string)
    requires forall k :: 0 <= k < |items| ==> items[k].JObj? && forall f :: f in required ==> f in items[k].fields
    ensures Items(items, required, defaults, section) == (items, [])
  {
    if items != [] {
      var init := items[..|items| - 1];
      var last := items[|items| - 1];
      ItemsComplete(init, required, defaults, section);
      FillComplete(last.fields, required, defaults, true);
      assert Spread(last) == last.fields;
      var none: seq<ValidationError> := [];
      assert InItem([], section) == none && none + none == none;
      assert init + [JObj(last.fields)] == items;
    }
 }

  /**
   * What a section's pass produces passes again unchanged and without errors,
   * unless it is the array an object section was given.
   */
  lemma SectionIdempotent(value: Json, name: string, schema: SectionSchema)
    requires SectionOutcome(value, name, schema).Ok?
    requires !(schema.ObjectSection? && Truthy(value) && value.JArr?)
    ensures var w := SectionOutcome(value, name, schema).value.0;
      SectionOutcome(w, name, schema) == Ok((w, []))
  {
    match schema
    case ArraySection(required, defaults) => ArrayIdempotent(value, name, required, defaults);
    case ObjectSection(required, defaults) => ObjectIdempotent(value, name, required, defaults);
  }

  lemma ArrayIdempotent(value: Json, name: string, required: seq<string>, defaults: map<string, Json>)
    ensures var w := ArrayOutcome(value, name, required, defaults).0;
      ArrayOutcome(w, name, required, defaults) == (w, [])
  {
    var items := if value.JArr? then value.items else [];
    var out := Items(items, required, defaults, name).0;
    forall k | 0 <= k < |out|
      ensures out[k].JObj? && forall f :: f in required ==> f in out[k].fields
    {
      ItemsAt(items, required, defaults, name, k);
      FillSpec(Spread(items[k]), required, defaults, true);
    }
    ItemsComplete(out, required, defaults, name);
    var none: seq<ValidationError> := [];
    assert none + none == none;
  }

  lemma ObjectIdempotent(value: Json, name: string, required: seq<string>, defaults: map<string, Json>)
    requires ObjectOutcome(value, name, required, defaults).Ok?
    requires !(Truthy(value) && value.JArr?)
    ensures var w := ObjectOutcome(value, name, required, defaults).value.0;
      ObjectOutcome(w, name, required, defaults) == Ok((w, []))
  {
    var v := if Truthy(value) then value else JObj(map[]);
    FillSpec(v.fields, required, defaults, false);
    var f := Fill(v.fields, required, defaults, false);
    FillComplete(f.fields, required, defaults, false);
    assert InSection([], name) == [];
  }

  /** Settings whose every section passes unchanged without errors pass as they are. */
  lemma {:induction false} ValidateFromFixed(vs: map<string, Json>, sections: seq<(string, SectionSchema)>)
    requires forall k :: 0 <= k < |sections| ==>
      sections[k].0 in vs && SectionOutcome(vs[sections[k].0], sections[k].0, sections[k].1) == Ok((vs[sections[k].0], []))
    ensures ValidateFrom(vs, sections) == Ok((vs, []))
    decreases |sections|
  {
    if sections != [] {
      var rest := sections[1..];
      assert vs[sections[0].0 := vs[sections[0].0]] == vs;
      assert forall k :: 0 <= k < |rest| ==> rest[k] == sections[k + 1];
      ValidateFromFixed(vs, rest);
      PrependNothing(ValidateFrom(vs, rest));
    }
  }

  /**
   * Against a schema with distinct section names, validation is idempotent:
   * validating its output again reports nothing and changes nothing, unless an
   * object section was given an array.
   */
  lemma ValidateWithIdempotent(sections: seq<(string, SectionSchema)>, settings: Json)
    requires DistinctNames(sections)
    requires ValidateWith(sections, settings).Ok?
    requires forall k :: 0 <= k < |sections| && sections[k].1.ObjectSection? ==> !Get(Spread(settings), sections[k].0).JArr?
    ensures var out := ValidateWith(sections, settings).value.settings;
      ValidateWith(sections, JObj(out)) == Ok(Validation(out, [], true))
  {
    var vs := Spread(settings);
    ValidateFromResult(vs, sections);
    var m := ValidateFrom(vs, sections).value.0;
    forall k | 0 <= k < |sections|
      ensures sections[k].0 in m && SectionOutcome(m[sections[k].0], sections[k].0, sections[k].1) == Ok((m[sections[k].0], []))
    {
      SectionIdempotent(Get(vs, sections[k].0), sections[k].0, sections[k].1);
    }
    ValidateFromFixed(m, sections);
  }

  /** The sections of `settingsSchema` have distinct names. */
  lemma SchemaNames()
    ensures DistinctNames(Schema)
  {
  }

  /**
   * `isValid` holds exactly when no `in` throws and every section of the
   * input was already complete.
   */
  lemma ValidExactly(settings: Json)
    ensures Validate(settings).Ok? && Validate(settings).value.isValid
        <==> forall k :: 0 <= k < |Schema| ==> SectionComplete(Get(Spread(settings), Schema[k].0), Schema[k].1)
  {
    SchemaNames();
    ValidateFromClean(Spread(settings), Schema);
  }

  /**
   * Against a schema with distinct section names, validation keeps every key
   * outside the schema, and in an object section given as an object it keeps
   * every present field and adds each missing required one with its default.
   */
  lemma ValidateWithKeepsPresent(sections: seq<(string, SectionSchema)>, settings: Json)
    requires DistinctNames(sections)
    requires ValidateWith(sections, settings).Ok?
    ensures var vs := Spread(settings); var out := ValidateWith(sections, settings).value.settings;
      && (forall key :: key in vs && !Names(sections, key) ==> key in out && out[key] == vs[key])
      && (forall k :: 0 <= k < |sections| && sections[k].1.ObjectSection? && Get(vs, sections[k].0).JObj? ==>
            ObjectKept(Get(vs, sections[k].0).fields, Get(out, sections[k].0), sections[k].1))
  {
    var vs := Spread(settings);
    ValidateFromResult(vs, sections);
    forall k | 0 <= k < |sections| && sections[k].1.ObjectSection? && Get(vs, sections[k].0).JObj?
      ensures ObjectKept(Get(vs, sections[k].0).fields, Get(ValidateWith(sections, settings).value.settings, sections[k].0), sections[k].1)
    {
      var name := sections[k].0;
      var given := Get(vs, name).fields;
      var f := Fill(given, sections[k].1.required, sections[k].1.defaults, false);
      FillSpec(given, sections[k].1.required, sections[k].1.defaults, false);
      assert SectionOutcome(Get(vs, name), name, sections[k].1).value.0 == JObj(f.fields);
    }
  }

  /**
   * `validateSettings` keeps every key outside the schema, and in an object
   * section given as an object it keeps every present field and adds each
   * missing required one with its section default.
   */
  lemma ValidateKeepsPresent(settings: Json)
    requires Validate(settings).Ok?
    ensures var vs := Spread(settings); var out := Validate(settings).value.settings;
      && (forall key :: key in vs && !Names(Schema, key) ==> key in out && out[key] == vs[key])
      && (forall k :: 0 <= k < |Schema| && Schema[k].1.ObjectSection? && Get(vs, Schema[k].0).JObj? ==>
            ObjectKept(Get(vs, Schema[k].0).fields, Get(out, Schema[k].0), Schema[k].1))
  {
    SchemaNames();
    ValidateWithKeepsPresent(Schema, settings);
  }

  /** `section` is the object `given` completed: present fields kept, each missing required one set to its default. */
  predicate ObjectKept(given: map<string, Json>, section: Json, schema: SectionSchema)
    requires schema.ObjectSection?
  {
    && section.JObj?
    && (forall f :: f in given ==> f in section.fields && section.fields[f] == given[f])
    && (forall f :: f in schema.required && f !in given ==>
          f in section.fields && section.fields[f] == DefaultFor(schema.defaults, f, false))
  }

  /** Validating the output of `validateSettings` again reports nothing and changes nothing, unless an object section was given an array. */
  lemma ValidateIdempotent(settings: Json)
    requires Validate(settings).Ok?
    requires forall k :: 0 <= k < |Schema| && Schema[k].1.ObjectSection? ==> !Get(Spread(settings), Schema[k].0).JArr?
    ensures var out := Validate(settings).value.settings;
      Validate(JObj(out)) == Ok(Validation(out, [], true))
  {
    SchemaNames();
    ValidateWithIdempotent(Schema, settings);
  }

  /** `validateSettings(settings)`: the result is valid exactly when no error was reported. */
  method ValidateSettings(settings: Json) returns (r: Result<Validation, TypeError>)
    ensures r == Validate(settings)
    ensures r.Ok? ==> (r.value.isValid <==> r.value.errors == [])
  {
    r := ValidateSettingsWith(Schema, settings);
  }
}

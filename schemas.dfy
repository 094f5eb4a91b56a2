/** Mongoose schemas as values: the declared fields and their types, the
    required fields, the enumerations, the defaults and the `timestamps`
    option; what `new Model(fields)` and `save` make of a document, and what
    an update does to one. The four schemas of the route-per-resource
    backend (activity, goal, nutrition entry, progress entry) are defined
    here; the monolithic server's own schemas are in module `Monolith`. */
module Schemas {
  import opened Json

  datatype FieldType = TString | TNumber | TDate | TRef | TMeasurements | TList

  /** A default: the creation time (`Date.now`) or a fixed value. */
  datatype Default = Now | Fixed(v: Value)

  datatype Schema = Schema(
    fields: map<string, FieldType>,
    required: set<string>,
    enums: map<string, set<string>>,
    defaults: map<string, Default>,
    timestamps: bool)

  const GoalTypes: set<string> := {"weight", "workout", "nutrition"}
  const GoalStatuses: set<string> := {"in-progress", "completed", "failed"}
  const MeasurementFields: set<string> := {"chest", "waist", "hips", "arms", "thighs"}

  const ActivitySchema: Schema := Schema(
    map["createdAt" := TDate, "updatedAt" := TDate, "user" := TRef, "type" := TString, "duration" := TNumber, "calories" := TNumber,
                 "date" := TDate, "notes" := TString],
    {"user", "type", "duration", "calories"},
    map[],
    map["date" := Now],
    true)

  const GoalSchema: Schema := Schema(
    map["createdAt" := TDate, "updatedAt" := TDate, "user" := TRef, "type" := TString, "target" := TNumber, "deadline" := TDate,
                 "description" := TString, "status" := TString],
    {"user", "type", "target", "deadline"},
    map["type" := GoalTypes, "status" := GoalStatuses],
    map["status" := Fixed(Str("in-progress"))],
    true)

  const NutritionSchema: Schema := Schema(
    map["createdAt" := TDate, "updatedAt" := TDate, "user" := TRef, "meal" := TString, "food" := TString, "calories" := TNumber,
                 "protein" := TNumber, "carbs" := TNumber, "fats" := TNumber, "date" := TDate],
    {"user", "meal", "food", "calories"},
    map[],
    map["date" := Now],
    true)

  const ProgressSchema: Schema := Schema(
    map["createdAt" := TDate, "updatedAt" := TDate, "user" := TRef, "weight" := TNumber, "bodyFat" := TNumber,
                 "measurements" := TMeasurements, "date" := TDate, "notes" := TString],
    {"user"},
    map[],
    map["date" := Now],
    true)

  /** A value Mongoose can store under a field of the given type. The nested
      `measurements` object holds only numbers under its five names. */
  predicate HasType(v: Value, t: FieldType) {
    match t
    case TString => v.Str?
    case TNumber => v.Num?
    case TDate => v.Date?
    case TRef => v.Ref?
    case TMeasurements => v.Obj? && forall f | f in MeasurementFields && f in v.fields :: v.fields[f].Num?
    case TList => v.List?
  }

  /** Casting succeeds: every declared field that is present has its type. */
  predicate Castable(s: Schema, doc: Doc) {
    forall f | f in doc && f in s.fields :: HasType(doc[f], s.fields[f])
  }

  /** Mongoose's `required` check: the field is there, and a string is not empty. */
  predicate Present(doc: Doc, f: string) {
    f in doc && (doc[f].Str? ==> doc[f].s != "")
  }

  /** An `enum` check: a string present under `f` is one of `allowed`. */
  predicate InEnum(doc: Doc, f: string, allowed: set<string>) {
    f in doc && doc[f].Str? ==> doc[f].s in allowed
  }

  /** What `save` accepts: casting, the required fields and the enumerations. */
  predicate Validates(s: Schema, doc: Doc) {
    && Castable(s, doc)
    && (forall f | f in s.required :: Present(doc, f))
    && (forall f | f in s.enums :: InEnum(doc, f, s.enums[f]))
  }

  function DefaultValue(d: Default, now: int): Value {
    match d
    case Now => Date(now)
    case Fixed(v) => v
  }

  /** The schema's defaults, applied to the fields the document lacks. */
  function WithDefaults(s: Schema, doc: Doc, now: int): (r: Doc)
    ensures r.Keys == doc.Keys + s.defaults.Keys
    ensures forall f | f in doc :: r[f] == doc[f]
    ensures forall f | f in s.defaults && f !in doc :: r[f] == DefaultValue(s.defaults[f], now)
  {
    map f | f in doc.Keys + s.defaults.Keys :: if f in doc then doc[f] else DefaultValue(s.defaults[f], now)
  }

  /** The `timestamps` option on a new document: `createdAt` is the save
      time unless already set, and `updatedAt` equals `createdAt`. */
  function StampNew(doc: Doc, now: int): (r: Doc)
    ensures r.Keys == doc.Keys + {"createdAt", "updatedAt"}
    ensures forall f | f in doc && f != "createdAt" && f != "updatedAt" :: r[f] == doc[f]
    ensures "createdAt" !in doc ==> r["createdAt"] == Date(now)
    ensures "createdAt" in doc ==> r["createdAt"] == doc["createdAt"]
    ensures r["updatedAt"] == r["createdAt"]
  {
    var created := if "createdAt" in doc then doc["createdAt"] else Date(now);
    doc["createdAt" := created]["updatedAt" := created]
  }

  /** The document `new Model(fields)` builds and `save` stores. */
  function Build(s: Schema, fields: Doc, now: int): Doc {
    var d := WithDefaults(s, fields, now);
    if s.timestamps then StampNew(d, now) else d
  }

  /** An update (`findByIdAndUpdate`, `findOneAndUpdate`): the body's fields
      replace the stored ones; with timestamps, `createdAt` is immutable and
      `updatedAt` becomes the update time. */
  function Touch(s: Schema, doc: Doc, body: Doc, now: int): (r: Doc)
    ensures r.Keys == doc.Keys + body.Keys + (if s.timestamps then {"updatedAt"} else {})
    ensures forall f | f in body && !(s.timestamps && f in {"createdAt", "updatedAt"}) :: r[f] == body[f]
    ensures forall f | f in doc && f !in body && !(s.timestamps && f == "updatedAt") :: r[f] == doc[f]
    ensures s.timestamps && "createdAt" in doc ==> r["createdAt"] == doc["createdAt"]
    ensures s.timestamps ==> r["updatedAt"] == Date(now)
  {
    var merged := Assign(doc, body);
    if !s.timestamps then merged
    else
      var kept := if "createdAt" in doc then merged["createdAt" := doc["createdAt"]] else merged;
      kept["updatedAt" := Date(now)]
  }

  /** An update that does not mention a field keeps it (timestamps aside). */
  lemma TouchKeeps(s: Schema, doc: Doc, body: Doc, now: int, f: string)
    requires f !in body && f != "updatedAt"
    ensures RefIn(Touch(s, doc, body, now), f) == RefIn(doc, f)
  {
  }

  /** An update that casts keeps a castable document castable. */
  lemma TouchCastable(s: Schema, doc: Doc, body: Doc, now: int)
    requires Castable(s, doc) && Castable(s, body)
    requires s.timestamps ==> "updatedAt" !in s.fields || s.fields["updatedAt"] == TDate
    ensures Castable(s, Touch(s, doc, body, now))
  {
    var r := Touch(s, doc, body, now);
    forall f | f in r && f in s.fields ensures HasType(r[f], s.fields[f]) {
      if s.timestamps && f == "updatedAt" {
      } else if s.timestamps && f == "createdAt" && "createdAt" in doc {
        assert r[f] == doc[f];
      } else if f in body {
        assert r[f] == body[f];
      } else {
        assert r[f] == doc[f];
      }
    }
  }

  /** A valid document holds an ObjectId under each required reference field. */
  lemma ValidRef(s: Schema, doc: Doc, f: string)
    requires Validates(s, doc) && f in s.required && f in s.fields && s.fields[f] == TRef
    ensures RefIn(doc, f).Some?
  {
    assert Present(doc, f);
  }

  /** A valid document holds one of the allowed strings under each required
      enumerated string field. */
  lemma ValidEnum(s: Schema, doc: Doc, f: string)
    requires Validates(s, doc) && f in s.required && f in s.enums && f in s.fields && s.fields[f] == TString
    ensures f in doc && doc[f].Str? && doc[f].s in s.enums[f]
  {
    assert Present(doc, f);
  }

  /** A valid goal has a type from its enumeration. */
  lemma ValidGoalType(doc: Doc)
    requires Validates(GoalSchema, doc)
    ensures "type" in doc && doc["type"].Str? && doc["type"].s in GoalTypes
  {
    ValidEnum(GoalSchema, doc, "type");
  }

  /** A built goal has a status from the enumeration when it validates,
      and 'in-progress' unless the fields gave one. */
  lemma {:induction false} BuiltGoalStatus(fields: Doc, now: int)
    ensures var d := Build(GoalSchema, fields, now);
            "status" !in fields ==> d["status"] == Str("in-progress")
    ensures var d := Build(GoalSchema, fields, now);
            Validates(GoalSchema, d) ==> "status" in d && d["status"].Str? && d["status"].s in GoalStatuses
  {
    var w := WithDefaults(GoalSchema, fields, now);
    var d := Build(GoalSchema, fields, now);
    assert "status" in w && d["status"] == w["status"];
    if Validates(GoalSchema, d) {
      assert GoalSchema.fields["status"] == TString;
      assert "status" in GoalSchema.enums && GoalSchema.enums["status"] == GoalStatuses;
      assert InEnum(d, "status", GoalStatuses);
    }
  }

  /** An activity, a nutrition entry or a progress entry built without a
      `date` is dated at its creation time. */
  lemma BuiltDateDefault(s: Schema, fields: Doc, now: int)
    requires s in {ActivitySchema, NutritionSchema, ProgressSchema} && "date" !in fields
    ensures Build(s, fields, now)["date"] == Date(now)
  {
    assert "date" in WithDefaults(s, fields, now);
  }

  /** The owner is the only required field of a progress entry. */
  lemma ProgressNeedsOnlyOwner(owner: nat, now: int)
    ensures Validates(ProgressSchema, Build(ProgressSchema, map["user" := Ref(owner)], now))
  {
    var d := Build(ProgressSchema, map["user" := Ref(owner)], now);
    assert d.Keys == {"user", "date", "createdAt", "updatedAt"};
  }

  /** Lacking any one required field makes a document invalid. */
  lemma MissingRequired(s: Schema, doc: Doc, f: string)
    requires f in s.required && f !in doc
    ensures !Validates(s, doc)
  {
  }
}

/**
 * The compound expressions: CompoundExpression (no fields), Triple, ScientificClaim
 * and its six nutrient relationship classes.
 *
 * Each relationship class declares exactly four optional fields: the nutrient,
 * the `relationship` label, the kind's object, and `references`. The relationship
 * kinds share one record shape; only the names of the subject and object fields
 * differ, and NutrientToNutrient is the one that renames its subject
 * (`nutrient_subject`/`nutrient_object` instead of `nutrient`/<object>).
 */
module Claims {
  import N = Names
  import opened Values

  // ---------------------------------------------------------------------------
  // CompoundExpression: declares no field, so only the empty mapping is accepted.
  // ---------------------------------------------------------------------------

  datatype CompoundExpression = CompoundExpression

  function NewCompoundExpression(m: map<N.Name, Value>): (r: Checked<CompoundExpression>)
    ensures WellReported(r)
    ensures r.Ok? <==> m == map[]
    ensures forall k :: Error([Key(k)], ExtraForbidden) in ErrorsOf(r) <==> k in m
  {
    var errs := UnknownKeys(m, {});
    if errs == {} then Ok(CompoundExpression) else Err(errs)
  }

  /** Every key is reported under itself, whatever else is given. */
  lemma CompoundExpressionErrorsLocal(m1: map<N.Name, Value>, m2: map<N.Name, Value>, e: Error)
    requires e in ErrorsOf(NewCompoundExpression(m2))
    ensures |e.loc| > 0 && e.loc[0].Key?
    ensures SameEntry(m1, m2, e.loc[0].name) ==> e in ErrorsOf(NewCompoundExpression(m1))
  {
    assert ErrorsOf(NewCompoundExpression(m2)) == UnknownKeys(m2, {});
    assert ErrorsOf(NewCompoundExpression(m1)) == UnknownKeys(m1, {});
    UnknownKeysLocal(m1, m2, {}, e);
  }

  function DumpCompoundExpression(c: CompoundExpression): map<N.Name, Value> {
    map[]
  }

  lemma CompoundExpressionRoundTrip(c: CompoundExpression)
    ensures NewCompoundExpression(DumpCompoundExpression(c)) == Ok(c)
  {
  }

  // ---------------------------------------------------------------------------
  // Triple: six optional strings.
  // ---------------------------------------------------------------------------

  // `predicate` and `object` are Dafny keywords: those fields are `pred` and `obj` here.
  datatype Triple = Triple(
    subject: Option<string>, pred: Option<string>, obj: Option<string>,
    qualifier: Option<string>, subjectQualifier: Option<string>, objectQualifier: Option<string>)

  const TripleFields: set<N.Name> :=
    {N.Subject, N.Predicate, N.Object, N.Qualifier, N.SubjectQualifier, N.ObjectQualifier}

  predicate TripleFieldsTyped(m: map<N.Name, Value>) {
    && StrOrUnset(m, N.Subject) && StrOrUnset(m, N.Predicate) && StrOrUnset(m, N.Object)
    && StrOrUnset(m, N.Qualifier) && StrOrUnset(m, N.SubjectQualifier) && StrOrUnset(m, N.ObjectQualifier)
  }

  function NewTriple(m: map<N.Name, Value>): (r: Checked<Triple>)
    ensures WellReported(r)
    ensures r.Ok? <==> m.Keys <= TripleFields && TripleFieldsTyped(m)
  {
    var s := OptStrField(m, N.Subject);
    var p := OptStrField(m, N.Predicate);
    var o := OptStrField(m, N.Object);
    var q := OptStrField(m, N.Qualifier);
    var sq := OptStrField(m, N.SubjectQualifier);
    var oq := OptStrField(m, N.ObjectQualifier);
    var errs := ErrorsOf(s) + ErrorsOf(p) + ErrorsOf(o) + ErrorsOf(q) + ErrorsOf(sq) + ErrorsOf(oq)
      + UnknownKeys(m, TripleFields);
    if errs == {} then Ok(Triple(s.value, p.value, o.value, q.value, sq.value, oq.value))
    else Err(errs)
  }

  function DumpTriple(t: Triple): (r: map<N.Name, Value>)
    ensures r.Keys == TripleFields
  {
    map[
      N.Subject := OptStrValue(t.subject), N.Predicate := OptStrValue(t.pred),
      N.Object := OptStrValue(t.obj), N.Qualifier := OptStrValue(t.qualifier),
      N.SubjectQualifier := OptStrValue(t.subjectQualifier),
      N.ObjectQualifier := OptStrValue(t.objectQualifier)]
  }

  /** A built Triple holds each field as given, None for those left out. */
  lemma TripleFieldsGiven(m: map<N.Name, Value>)
    requires NewTriple(m).Ok?
    ensures forall f :: f in TripleFields ==> DumpTriple(NewTriple(m).value)[f] == Given(m, f)
  {
    var d := DumpTriple(NewTriple(m).value);
    forall f | f in TripleFields ensures d[f] == Given(m, f) {
      if f == N.Subject {
      } else if f == N.Predicate {
      } else if f == N.Object {
      } else if f == N.Qualifier {
      } else if f == N.SubjectQualifier {
      } else {
        assert f == N.ObjectQualifier;
      }
    }
  }

  lemma TripleRoundTrip(t: Triple)
    ensures NewTriple(DumpTriple(t)) == Ok(t)
  {
    var m := DumpTriple(t);
    OptStrRoundTrip(m, N.Subject, t.subject);
    OptStrRoundTrip(m, N.Predicate, t.pred);
    OptStrRoundTrip(m, N.Object, t.obj);
    OptStrRoundTrip(m, N.Qualifier, t.qualifier);
    OptStrRoundTrip(m, N.SubjectQualifier, t.subjectQualifier);
    OptStrRoundTrip(m, N.ObjectQualifier, t.objectQualifier);
    assert UnknownKeys(m, TripleFields) == {};
  }

  /** The errors of `NewTriple`: a type error per wrongly typed field, plus one per undeclared key. */
  lemma TripleErrors(m: map<N.Name, Value>)
    ensures ErrorsOf(NewTriple(m))
         == ErrorsOf(OptStrField(m, N.Subject)) + ErrorsOf(OptStrField(m, N.Predicate))
          + ErrorsOf(OptStrField(m, N.Object)) + ErrorsOf(OptStrField(m, N.Qualifier))
          + ErrorsOf(OptStrField(m, N.SubjectQualifier)) + ErrorsOf(OptStrField(m, N.ObjectQualifier))
          + UnknownKeys(m, TripleFields)
  {
  }

  /** A Triple has no required field and no pattern: only undeclared keys and type errors. */
  lemma TripleErrorKinds(m: map<N.Name, Value>)
    ensures ShapeErrorsOnly(ErrorsOf(NewTriple(m)))
  {
    TripleErrors(m);
    forall e | e in ErrorsOf(NewTriple(m)) ensures e.kind == ExtraForbidden || e.kind == WrongType {
      if e in UnknownKeys(m, TripleFields) {
      } else if e in ErrorsOf(OptStrField(m, N.Subject)) {
      } else if e in ErrorsOf(OptStrField(m, N.Predicate)) {
      } else if e in ErrorsOf(OptStrField(m, N.Object)) {
      } else if e in ErrorsOf(OptStrField(m, N.Qualifier)) {
      } else if e in ErrorsOf(OptStrField(m, N.SubjectQualifier)) {
      } else {
        assert e in ErrorsOf(OptStrField(m, N.ObjectQualifier));
      }
    }
  }

  lemma TripleClosedWorld(m: map<N.Name, Value>, k: N.Name)
    ensures Error([Key(k)], ExtraForbidden) in ErrorsOf(NewTriple(m)) <==> k in m && k !in TripleFields
  {
    TripleErrors(m);
    var e := Error([Key(k)], ExtraForbidden);
    assert e !in ErrorsOf(OptStrField(m, N.Subject)) && e !in ErrorsOf(OptStrField(m, N.Predicate));
    assert e !in ErrorsOf(OptStrField(m, N.Object)) && e !in ErrorsOf(OptStrField(m, N.Qualifier));
    assert e !in ErrorsOf(OptStrField(m, N.SubjectQualifier)) && e !in ErrorsOf(OptStrField(m, N.ObjectQualifier));
  }

  /** The field errors of a Triple are local: the union that `TripleErrors` gives. */
  lemma TripleFieldErrorsLocal(m1: map<N.Name, Value>, m2: map<N.Name, Value>, e: Error)
    requires e in ErrorsOf(OptStrField(m2, N.Subject)) + ErrorsOf(OptStrField(m2, N.Predicate))
          + ErrorsOf(OptStrField(m2, N.Object)) + ErrorsOf(OptStrField(m2, N.Qualifier))
          + ErrorsOf(OptStrField(m2, N.SubjectQualifier)) + ErrorsOf(OptStrField(m2, N.ObjectQualifier))
          + UnknownKeys(m2, TripleFields)
    ensures |e.loc| > 0 && e.loc[0].Key?
    ensures SameEntry(m1, m2, e.loc[0].name) ==>
      e in ErrorsOf(OptStrField(m1, N.Subject)) + ErrorsOf(OptStrField(m1, N.Predicate))
         + ErrorsOf(OptStrField(m1, N.Object)) + ErrorsOf(OptStrField(m1, N.Qualifier))
         + ErrorsOf(OptStrField(m1, N.SubjectQualifier)) + ErrorsOf(OptStrField(m1, N.ObjectQualifier))
         + UnknownKeys(m1, TripleFields)
  {
    if e in ErrorsOf(OptStrField(m2, N.Subject)) {
      OptStrFieldLocal(m1, m2, N.Subject, e);
    } else if e in ErrorsOf(OptStrField(m2, N.Predicate)) {
      OptStrFieldLocal(m1, m2, N.Predicate, e);
    } else if e in ErrorsOf(OptStrField(m2, N.Object)) {
      OptStrFieldLocal(m1, m2, N.Object, e);
    } else if e in ErrorsOf(OptStrField(m2, N.Qualifier)) {
      OptStrFieldLocal(m1, m2, N.Qualifier, e);
    } else if e in ErrorsOf(OptStrField(m2, N.SubjectQualifier)) {
      OptStrFieldLocal(m1, m2, N.SubjectQualifier, e);
    } else if e in ErrorsOf(OptStrField(m2, N.ObjectQualifier)) {
      OptStrFieldLocal(m1, m2, N.ObjectQualifier, e);
    } else {
      UnknownKeysLocal(m1, m2, TripleFields, e);
    }
  }

  /** Every error is reported under a key, and what a Triple reports under a key depends only on
      what is given for that key. */
  lemma TripleErrorsLocal(m1: map<N.Name, Value>, m2: map<N.Name, Value>, e: Error)
    requires e in ErrorsOf(NewTriple(m2))
    ensures |e.loc| > 0 && e.loc[0].Key?
    ensures SameEntry(m1, m2, e.loc[0].name) ==> e in ErrorsOf(NewTriple(m1))
  {
    TripleErrors(m1);
    TripleErrors(m2);
    TripleFieldErrorsLocal(m1, m2, e);
  }

  // ---------------------------------------------------------------------------
  // ScientificClaim: `references: Optional[List[str]]`.
  // ---------------------------------------------------------------------------

  datatype ScientificClaim = ScientificClaim(references: Option<seq<string>>)

  const ClaimFields: set<N.Name> := {N.References}

  function NewScientificClaim(m: map<N.Name, Value>): (r: Checked<ScientificClaim>)
    ensures WellReported(r)
    ensures r.Ok? <==> m.Keys <= ClaimFields && StrListOrUnset(m, N.References)
    ensures r.Ok? ==> DumpScientificClaim(r.value)[N.References] == Given(m, N.References)
    ensures forall k :: Error([Key(k)], ExtraForbidden) in ErrorsOf(r) <==> k in m && k !in ClaimFields
  {
    var refs := OptStrListField(m, N.References);
    var errs := ErrorsOf(refs) + UnknownKeys(m, ClaimFields);
    if errs == {} then Ok(ScientificClaim(refs.value))
    else Err(errs)
  }

  function DumpScientificClaim(c: ScientificClaim): (r: map<N.Name, Value>)
    ensures r.Keys == ClaimFields
  {
    map[N.References := OptStrListValue(c.references)]
  }

  lemma ScientificClaimErrorKinds(m: map<N.Name, Value>)
    ensures ShapeErrorsOnly(ErrorsOf(NewScientificClaim(m)))
  {
  }

  /** Every error is reported under a key, and what a ScientificClaim reports under a key depends
      only on what is given for that key. */
  lemma ScientificClaimErrorsLocal(m1: map<N.Name, Value>, m2: map<N.Name, Value>, e: Error)
    requires e in ErrorsOf(NewScientificClaim(m2))
    ensures |e.loc| > 0 && e.loc[0].Key?
    ensures SameEntry(m1, m2, e.loc[0].name) ==> e in ErrorsOf(NewScientificClaim(m1))
  {
    assert ErrorsOf(NewScientificClaim(m2)) == ErrorsOf(OptStrListField(m2, N.References)) + UnknownKeys(m2, ClaimFields);
    assert ErrorsOf(NewScientificClaim(m1)) == ErrorsOf(OptStrListField(m1, N.References)) + UnknownKeys(m1, ClaimFields);
    if e in ErrorsOf(OptStrListField(m2, N.References)) {
      OptStrListFieldLocal(m1, m2, N.References, e);
    } else {
      UnknownKeysLocal(m1, m2, ClaimFields, e);
    }
  }

  lemma ScientificClaimRoundTrip(c: ScientificClaim)
    ensures NewScientificClaim(DumpScientificClaim(c)) == Ok(c)
  {
    StrListRoundTrip(DumpScientificClaim(c), N.References, c.references);
  }

  // ---------------------------------------------------------------------------
  // The six relationship classes.
  // ---------------------------------------------------------------------------

  datatype RelationKind =
    | ToDisease            // NutrientToDiseaseRelationship
    | ToPhenotype          // NutrientToPhenotypeRelationship
    | ToBiologicalProcess  // NutrientToBiologicalProcessRelationship
    | ToNutrient           // NutrientToNutrientRelationship
    | ToHealthStatus       // NutrientToHealthStatusRelationship
    | ToSource             // NutrientToSourceRelationship

  function SubjectField(k: RelationKind): N.Name {
    if k == ToNutrient then N.NutrientSubject else N.Nutrient
  }

  function ObjectField(k: RelationKind): N.Name {
    match k
    case ToDisease => N.Disease
    case ToPhenotype => N.Phenotype
    case ToBiologicalProcess => N.Process
    case ToNutrient => N.NutrientObject
    case ToHealthStatus => N.Anatomy
    case ToSource => N.Source
  }

  function RelationshipFields(k: RelationKind): set<N.Name> {
    {SubjectField(k), N.Relationship, ObjectField(k), N.References}
  }

  /** One relationship: subject and object as plain text, the relationship label, the references. */
  datatype Relationship = Relationship(
    kind: RelationKind,
    subject: Option<string>,
    relation: Option<string>,
    obj: Option<string>,
    references: Option<seq<string>>)

  predicate RelationshipFieldsTyped(k: RelationKind, m: map<N.Name, Value>) {
    && StrOrUnset(m, SubjectField(k))
    && StrOrUnset(m, N.Relationship)
    && StrOrUnset(m, ObjectField(k))
    && StrListOrUnset(m, N.References)
  }

  function NewRelationship(k: RelationKind, m: map<N.Name, Value>): (r: Checked<Relationship>)
    ensures WellReported(r)
    ensures r.Ok? <==> m.Keys <= RelationshipFields(k) && RelationshipFieldsTyped(k, m)
    ensures r.Ok? ==> r.value.kind == k
  {
    var s := OptStrField(m, SubjectField(k));
    var rel := OptStrField(m, N.Relationship);
    var o := OptStrField(m, ObjectField(k));
    var refs := OptStrListField(m, N.References);
    var errs := ErrorsOf(s) + ErrorsOf(rel) + ErrorsOf(o) + ErrorsOf(refs) + UnknownKeys(m, RelationshipFields(k));
    if errs == {} then Ok(Relationship(k, s.value, rel.value, o.value, refs.value))
    else Err(errs)
  }

  /** A built relationship holds each declared field as given: it dumps back to the input, with
      None for the fields left out. */
  lemma RelationshipFieldsGiven(k: RelationKind, m: map<N.Name, Value>)
    requires NewRelationship(k, m).Ok?
    ensures forall f :: f in RelationshipFields(k) ==> DumpRelationship(NewRelationship(k, m).value)[f] == Given(m, f)
  {
  }

  function DumpRelationship(r: Relationship): (d: map<N.Name, Value>)
    ensures d.Keys == RelationshipFields(r.kind)
  {
    map[
      SubjectField(r.kind) := OptStrValue(r.subject),
      N.Relationship := OptStrValue(r.relation),
      ObjectField(r.kind) := OptStrValue(r.obj),
      N.References := OptStrListValue(r.references)]
  }

  /** The errors of `NewRelationship`: those of each field, plus one per undeclared key. */
  lemma RelationshipErrors(k: RelationKind, m: map<N.Name, Value>)
    ensures ErrorsOf(NewRelationship(k, m))
         == ErrorsOf(OptStrField(m, SubjectField(k))) + ErrorsOf(OptStrField(m, N.Relationship))
          + ErrorsOf(OptStrField(m, ObjectField(k))) + ErrorsOf(OptStrListField(m, N.References))
          + UnknownKeys(m, RelationshipFields(k))
  {
  }

  /** Closed world: a key yields an "extra forbidden" error exactly when the kind does not declare it;
      no relationship field is required. */
  lemma RelationshipClosedWorld(k: RelationKind, m: map<N.Name, Value>, key: N.Name)
    ensures Error([Key(key)], ExtraForbidden) in ErrorsOf(NewRelationship(k, m)) <==> key in m && key !in RelationshipFields(k)
  {
    RelationshipErrors(k, m);
    var e := Error([Key(key)], ExtraForbidden);
    assert e !in ErrorsOf(OptStrField(m, SubjectField(k))) && e !in ErrorsOf(OptStrField(m, N.Relationship));
    assert e !in ErrorsOf(OptStrField(m, ObjectField(k))) && e !in ErrorsOf(OptStrListField(m, N.References));
  }

  /** Every error is reported under a key, and what a relationship reports under a key depends
      only on what is given for that key. */
  lemma RelationshipErrorsLocal(k: RelationKind, m1: map<N.Name, Value>, m2: map<N.Name, Value>, e: Error)
    requires e in ErrorsOf(NewRelationship(k, m2))
    ensures |e.loc| > 0 && e.loc[0].Key?
    ensures SameEntry(m1, m2, e.loc[0].name) ==> e in ErrorsOf(NewRelationship(k, m1))
  {
    RelationshipErrors(k, m1);
    RelationshipErrors(k, m2);
    if e in ErrorsOf(OptStrField(m2, SubjectField(k))) {
      OptStrFieldLocal(m1, m2, SubjectField(k), e);
    } else if e in ErrorsOf(OptStrField(m2, N.Relationship)) {
      OptStrFieldLocal(m1, m2, N.Relationship, e);
    } else if e in ErrorsOf(OptStrField(m2, ObjectField(k))) {
      OptStrFieldLocal(m1, m2, ObjectField(k), e);
    } else if e in ErrorsOf(OptStrListField(m2, N.References)) {
      OptStrListFieldLocal(m1, m2, N.References, e);
    } else {
      UnknownKeysLocal(m1, m2, RelationshipFields(k), e);
    }
  }

  /** No relationship field is required, and no relationship field is pattern-checked: the only
      errors are undeclared keys and wrongly typed values. */
  lemma RelationshipErrorKinds(k: RelationKind, m: map<N.Name, Value>)
    ensures forall e :: e in ErrorsOf(NewRelationship(k, m)) ==> e.kind == ExtraForbidden || e.kind == WrongType
  {
    RelationshipErrors(k, m);
  }

  lemma RelationshipRoundTrip(r: Relationship)
    ensures NewRelationship(r.kind, DumpRelationship(r)) == Ok(r)
  {
    var d := DumpRelationship(r);
    OptStrRoundTrip(d, SubjectField(r.kind), r.subject);
    OptStrRoundTrip(d, N.Relationship, r.relation);
    OptStrRoundTrip(d, ObjectField(r.kind), r.obj);
    StrListRoundTrip(d, N.References, r.references);
    assert UnknownKeys(d, RelationshipFields(r.kind)) == {};
  }

  /** Every relationship field is optional: the empty mapping builds a relationship of all None. */
  lemma RelationshipAllOptional(k: RelationKind)
    ensures NewRelationship(k, map[]) == Ok(Relationship(k, None, None, None, None))
  {
  }

  /** The field sets: four names each; NutrientToNutrient alone has no `nutrient` field. */
  lemma RelationshipShapes(k: RelationKind)
    ensures |RelationshipFields(k)| == 4
    ensures k != ToNutrient ==> RelationshipFields(k) == {N.Nutrient, N.Relationship, ObjectField(k), N.References}
    ensures RelationshipFields(ToNutrient) == {N.NutrientSubject, N.Relationship, N.NutrientObject, N.References}
    ensures N.Nutrient in RelationshipFields(k) <==> k != ToNutrient
  {
  }

  /** A NutrientToNutrient relationship given a `nutrient` key is refused, naming that key. */
  lemma NutrientKeyRefusedByNutrientToNutrient(v: Value)
    ensures NewRelationship(ToNutrient, map[N.Nutrient := v]).Err?
    ensures Error([Key(N.Nutrient)], ExtraForbidden) in ErrorsOf(NewRelationship(ToNutrient, map[N.Nutrient := v]))
  {
    RelationshipClosedWorld(ToNutrient, map[N.Nutrient := v], N.Nutrient);
  }

  /** The vitamin D / rickets draft: the four values are exposed unchanged. */
  lemma VitaminDRicketsDraft()
    ensures NewRelationship(ToDisease, map[
      N.Nutrient := Str("vitamin D"), N.Relationship := Str("DECREASES RISK OF"),
      N.Disease := Str("rickets"), N.References := List([Str("3")])])
      == Ok(Relationship(ToDisease, Some("vitamin D"), Some("DECREASES RISK OF"), Some("rickets"), Some(["3"])))
  {
    var m := map[
      N.Nutrient := Str("vitamin D"), N.Relationship := Str("DECREASES RISK OF"),
      N.Disease := Str("rickets"), N.References := List([Str("3")])];
    assert Strs(["3"]) == [Str("3")];
    StrListRoundTrip(m, N.References, Some(["3"]));
  }
}

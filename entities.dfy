/**
 * NamedEntity and seven of its subclasses (RelationshipType, Nutrient, Disease,
 * Phenotype, BiologicalProcess, Anatomy, FoodOrSupplement). All eight classes
 * declare the same three fields with the same types and the same validator, so
 * they share one record shape that carries its kind. Document, the eighth subclass,
 * adds the relationship lists and has its own module.
 *
 * `id` is declared `str = Field(...)` in every one of them: it is REQUIRED at
 * construction, not filled in later.
 */
module Entities {
  import N = Names
  import opened Values
  import opened SpanValidator

  datatype EntityKind =
    | NamedEntity
    | RelationshipType
    | Nutrient
    | Disease
    | Phenotype
    | BiologicalProcess
    | Anatomy
    | FoodOrSupplement

  datatype Entity = Entity(kind: EntityKind, id: string, name: Option<string>, originalSpans: Option<seq<string>>)

  // The `label` field is `name` here (`label` is a Dafny keyword; the schema lists `name` as its alias).
  const EntityFields: set<N.Name> := {N.Id, N.Label, N.OriginalSpans}

  /** The three fields hold values of their declared types. */
  predicate EntityFieldsTyped(m: map<N.Name, Value>) {
    && N.Id in m && m[N.Id].Str?
    && StrOrUnset(m, N.Label)
    && StrListOrUnset(m, N.OriginalSpans)
  }

  /** `original_spans: Optional[List[str]] = None`: the type check, then `pattern_original_spans`
      on the checked value (also on the default None, since defaults are validated). The validator
      never changes the outcome of the plain type check. */
  function SpansField(m: map<N.Name, Value>): (r: Checked<Option<seq<string>>>)
    ensures r == OptStrListField(m, N.OriginalSpans)
  {
    var typed := OptStrListField(m, N.OriginalSpans);
    if typed.Err? then typed
    else
      match PatternOriginalSpans(OptStrListValue(typed.value))
      case Ok(_) => typed
      case Err(k) => Err({Error([Key(N.OriginalSpans)], k)})
  }

  /** Building an entity of kind `kind` from a key/value mapping. */
  function NewEntity(kind: EntityKind, m: map<N.Name, Value>): (r: Checked<Entity>)
    ensures WellReported(r)
    ensures r.Ok? <==> m.Keys <= EntityFields && EntityFieldsTyped(m)
    ensures r.Ok? ==> r.value.kind == kind && forall f :: f in EntityFields ==> DumpEntity(r.value)[f] == Given(m, f)
  {
    var id := ReqStrField(m, N.Id);
    var name := OptStrField(m, N.Label);
    var spans := SpansField(m);
    var errs := ErrorsOf(id) + ErrorsOf(name) + ErrorsOf(spans) + UnknownKeys(m, EntityFields);
    if errs == {} then
      Ok(Entity(kind, id.value, name.value, spans.value))
    else Err(errs)
  }

  /** The errors of `NewEntity`: those of each field, plus one per undeclared key. */
  lemma EntityErrors(kind: EntityKind, m: map<N.Name, Value>)
    ensures ErrorsOf(NewEntity(kind, m))
         == ErrorsOf(ReqStrField(m, N.Id)) + ErrorsOf(OptStrField(m, N.Label)) + ErrorsOf(SpansField(m))
          + UnknownKeys(m, EntityFields)
  {
  }

  /** Exactly the errors an entity reports: `id` missing when absent, a type error at `id` when
      it is not a string, at `label` when it is neither unset nor a string, at `original_spans`
      when it is neither unset nor a list and at each of its items that is not a string, and
      one "extra forbidden" error per undeclared key. */
  lemma EntityErrorsExactly(kind: EntityKind, m: map<N.Name, Value>, e: Error)
    ensures e in ErrorsOf(NewEntity(kind, m)) <==>
      || (e == Error([Key(N.Id)], Missing) && N.Id !in m)
      || (e == Error([Key(N.Id)], WrongType) && N.Id in m && !m[N.Id].Str?)
      || (e == Error([Key(N.Label)], WrongType) && !StrOrUnset(m, N.Label))
      || (e == Error([Key(N.OriginalSpans)], WrongType) && !Unset(m, N.OriginalSpans) && !m[N.OriginalSpans].List?)
      || (&& !Unset(m, N.OriginalSpans) && m[N.OriginalSpans].List? && |e.loc| == 2
          && e == Error([Key(N.OriginalSpans), e.loc[1]], WrongType) && e.loc[1].Index?
          && e.loc[1].i < |m[N.OriginalSpans].items| && !m[N.OriginalSpans].items[e.loc[1].i].Str?)
      || (e.kind == ExtraForbidden && |e.loc| == 1 && e.loc[0].Key? && e.loc[0].name in m && e.loc[0].name !in EntityFields)
  {
    EntityErrors(kind, m);
    if e.kind == ExtraForbidden && |e.loc| == 1 && e.loc[0].Key? {
      assert e == Error([Key(e.loc[0].name)], ExtraForbidden);
    }
    var f := N.OriginalSpans;
    if !Unset(m, f) && m[f].List? && |e.loc| == 2 && e.loc[1].Index? && e.loc[0] == Key(f) && e.kind == WrongType {
      var i := e.loc[1].i;
      assert e == Error([Key(f), Index(i)], WrongType);
      if i < |m[f].items| && !m[f].items[i].Str? {
        assert !AllStr(m[f].items);
      }
    }
  }

  /** Every error is reported under a key, and what an entity reports under a key depends only
      on what is given for that key. */
  lemma EntityErrorsLocal(kind: EntityKind, m1: map<N.Name, Value>, m2: map<N.Name, Value>, e: Error)
    requires e in ErrorsOf(NewEntity(kind, m2))
    ensures |e.loc| > 0 && e.loc[0].Key?
    ensures SameEntry(m1, m2, e.loc[0].name) ==> e in ErrorsOf(NewEntity(kind, m1))
  {
    EntityErrors(kind, m1);
    EntityErrors(kind, m2);
    if e in ErrorsOf(ReqStrField(m2, N.Id)) {
      ReqStrFieldLocal(m1, m2, N.Id, e);
    } else if e in ErrorsOf(OptStrField(m2, N.Label)) {
      OptStrFieldLocal(m1, m2, N.Label, e);
    } else if e in ErrorsOf(SpansField(m2)) {
      OptStrListFieldLocal(m1, m2, N.OriginalSpans, e);
    } else {
      UnknownKeysLocal(m1, m2, EntityFields, e);
    }
  }

  /** Closed world: a key yields an "extra forbidden" error exactly when the class does not declare it. */
  lemma EntityClosedWorld(kind: EntityKind, m: map<N.Name, Value>, k: N.Name)
    ensures Error([Key(k)], ExtraForbidden) in ErrorsOf(NewEntity(kind, m)) <==> k in m && k !in EntityFields
  {
    EntityErrors(kind, m);
    var e := Error([Key(k)], ExtraForbidden);
    assert e !in ErrorsOf(ReqStrField(m, N.Id)) && e !in ErrorsOf(OptStrField(m, N.Label));
    assert e !in ErrorsOf(SpansField(m));
  }

  /** `id` is required: a "missing" error is reported exactly when `id` is absent, and for no other field. */
  lemma EntityIdRequired(kind: EntityKind, m: map<N.Name, Value>)
    ensures Error([Key(N.Id)], Missing) in ErrorsOf(NewEntity(kind, m)) <==> N.Id !in m
    ensures forall e :: e in ErrorsOf(NewEntity(kind, m)) && e.kind == Missing ==> e.loc == [Key(N.Id)]
  {
    EntityErrors(kind, m);
  }

  /** Construction never reports a malformed span: a list is never pattern-checked, and a bare
      string is refused by the type check before the validator runs. What is left is undeclared
      keys, type errors and the missing `id`. */
  lemma EntityNeverSpanError(kind: EntityKind, m: map<N.Name, Value>)
    ensures forall e :: e in ErrorsOf(NewEntity(kind, m)) ==> e.kind == ExtraForbidden || e.kind == WrongType || e.kind == Missing
  {
    EntityErrors(kind, m);
  }

  /** `model_dump()`: every declared field, None included. */
  function DumpEntity(e: Entity): (r: map<N.Name, Value>)
    ensures r.Keys == EntityFields
  {
    map[N.Id := Str(e.id), N.Label := OptStrValue(e.name), N.OriginalSpans := OptStrListValue(e.originalSpans)]
  }

  /** Dumping an entity and building it back gives the same entity. */
  lemma EntityRoundTrip(e: Entity)
    ensures NewEntity(e.kind, DumpEntity(e)) == Ok(e)
  {
    StrListRoundTrip(DumpEntity(e), N.OriginalSpans, e.originalSpans);
  }

  /** Every entity kind validates a mapping by the same rules: the same errors, and the same
      fields on success. */
  lemma SameRulesForEveryKind(k1: EntityKind, k2: EntityKind, m: map<N.Name, Value>)
    ensures ErrorsOf(NewEntity(k1, m)) == ErrorsOf(NewEntity(k2, m))
    ensures NewEntity(k1, m).Ok? ==> NewEntity(k2, m) == Ok(NewEntity(k1, m).value.(kind := k2))
  {
  }

  /** Only `id` is required: `label` and `original_spans` default to None. */
  lemma OnlyIdRequired(kind: EntityKind, id: string)
    ensures NewEntity(kind, map[N.Id := Str(id)]) == Ok(Entity(kind, id, None, None))
    ensures NewEntity(kind, map[]).Err?
    ensures NewEntity(kind, map[N.Label := Str(id)]).Err?
  {
    assert Error([Key(N.Id)], Missing) in ErrorsOf(NewEntity(kind, map[]));
    assert Error([Key(N.Id)], Missing) in ErrorsOf(NewEntity(kind, map[N.Label := Str(id)]));
  }

  /** Listed spans are stored as given, malformed or not. */
  lemma AnyListedSpansAccepted(kind: EntityKind, id: string, spans: seq<string>)
    ensures NewEntity(kind, map[N.Id := Str(id), N.OriginalSpans := List(Strs(spans))])
         == Ok(Entity(kind, id, None, Some(spans)))
  {
    var m := map[N.Id := Str(id), N.OriginalSpans := List(Strs(spans))];
    StrListRoundTrip(m, N.OriginalSpans, Some(spans));
  }

  /** A bare string is not a list: pydantic's type check rejects it before the pattern is tried,
      so even a well-formed "10:25" fails, and with a type error rather than a span error. */
  lemma BareStringSpansRejected(kind: EntityKind, id: string, s: string)
    ensures NewEntity(kind, map[N.Id := Str(id), N.OriginalSpans := Str(s)]) == Err({Error([Key(N.OriginalSpans)], WrongType)})
  {
    var m := map[N.Id := Str(id), N.OriginalSpans := Str(s)];
    EntityErrors(kind, m);
    assert UnknownKeys(m, EntityFields) == {};
    assert ErrorsOf(SpansField(m)) == {Error([Key(N.OriginalSpans)], WrongType)};
    assert ErrorsOf(ReqStrField(m, N.Id)) == {} && ErrorsOf(OptStrField(m, N.Label)) == {};
    assert !StrListOrUnset(m, N.OriginalSpans);
    var r := NewEntity(kind, m);
    assert r.Err? && r.error == ErrorsOf(r);
    assert r.error == {Error([Key(N.OriginalSpans)], WrongType)};
    assert r == Err({Error([Key(N.OriginalSpans)], WrongType)});
  }
}

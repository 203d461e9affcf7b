/**
 * What the shared base configuration makes every class of the schema do, stated once for any
 * class. A class is seen through the fields it declares, the ones it requires, its validator
 * (construction from a mapping) and `model_dump()`. With `validate_assignment=True`, assigning
 * an attribute validates the record again, with the new value in place of the old one, and the
 * record is replaced by the result or the assignment is refused.
 *
 * `Lawful` collects what each class is proved to satisfy in the class's own module (round trip,
 * closed world, the kinds of error it reports, locality of fields); the lemmas about `Assign`
 * follow from those alone, for every class at once.
 */
module Models {
  import N = Names
  import opened Values

  /** A class as the configuration sees it. `plain` lists the fields that do not hold nested
      records: those are dumped exactly as they were given. */
  datatype Schema<!T> = Schema(
    fields: set<N.Name>,
    required: set<N.Name>,
    plain: set<N.Name>,
    build: map<N.Name, Value> -> Checked<T>,
    dump: T -> map<N.Name, Value>)

  /** `x.f = v`. An undeclared attribute is refused; otherwise the whole record is validated
      again from its own dump with `v` in place of `f`. */
  function Assign<T>(s: Schema<T>, x: T, f: N.Name, v: Value): (r: Checked<T>)
    ensures f !in s.fields ==> r == Err({Error([Key(f)], NoSuchAttribute)})
  {
    if f !in s.fields then Err({Error([Key(f)], NoSuchAttribute)})
    else s.build(s.dump(x)[f := v])
  }

  // ---------------------------------------------------------------------------
  // What every class is proved to satisfy
  // ---------------------------------------------------------------------------

  /** The dump of a valid record holds exactly the declared fields, and building it back gives
      the record; every built record is valid. */
  ghost predicate RoundTrips<T(!new)>(s: Schema<T>, valid: T -> bool) {
    && (forall x :: valid(x) ==> s.dump(x).Keys == s.fields && s.build(s.dump(x)) == Ok(x))
    && (forall m :: s.build(m).Ok? ==> valid(s.build(m).value))
  }

  /** What a built record holds in a field depends only on the value given for that field. */
  ghost predicate FieldLocal<T>(s: Schema<T>) {
    forall m1, m2, f ::
      s.build(m1).Ok? && s.build(m2).Ok? && f in s.fields && Given(m1, f) == Given(m2, f) ==>
        Given(s.dump(s.build(m1).value), f) == Given(s.dump(s.build(m2).value), f)
  }

  /** A plain field is dumped as it was given, None when it was left out. */
  ghost predicate StoresPlain<T>(s: Schema<T>) {
    forall m, f :: s.build(m).Ok? && f in s.plain ==> Given(s.dump(s.build(m).value), f) == Given(m, f)
  }

  /** `extra="forbid"`: an undeclared key is reported exactly when it is given. */
  ghost predicate ClosedWorld<T>(s: Schema<T>) {
    forall m, k :: Error([Key(k)], ExtraForbidden) in ErrorsOf(s.build(m)) <==> k in m && k !in s.fields
  }

  /** Construction reports undeclared keys, wrongly typed values and missing required fields. */
  ghost predicate ReportsShapes<T>(s: Schema<T>) {
    forall m, e :: e in ErrorsOf(s.build(m)) ==>
      || e.kind == ExtraForbidden || e.kind == WrongType
      || (e.kind == Missing && exists r :: r in s.required && e.loc == [Key(r)])
  }

  /** A required field is reported missing exactly when it is absent. */
  ghost predicate ReportsMissing<T>(s: Schema<T>) {
    forall m, r :: r in s.required ==> (Error([Key(r)], Missing) in ErrorsOf(s.build(m)) <==> r !in m)
  }

  /** Every error is reported under a key, and what is reported under a key depends only on what
      is given for that key. */
  ghost predicate ErrorsLocal<T>(s: Schema<T>) {
    forall m1, m2, e :: e in ErrorsOf(s.build(m2)) ==>
      && |e.loc| > 0 && e.loc[0].Key?
      && (SameEntry(m1, m2, e.loc[0].name) ==> e in ErrorsOf(s.build(m1)))
  }

  ghost predicate Lawful<T(!new)>(s: Schema<T>, valid: T -> bool) {
    && s.required <= s.fields && s.plain <= s.fields
    && RoundTrips(s, valid) && FieldLocal(s) && StoresPlain(s)
    && ClosedWorld(s) && ReportsShapes(s) && ReportsMissing(s) && ErrorsLocal(s)
  }

  // ---------------------------------------------------------------------------
  // Assignment, for every lawful class
  // ---------------------------------------------------------------------------

  /** A successful assignment yields a valid record of the class. */
  lemma AssignValid<T(!new)>(s: Schema<T>, valid: T -> bool, x: T, f: N.Name, v: Value)
    requires Lawful(s, valid) && Assign(s, x, f, v).Ok?
    ensures valid(Assign(s, x, f, v).value)
  {
  }

  /** A successful assignment changes no other field. */
  lemma AssignKeepsOtherFields<T(!new)>(s: Schema<T>, valid: T -> bool, x: T, f: N.Name, v: Value)
    requires Lawful(s, valid) && valid(x) && Assign(s, x, f, v).Ok?
    ensures forall g :: g in s.fields && g != f ==> s.dump(Assign(s, x, f, v).value)[g] == s.dump(x)[g]
  {
    var m := s.dump(x);
    var m' := m[f := v];
    assert s.build(m) == Ok(x);
    forall g | g in s.fields && g != f
      ensures s.dump(Assign(s, x, f, v).value)[g] == s.dump(x)[g]
    {
      assert Given(m, g) == Given(m', g);
    }
  }

  /** A successful assignment to a plain field stores the value as given. */
  lemma AssignStoresValue<T(!new)>(s: Schema<T>, valid: T -> bool, x: T, f: N.Name, v: Value)
    requires Lawful(s, valid) && f in s.plain && Assign(s, x, f, v).Ok?
    ensures s.dump(Assign(s, x, f, v).value)[f] == v
  {
    assert Given(s.dump(x)[f := v], f) == v;
  }

  /** Writing back the value a field already holds leaves the record as it is. */
  lemma AssignSameValue<T(!new)>(s: Schema<T>, valid: T -> bool, x: T, f: N.Name)
    requires Lawful(s, valid) && valid(x) && f in s.fields
    ensures Assign(s, x, f, s.dump(x)[f]) == Ok(x)
  {
    assert s.dump(x)[f := s.dump(x)[f]] == s.dump(x);
  }

  /** A refused assignment reports only what is wrong with the new value: every error is located
      under the assigned field, and is a type error or an undeclared key inside a nested record
      given as the new value. It never reports a missing field or one of the record's own keys. */
  lemma AssignErrorKinds<T(!new)>(s: Schema<T>, valid: T -> bool, x: T, f: N.Name, v: Value)
    requires Lawful(s, valid) && valid(x) && f in s.fields
    ensures forall e :: e in ErrorsOf(Assign(s, x, f, v)) ==> |e.loc| > 0 && e.loc[0] == Key(f)
    ensures ShapeErrorsOnly(ErrorsOf(Assign(s, x, f, v)))
    ensures forall k :: Error([Key(k)], ExtraForbidden) !in ErrorsOf(Assign(s, x, f, v))
  {
    var m := s.dump(x);
    var m' := m[f := v];
    // Every declared field is in the mapping validated, the required ones included.
    assert m'.Keys == s.fields;
    assert ErrorsOf(s.build(m)) == {};
    forall e | e in ErrorsOf(s.build(m')) ensures |e.loc| > 0 && e.loc[0] == Key(f) {
      // Under any other key the assigned mapping gives what the record's own dump gives, and
      // the dump of a valid record validates without error.
      assert e.loc[0].name != f ==> SameEntry(m, m', e.loc[0].name);
    }
  }
}

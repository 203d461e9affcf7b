/**
 * The untyped input every record is built from, the validation errors, and the
 * per-field checks that every record class shares.
 *
 * pydantic validates a model from a key/value mapping field by field and collects
 * every failure (plus one per key the class does not declare, since the base
 * configuration forbids extra keys) into one ValidationError. Here that error is a
 * SET of located errors; the location is the path pydantic reports
 * (`("nutrient_to_disease_relationships", 0, "disease")`).
 */
module Values {
  import N = Names

  datatype Option<T> = None | Some(value: T)

  datatype Result<T, E> = Ok(value: T) | Err(error: E)

  /** A JSON-like value as handed to a model's constructor. `Num` stands for any
      non-string scalar. */
  datatype Value =
    | Null
    | Str(s: string)
    | Num(n: int)
    | List(items: seq<Value>)
    | Object(entries: map<N.Name, Value>)

  /** One step of an error location: a field name or a list index. */
  datatype Loc = Key(name: N.Name) | Index(i: nat)

  datatype ErrorKind =
    | ExtraForbidden          // a key the class does not declare
    | Missing                 // a required field left out
    | WrongType               // the value has the wrong shape for the field's type
    | MalformedSpan(span: string) // "Invalid original_spans format: <span>"
    | NoSuchAttribute         // assignment to a name the class does not declare

  datatype Error = Error(loc: seq<Loc>, kind: ErrorKind)

  type Errors = set<Error>

  /** The outcome of validating one field or one record. */
  type Checked<T> = Result<T, Errors>

  /** A failed check always carries at least one error. */
  ghost predicate WellReported<T>(r: Checked<T>) {
    r.Err? ==> r.error != {}
  }

  function ErrorsOf<T>(r: Checked<T>): Errors {
    if r.Err? then r.error else {}
  }

  /** Every error is an undeclared key or a wrongly typed value: nothing is missing and no
      pattern failed. */
  ghost predicate ShapeErrorsOnly(errs: Errors) {
    forall e :: e in errs ==> e.kind == ExtraForbidden || e.kind == WrongType
  }

  /** Every error located under `at`. */
  ghost predicate AllUnder(errs: Errors, at: Loc) {
    forall e :: e in errs ==> |e.loc| > 0 && e.loc[0] == at
  }

  /** Errors of a nested value, relocated under field or index `at`. */
  function Nest(errs: Errors, at: Loc): (r: Errors)
    ensures AllUnder(r, at)
    ensures errs != {} ==> r != {}
    ensures forall e :: e in errs ==> Error([at] + e.loc, e.kind) in r
    ensures forall e :: e in r ==> Error(e.loc[1..], e.kind) in errs
  {
    var r := set e | e in errs :: Error([at] + e.loc, e.kind);
    assert forall e :: e in r ==> Error(e.loc[1..], e.kind) in errs by {
      forall e | e in r ensures Error(e.loc[1..], e.kind) in errs {
        var e0 :| e0 in errs && e == Error([at] + e0.loc, e0.kind);
        assert e.loc[1..] == e0.loc;
      }
    }
    assert errs != {} ==> r != {} by {
      if errs != {} {
        var e0 :| e0 in errs;
        assert Error([at] + e0.loc, e0.kind) in r;
      }
    }
    r
  }

  // ---------------------------------------------------------------------------
  // Field types. Each check is what pydantic does for the declared annotation.
  // An absent key and an explicit null both mean None for `Optional[...]` fields.
  // ---------------------------------------------------------------------------

  predicate Unset(m: map<N.Name, Value>, f: N.Name) {
    f !in m || m[f].Null?
  }

  /** Whether a field is unset, and its value when set, depend only on what is given for it. */
  lemma GivenDecides(m1: map<N.Name, Value>, m2: map<N.Name, Value>, f: N.Name)
    requires Given(m1, f) == Given(m2, f)
    ensures Unset(m1, f) == Unset(m2, f)
    ensures !Unset(m1, f) ==> m1[f] == m2[f]
  {
  }

  /** `Optional[str] = None` */
  function OptStrField(m: map<N.Name, Value>, f: N.Name): (r: Checked<Option<string>>)
    ensures r.Ok? <==> Unset(m, f) || m[f].Str?
    ensures r.Ok? && Unset(m, f) ==> r.value == None
    ensures r.Ok? && !Unset(m, f) ==> r.value == Some(m[f].s)
    ensures r.Ok? ==> OptStrValue(r.value) == Given(m, f)
    ensures r.Err? ==> r.error == {Error([Key(f)], WrongType)}
  {
    if Unset(m, f) then Ok(None)
    else if m[f].Str? then Ok(Some(m[f].s))
    else Err({Error([Key(f)], WrongType)})
  }

  /** `str = Field(...)`: required, no default, and None is not a string. */
  function ReqStrField(m: map<N.Name, Value>, f: N.Name): (r: Checked<string>)
    ensures r.Ok? <==> f in m && m[f].Str?
    ensures r.Ok? ==> r.value == m[f].s
    ensures f !in m ==> r == Err({Error([Key(f)], Missing)})
    ensures f in m && !m[f].Str? ==> r == Err({Error([Key(f)], WrongType)})
  {
    if f !in m then Err({Error([Key(f)], Missing)})
    else if m[f].Str? then Ok(m[f].s)
    else Err({Error([Key(f)], WrongType)})
  }

  /** Every item of the list is a string. */
  predicate AllStr(items: seq<Value>) {
    forall i :: 0 <= i < |items| ==> items[i].Str?
  }

  /** The strings of a list whose items are all strings. */
  function Texts(items: seq<Value>): (r: seq<string>)
    requires AllStr(items)
    ensures |r| == |items| && forall i :: 0 <= i < |items| ==> r[i] == items[i].s
  {
    if items == [] then [] else [items[0].s] + Texts(items[1..])
  }

  /** `Optional[List[str]] = None`: a type error at the field when the value is not a list,
      and one at every index whose item is not a string. */
  function OptStrListField(m: map<N.Name, Value>, f: N.Name): (r: Checked<Option<seq<string>>>)
    ensures WellReported(r)
    ensures r.Ok? <==> StrListOrUnset(m, f)
    ensures r.Ok? ==> OptStrListValue(r.value) == Given(m, f)
    ensures forall e :: e in ErrorsOf(r) ==> e.kind == WrongType && |e.loc| > 0 && e.loc[0] == Key(f)
  {
    if Unset(m, f) then Ok(None)
    else if !m[f].List? then Err({Error([Key(f)], WrongType)})
    else if AllStr(m[f].items) then
      var xs := Texts(m[f].items);
      assert Strs(xs) == m[f].items;
      Ok(Some(xs))
    else
      var items := m[f].items;
      var errs := set i | 0 <= i < |items| && !items[i].Str? :: Error([Key(f), Index(i)], WrongType);
      assert errs != {} by {
        var i :| 0 <= i < |items| && !items[i].Str?;
        assert Error([Key(f), Index(i)], WrongType) in errs;
      }
      Err(errs)
  }

  /** The value given for `f`, None when the key is absent: what an `Optional[Any] = None`
      field holds, and what every field of a successfully built record dumps back to. */
  function Given(m: map<N.Name, Value>, f: N.Name): (r: Value)
    ensures f in m ==> r == m[f]
    ensures f !in m ==> r == Null
  {
    if f in m then m[f] else Null
  }

  /** The field holds a string or is unset. */
  predicate StrOrUnset(m: map<N.Name, Value>, f: N.Name) {
    Unset(m, f) || m[f].Str?
  }

  /** The field holds a list of strings or is unset. */
  predicate StrListOrUnset(m: map<N.Name, Value>, f: N.Name) {
    Unset(m, f) || (m[f].List? && AllStr(m[f].items))
  }

  /** One `ExtraForbidden` error per key outside `declared` (pydantic's `extra="forbid"`). */
  function UnknownKeys(m: map<N.Name, Value>, declared: set<N.Name>): (r: Errors)
    ensures forall k :: Error([Key(k)], ExtraForbidden) in r <==> k in m && k !in declared
    ensures forall e :: e in r ==> e.kind == ExtraForbidden && |e.loc| == 1 && e.loc[0].Key?
    ensures r == {} <==> m.Keys <= declared
  {
    var r := set k | k in m.Keys && k !in declared :: Error([Key(k)], ExtraForbidden);
    assert forall k :: k in m && k !in declared ==> Error([Key(k)], ExtraForbidden) in r;
    r
  }

  // ---------------------------------------------------------------------------
  // Where errors are reported: each field check reports under its own key, from what is given
  // for that key alone.
  // ---------------------------------------------------------------------------

  /** `m1` and `m2` give the same for `k`: both leave it out, or both give the same value. */
  predicate SameEntry(m1: map<N.Name, Value>, m2: map<N.Name, Value>, k: N.Name) {
    (k in m1 <==> k in m2) && (k in m1 ==> m1[k] == m2[k])
  }

  lemma OptStrFieldLocal(m1: map<N.Name, Value>, m2: map<N.Name, Value>, f: N.Name, e: Error)
    requires e in ErrorsOf(OptStrField(m2, f))
    ensures e.loc == [Key(f)]
    ensures SameEntry(m1, m2, f) ==> e in ErrorsOf(OptStrField(m1, f))
  {
  }

  lemma ReqStrFieldLocal(m1: map<N.Name, Value>, m2: map<N.Name, Value>, f: N.Name, e: Error)
    requires e in ErrorsOf(ReqStrField(m2, f))
    ensures e.loc == [Key(f)]
    ensures SameEntry(m1, m2, f) ==> e in ErrorsOf(ReqStrField(m1, f))
  {
  }

  lemma OptStrListFieldLocal(m1: map<N.Name, Value>, m2: map<N.Name, Value>, f: N.Name, e: Error)
    requires e in ErrorsOf(OptStrListField(m2, f))
    ensures |e.loc| > 0 && e.loc[0] == Key(f)
    ensures SameEntry(m1, m2, f) ==> e in ErrorsOf(OptStrListField(m1, f))
  {
    if SameEntry(m1, m2, f) {
      assert Given(m1, f) == Given(m2, f);
      assert OptStrListField(m1, f) == OptStrListField(m2, f);
    }
  }

  /** An undeclared key is reported under itself, whenever it is given. */
  lemma UnknownKeysLocal(m1: map<N.Name, Value>, m2: map<N.Name, Value>, declared: set<N.Name>, e: Error)
    requires e in UnknownKeys(m2, declared)
    ensures |e.loc| > 0 && e.loc[0].Key?
    ensures SameEntry(m1, m2, e.loc[0].name) ==> e in UnknownKeys(m1, declared)
  {
    assert e == Error([Key(e.loc[0].name)], ExtraForbidden);
  }

  // ---------------------------------------------------------------------------
  // Encoding typed field values back into the untyped form (`model_dump`).
  // ---------------------------------------------------------------------------

  function OptStrValue(o: Option<string>): Value {
    match o
    case None => Null
    case Some(s) => Str(s)
  }

  /** The list items of a list of strings. */
  function Strs(xs: seq<string>): (r: seq<Value>)
    ensures |r| == |xs| && forall i :: 0 <= i < |xs| ==> r[i] == Str(xs[i])
  {
    if xs == [] then [] else [Str(xs[0])] + Strs(xs[1..])
  }

  function OptStrListValue(o: Option<seq<string>>): Value {
    match o
    case None => Null
    case Some(xs) => List(Strs(xs))
  }

  lemma OptStrRoundTrip(m: map<N.Name, Value>, f: N.Name, o: Option<string>)
    requires f in m && m[f] == OptStrValue(o)
    ensures OptStrField(m, f) == Ok(o)
  {
  }

  lemma StrListRoundTrip(m: map<N.Name, Value>, f: N.Name, o: Option<seq<string>>)
    requires f in m && m[f] == OptStrListValue(o)
    ensures OptStrListField(m, f) == Ok(o)
  {
    if o.Some? {
      assert Texts(Strs(o.value)) == o.value;
    }
  }
}

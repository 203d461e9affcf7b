/**
 * The records that carry extraction input and output: Publication, AnnotatorResult,
 * TextWithTriples, TextWithEntity and ExtractionResult. None of them has a required
 * field. TextWithTriples and TextWithEntity nest a Publication, given as a mapping
 * and built by Publication's own rules, its errors reported under `publication`.
 */
module Envelopes {
  import N = Names
  import opened Values
  import opened Claims

  // ---------------------------------------------------------------------------
  // Publication: five optional strings. Its `id` is optional, unlike NamedEntity's.
  // ---------------------------------------------------------------------------

  datatype Publication = Publication(
    id: Option<string>, title: Option<string>, summary: Option<string>,   // the `abstract` field (a Dafny keyword)
    combinedText: Option<string>, fullText: Option<string>)

  const PublicationFields: set<N.Name> := {N.Id, N.Title, N.Abstract, N.CombinedText, N.FullText}

  predicate PublicationFieldsTyped(m: map<N.Name, Value>) {
    && StrOrUnset(m, N.Id) && StrOrUnset(m, N.Title) && StrOrUnset(m, N.Abstract)
    && StrOrUnset(m, N.CombinedText) && StrOrUnset(m, N.FullText)
  }

  function NewPublication(m: map<N.Name, Value>): (r: Checked<Publication>)
    ensures WellReported(r)
    ensures r.Ok? <==> m.Keys <= PublicationFields && PublicationFieldsTyped(m)
  {
    var id := OptStrField(m, N.Id);
    var title := OptStrField(m, N.Title);
    var abs := OptStrField(m, N.Abstract);
    var combined := OptStrField(m, N.CombinedText);
    var full := OptStrField(m, N.FullText);
    var errs := ErrorsOf(id) + ErrorsOf(title) + ErrorsOf(abs) + ErrorsOf(combined) + ErrorsOf(full)
      + UnknownKeys(m, PublicationFields);
    if errs == {} then Ok(Publication(id.value, title.value, abs.value, combined.value, full.value))
    else Err(errs)
  }

  function DumpPublication(p: Publication): (r: map<N.Name, Value>)
    ensures r.Keys == PublicationFields
  {
    map[
      N.Id := OptStrValue(p.id), N.Title := OptStrValue(p.title), N.Abstract := OptStrValue(p.summary),
      N.CombinedText := OptStrValue(p.combinedText), N.FullText := OptStrValue(p.fullText)]
  }

  /** The errors of `NewPublication`, field by field. */
  lemma PublicationErrors(m: map<N.Name, Value>)
    ensures ErrorsOf(NewPublication(m))
         == ErrorsOf(OptStrField(m, N.Id)) + ErrorsOf(OptStrField(m, N.Title)) + ErrorsOf(OptStrField(m, N.Abstract))
          + ErrorsOf(OptStrField(m, N.CombinedText)) + ErrorsOf(OptStrField(m, N.FullText))
          + UnknownKeys(m, PublicationFields)
  {
  }

  /** A built Publication holds each field as given, None for those left out. */
  lemma PublicationFieldsGiven(m: map<N.Name, Value>)
    requires NewPublication(m).Ok?
    ensures forall f :: f in PublicationFields ==> DumpPublication(NewPublication(m).value)[f] == Given(m, f)
  {
  }

  lemma PublicationRoundTrip(p: Publication)
    ensures NewPublication(DumpPublication(p)) == Ok(p)
  {
    var m := DumpPublication(p);
    OptStrRoundTrip(m, N.Id, p.id);
    OptStrRoundTrip(m, N.Title, p.title);
    OptStrRoundTrip(m, N.Abstract, p.summary);
    OptStrRoundTrip(m, N.CombinedText, p.combinedText);
    OptStrRoundTrip(m, N.FullText, p.fullText);
    assert UnknownKeys(m, PublicationFields) == {};
  }

  lemma PublicationClosedWorld(m: map<N.Name, Value>, k: N.Name)
    ensures Error([Key(k)], ExtraForbidden) in ErrorsOf(NewPublication(m)) <==> k in m && k !in PublicationFields
  {
  }

  /** No field of Publication is required, `id` included, and nothing is ever missing. */
  lemma PublicationAllOptional(m: map<N.Name, Value>)
    ensures NewPublication(map[]) == Ok(Publication(None, None, None, None, None))
    ensures forall e :: e in ErrorsOf(NewPublication(m)) ==> e.kind == ExtraForbidden || e.kind == WrongType
  {
  }

  /** Every error of a Publication names one top-level key. */
  lemma PublicationErrorsAtTop(m: map<N.Name, Value>)
    ensures forall e :: e in ErrorsOf(NewPublication(m)) ==> |e.loc| == 1 && e.loc[0].Key?
  {
  }

  /** Every error is reported under a key, and what a Publication reports under a key depends
      only on what is given for that key. */
  lemma PublicationErrorsLocal(m1: map<N.Name, Value>, m2: map<N.Name, Value>, e: Error)
    requires e in ErrorsOf(NewPublication(m2))
    ensures |e.loc| > 0 && e.loc[0].Key?
    ensures SameEntry(m1, m2, e.loc[0].name) ==> e in ErrorsOf(NewPublication(m1))
  {
    PublicationErrors(m1);
    PublicationErrors(m2);
    if e in ErrorsOf(OptStrField(m2, N.Id)) {
      OptStrFieldLocal(m1, m2, N.Id, e);
    } else if e in ErrorsOf(OptStrField(m2, N.Title)) {
      OptStrFieldLocal(m1, m2, N.Title, e);
    } else if e in ErrorsOf(OptStrField(m2, N.Abstract)) {
      OptStrFieldLocal(m1, m2, N.Abstract, e);
    } else if e in ErrorsOf(OptStrField(m2, N.CombinedText)) {
      OptStrFieldLocal(m1, m2, N.CombinedText, e);
    } else if e in ErrorsOf(OptStrField(m2, N.FullText)) {
      OptStrFieldLocal(m1, m2, N.FullText, e);
    } else {
      UnknownKeysLocal(m1, m2, PublicationFields, e);
    }
  }

  // ---------------------------------------------------------------------------
  // AnnotatorResult: three optional strings.
  // ---------------------------------------------------------------------------

  datatype AnnotatorResult = AnnotatorResult(subjectText: Option<string>, objectId: Option<string>, objectText: Option<string>)

  const AnnotatorFields: set<N.Name> := {N.SubjectText, N.ObjectId, N.ObjectText}

  function NewAnnotatorResult(m: map<N.Name, Value>): (r: Checked<AnnotatorResult>)
    ensures WellReported(r)
    ensures r.Ok? <==> m.Keys <= AnnotatorFields && StrOrUnset(m, N.SubjectText) && StrOrUnset(m, N.ObjectId) && StrOrUnset(m, N.ObjectText)
  {
    var s := OptStrField(m, N.SubjectText);
    var oid := OptStrField(m, N.ObjectId);
    var ot := OptStrField(m, N.ObjectText);
    var errs := ErrorsOf(s) + ErrorsOf(oid) + ErrorsOf(ot) + UnknownKeys(m, AnnotatorFields);
    if errs == {} then Ok(AnnotatorResult(s.value, oid.value, ot.value)) else Err(errs)
  }

  function DumpAnnotatorResult(a: AnnotatorResult): (r: map<N.Name, Value>)
    ensures r.Keys == AnnotatorFields
  {
    map[N.SubjectText := OptStrValue(a.subjectText), N.ObjectId := OptStrValue(a.objectId), N.ObjectText := OptStrValue(a.objectText)]
  }

  /** A built AnnotatorResult holds each field as given, None for those left out. */
  lemma AnnotatorFieldsGiven(m: map<N.Name, Value>)
    requires NewAnnotatorResult(m).Ok?
    ensures forall f :: f in AnnotatorFields ==> DumpAnnotatorResult(NewAnnotatorResult(m).value)[f] == Given(m, f)
  {
  }

  lemma AnnotatorErrorKinds(m: map<N.Name, Value>)
    ensures ShapeErrorsOnly(ErrorsOf(NewAnnotatorResult(m)))
  {
  }

  lemma AnnotatorRoundTrip(a: AnnotatorResult)
    ensures NewAnnotatorResult(DumpAnnotatorResult(a)) == Ok(a)
  {
  }

  /** Closed world, and no field required: the empty mapping builds an all-None result. */
  lemma AnnotatorClosedWorld(m: map<N.Name, Value>, k: N.Name)
    ensures Error([Key(k)], ExtraForbidden) in ErrorsOf(NewAnnotatorResult(m)) <==> k in m && k !in AnnotatorFields
    ensures NewAnnotatorResult(map[]) == Ok(AnnotatorResult(None, None, None))
  {
  }

  /** Every error is reported under a key, and what an AnnotatorResult reports under a key
      depends only on what is given for that key. */
  lemma AnnotatorErrorsLocal(m1: map<N.Name, Value>, m2: map<N.Name, Value>, e: Error)
    requires e in ErrorsOf(NewAnnotatorResult(m2))
    ensures |e.loc| > 0 && e.loc[0].Key?
    ensures SameEntry(m1, m2, e.loc[0].name) ==> e in ErrorsOf(NewAnnotatorResult(m1))
  {
    assert ErrorsOf(NewAnnotatorResult(m2)) == ErrorsOf(OptStrField(m2, N.SubjectText)) + ErrorsOf(OptStrField(m2, N.ObjectId))
      + ErrorsOf(OptStrField(m2, N.ObjectText)) + UnknownKeys(m2, AnnotatorFields);
    assert ErrorsOf(NewAnnotatorResult(m1)) == ErrorsOf(OptStrField(m1, N.SubjectText)) + ErrorsOf(OptStrField(m1, N.ObjectId))
      + ErrorsOf(OptStrField(m1, N.ObjectText)) + UnknownKeys(m1, AnnotatorFields);
    if e in ErrorsOf(OptStrField(m2, N.SubjectText)) {
      OptStrFieldLocal(m1, m2, N.SubjectText, e);
    } else if e in ErrorsOf(OptStrField(m2, N.ObjectId)) {
      OptStrFieldLocal(m1, m2, N.ObjectId, e);
    } else if e in ErrorsOf(OptStrField(m2, N.ObjectText)) {
      OptStrFieldLocal(m1, m2, N.ObjectText, e);
    } else {
      UnknownKeysLocal(m1, m2, AnnotatorFields, e);
    }
  }

  // ---------------------------------------------------------------------------
  // `publication: Optional[Publication] = None`, shared by TextWithTriples and TextWithEntity.
  // ---------------------------------------------------------------------------

  /** A nested Publication: a mapping built by Publication's rules, its errors under `publication`. */
  function PublicationField(m: map<N.Name, Value>): (r: Checked<Option<Publication>>)
    ensures WellReported(r)
    ensures r.Ok? <==> Unset(m, N.Publication) || (m[N.Publication].Object? && NewPublication(m[N.Publication].entries).Ok?)
    ensures AllUnder(ErrorsOf(r), Key(N.Publication))
  {
    if Unset(m, N.Publication) then Ok(None)
    else if !m[N.Publication].Object? then Err({Error([Key(N.Publication)], WrongType)})
    else
      match NewPublication(m[N.Publication].entries)
      case Ok(p) => Ok(Some(p))
      case Err(errs) => Err(Nest(errs, Key(N.Publication)))
  }

  function OptPublicationValue(o: Option<Publication>): Value {
    match o
    case None => Null
    case Some(p) => Object(DumpPublication(p))
  }

  /** An error inside the nested Publication is reported with `publication` in front of its path. */
  lemma NestedPublicationErrorLocated(m: map<N.Name, Value>, e: Error)
    requires N.Publication in m && m[N.Publication].Object?
    requires e in ErrorsOf(NewPublication(m[N.Publication].entries))
    ensures Error([Key(N.Publication)] + e.loc, e.kind) in ErrorsOf(PublicationField(m))
  {
  }

  /** The only error the `publication` field reports at its own level is a type error. */
  lemma PublicationFieldErrors(m: map<N.Name, Value>)
    ensures forall e :: e in ErrorsOf(PublicationField(m)) ==> |e.loc| > 0 && e.loc[0] == Key(N.Publication) && (|e.loc| == 1 ==> e.kind == WrongType)
    ensures ShapeErrorsOnly(ErrorsOf(PublicationField(m)))
  {
    if !Unset(m, N.Publication) && m[N.Publication].Object? {
      PublicationErrorsAtTop(m[N.Publication].entries);
      PublicationAllOptional(m[N.Publication].entries);
    }
  }

  /** The `publication` field's outcome depends only on the value given for it. */
  lemma PublicationFieldLocal(m1: map<N.Name, Value>, m2: map<N.Name, Value>)
    requires Given(m1, N.Publication) == Given(m2, N.Publication)
    ensures PublicationField(m1) == PublicationField(m2)
  {
    GivenDecides(m1, m2, N.Publication);
  }

  lemma PublicationFieldRoundTrip(m: map<N.Name, Value>, o: Option<Publication>)
    requires N.Publication in m && m[N.Publication] == OptPublicationValue(o)
    ensures PublicationField(m) == Ok(o)
  {
    if o.Some? {
      PublicationRoundTrip(o.value);
    }
  }

  // ---------------------------------------------------------------------------
  // TextWithTriples: `triples: Optional[List[Triple]] = None`, each item a mapping built as a Triple.
  // ---------------------------------------------------------------------------

  // The list check is written out for Triple items, as Documents writes it out for relationship
  // items, rather than once over an item-validating function: keeping each list's check
  // first-order keeps the proofs about the records that hold it small.


  function TripleItem(v: Value): (r: Checked<Triple>)
    ensures WellReported(r)
  {
    if v.Object? then NewTriple(v.entries) else Err({Error([], WrongType)})
  }

  predicate AllTriples(items: seq<Value>) {
    forall i :: 0 <= i < |items| ==> TripleItem(items[i]).Ok?
  }

  /** The triples the items build. */
  function TriplesOf(items: seq<Value>): (r: seq<Triple>)
    requires AllTriples(items)
    ensures |r| == |items| && forall i :: 0 <= i < |items| ==> r[i] == TripleItem(items[i]).value
  {
    if items == [] then [] else [TripleItem(items[0]).value] + TriplesOf(items[1..])
  }

  function TriplesField(m: map<N.Name, Value>): (r: Checked<Option<seq<Triple>>>)
    ensures WellReported(r)
    ensures r.Ok? <==> Unset(m, N.Triples) || (m[N.Triples].List? && AllTriples(m[N.Triples].items))
  {
    if Unset(m, N.Triples) then Ok(None)
    else if !m[N.Triples].List? then Err({Error([Key(N.Triples)], WrongType)})
    else if AllTriples(m[N.Triples].items) then Ok(Some(TriplesOf(m[N.Triples].items)))
    else
      var items := m[N.Triples].items;
      var errs := set i, e | 0 <= i < |items| && e in ErrorsOf(TripleItem(items[i])) :: Error([Key(N.Triples), Index(i)] + e.loc, e.kind);
      assert errs != {} by {
        var i :| 0 <= i < |items| && TripleItem(items[i]).Err?;
        assert ErrorsOf(TripleItem(items[i])) != {};
        var e :| e in ErrorsOf(TripleItem(items[i]));
        assert Error([Key(N.Triples), Index(i)] + e.loc, e.kind) in errs;
      }
      Err(errs)
  }

  /** The only error the `triples` field reports at its own level is a type error. */
  lemma TriplesFieldErrors(m: map<N.Name, Value>)
    ensures forall e :: e in ErrorsOf(TriplesField(m)) ==> |e.loc| > 0 && e.loc[0] == Key(N.Triples) && (|e.loc| == 1 ==> e.kind == WrongType)
    ensures ShapeErrorsOnly(ErrorsOf(TriplesField(m)))
  {
    if !Unset(m, N.Triples) && m[N.Triples].List? && !AllTriples(m[N.Triples].items) {
      var items := m[N.Triples].items;
      forall e | e in ErrorsOf(TriplesField(m)) ensures e.kind == ExtraForbidden || e.kind == WrongType {
        var i, e0 :| 0 <= i < |items| && e0 in ErrorsOf(TripleItem(items[i])) && e == Error([Key(N.Triples), Index(i)] + e0.loc, e0.kind);
        if items[i].Object? {
          TripleErrorKinds(items[i].entries);
        }
      }
    }
  }

  /** The `triples` field's outcome depends only on the value given for it. */
  lemma TriplesFieldLocal(m1: map<N.Name, Value>, m2: map<N.Name, Value>)
    requires Given(m1, N.Triples) == Given(m2, N.Triples)
    ensures TriplesField(m1) == TriplesField(m2)
  {
    GivenDecides(m1, m2, N.Triples);
  }

  /** The list items a list of triples dumps to. */
  function TripleValues(ts: seq<Triple>): (r: seq<Value>)
    ensures |r| == |ts| && forall i :: 0 <= i < |ts| ==> r[i] == Object(DumpTriple(ts[i]))
  {
    if ts == [] then [] else [Object(DumpTriple(ts[0]))] + TripleValues(ts[1..])
  }

  function OptTriplesValue(o: Option<seq<Triple>>): Value {
    match o
    case None => Null
    case Some(ts) => List(TripleValues(ts))
  }

  lemma TriplesFieldRoundTrip(m: map<N.Name, Value>, o: Option<seq<Triple>>)
    requires N.Triples in m && m[N.Triples] == OptTriplesValue(o)
    ensures TriplesField(m) == Ok(o)
  {
    if o.Some? {
      var ts := o.value;
      forall i | 0 <= i < |ts| ensures TripleItem(Object(DumpTriple(ts[i]))) == Ok(ts[i]) {
        TripleRoundTrip(ts[i]);
      }
      assert TriplesOf(TripleValues(ts)) == ts;
    }
  }

  datatype TextWithTriples = TextWithTriples(publication: Option<Publication>, triples: Option<seq<Triple>>)

  const TextWithTriplesFields: set<N.Name> := {N.Publication, N.Triples}

  function NewTextWithTriples(m: map<N.Name, Value>): (r: Checked<TextWithTriples>)
    ensures WellReported(r)
    ensures r.Ok? <==> m.Keys <= TextWithTriplesFields && PublicationField(m).Ok? && TriplesField(m).Ok?
    ensures r.Ok? ==> r.value == TextWithTriples(PublicationField(m).value, TriplesField(m).value)
  {
    var p := PublicationField(m);
    var t := TriplesField(m);
    var errs := ErrorsOf(p) + ErrorsOf(t) + UnknownKeys(m, TextWithTriplesFields);
    if errs == {} then Ok(TextWithTriples(p.value, t.value)) else Err(errs)
  }

  function DumpTextWithTriples(x: TextWithTriples): (r: map<N.Name, Value>)
    ensures r.Keys == TextWithTriplesFields
  {
    map[N.Publication := OptPublicationValue(x.publication), N.Triples := OptTriplesValue(x.triples)]
  }

  lemma TextWithTriplesRoundTrip(x: TextWithTriples)
    ensures NewTextWithTriples(DumpTextWithTriples(x)) == Ok(x)
  {
    var m := DumpTextWithTriples(x);
    PublicationFieldRoundTrip(m, x.publication);
    TriplesFieldRoundTrip(m, x.triples);
  }

  /** What a built TextWithTriples holds in a field depends only on the value given for it. */
  lemma TextWithTriplesFieldLocal(m1: map<N.Name, Value>, m2: map<N.Name, Value>, f: N.Name)
    requires NewTextWithTriples(m1).Ok? && NewTextWithTriples(m2).Ok?
    requires f in TextWithTriplesFields && Given(m1, f) == Given(m2, f)
    ensures DumpTextWithTriples(NewTextWithTriples(m1).value)[f] == DumpTextWithTriples(NewTextWithTriples(m2).value)[f]
  {
    if f == N.Publication {
      PublicationFieldLocal(m1, m2);
    } else {
      TriplesFieldLocal(m1, m2);
    }
  }

  lemma TextWithTriplesClosedWorld(m: map<N.Name, Value>, k: N.Name)
    ensures Error([Key(k)], ExtraForbidden) in ErrorsOf(NewTextWithTriples(m)) <==> k in m && k !in TextWithTriplesFields
  {
    PublicationFieldErrors(m);
    TriplesFieldErrors(m);
    assert Error([Key(k)], ExtraForbidden) !in ErrorsOf(PublicationField(m));
    assert Error([Key(k)], ExtraForbidden) !in ErrorsOf(TriplesField(m));
  }

  /** Every error is reported under a key, and what a TextWithTriples reports under a key depends
      only on what is given for that key. */
  /** The errors of `NewTextWithTriples`, field by field. */
  lemma TextWithTriplesErrors(m: map<N.Name, Value>)
    ensures ErrorsOf(NewTextWithTriples(m)) == ErrorsOf(PublicationField(m)) + ErrorsOf(TriplesField(m)) + UnknownKeys(m, TextWithTriplesFields)
  {
  }

  /** Every error is reported under a key, and what a TextWithTriples reports under a key depends
      only on what is given for that key. */
  lemma TextWithTriplesErrorsLocal(m1: map<N.Name, Value>, m2: map<N.Name, Value>, e: Error)
    requires e in ErrorsOf(NewTextWithTriples(m2))
    ensures |e.loc| > 0 && e.loc[0].Key?
    ensures SameEntry(m1, m2, e.loc[0].name) ==> e in ErrorsOf(NewTextWithTriples(m1))
  {
    TextWithTriplesErrors(m1);
    TextWithTriplesErrors(m2);
    if e in ErrorsOf(PublicationField(m2)) {
      PublicationFieldErrors(m2);
      if SameEntry(m1, m2, N.Publication) {
        assert Given(m1, N.Publication) == Given(m2, N.Publication);
        PublicationFieldLocal(m1, m2);
      }
    } else if e in ErrorsOf(TriplesField(m2)) {
      TriplesFieldErrors(m2);
      if SameEntry(m1, m2, N.Triples) {
        assert Given(m1, N.Triples) == Given(m2, N.Triples);
        TriplesFieldLocal(m1, m2);
      }
    } else {
      UnknownKeysLocal(m1, m2, TextWithTriplesFields, e);
    }
  }

  /** A TextWithTriples has no required field and no pattern, at any depth. */
  lemma TextWithTriplesErrorKinds(m: map<N.Name, Value>)
    ensures ShapeErrorsOnly(ErrorsOf(NewTextWithTriples(m)))
  {
    PublicationFieldErrors(m);
    TriplesFieldErrors(m);
  }

  // ---------------------------------------------------------------------------
  // TextWithEntity: `entities: Optional[List[str]] = None`.
  // ---------------------------------------------------------------------------

  datatype TextWithEntity = TextWithEntity(publication: Option<Publication>, entities: Option<seq<string>>)

  const TextWithEntityFields: set<N.Name> := {N.Publication, N.Entities}

  function NewTextWithEntity(m: map<N.Name, Value>): (r: Checked<TextWithEntity>)
    ensures WellReported(r)
    ensures r.Ok? <==> m.Keys <= TextWithEntityFields && PublicationField(m).Ok? && StrListOrUnset(m, N.Entities)
    ensures r.Ok? ==> r.value.publication == PublicationField(m).value
    ensures r.Ok? ==> OptStrListValue(r.value.entities) == Given(m, N.Entities)
  {
    var p := PublicationField(m);
    var es := OptStrListField(m, N.Entities);
    var errs := ErrorsOf(p) + ErrorsOf(es) + UnknownKeys(m, TextWithEntityFields);
    if errs == {} then Ok(TextWithEntity(p.value, es.value)) else Err(errs)
  }

  function DumpTextWithEntity(x: TextWithEntity): (r: map<N.Name, Value>)
    ensures r.Keys == TextWithEntityFields
  {
    map[N.Publication := OptPublicationValue(x.publication), N.Entities := OptStrListValue(x.entities)]
  }

  lemma TextWithEntityRoundTrip(x: TextWithEntity)
    ensures NewTextWithEntity(DumpTextWithEntity(x)) == Ok(x)
  {
    var m := DumpTextWithEntity(x);
    PublicationFieldRoundTrip(m, x.publication);
    StrListRoundTrip(m, N.Entities, x.entities);
  }

  /** What a built TextWithEntity holds in a field depends only on the value given for it. */
  lemma TextWithEntityFieldLocal(m1: map<N.Name, Value>, m2: map<N.Name, Value>, f: N.Name)
    requires NewTextWithEntity(m1).Ok? && NewTextWithEntity(m2).Ok?
    requires f in TextWithEntityFields && Given(m1, f) == Given(m2, f)
    ensures DumpTextWithEntity(NewTextWithEntity(m1).value)[f] == DumpTextWithEntity(NewTextWithEntity(m2).value)[f]
  {
    if f == N.Publication {
      PublicationFieldLocal(m1, m2);
    }
  }

  lemma TextWithEntityClosedWorld(m: map<N.Name, Value>, k: N.Name)
    ensures Error([Key(k)], ExtraForbidden) in ErrorsOf(NewTextWithEntity(m)) <==> k in m && k !in TextWithEntityFields
  {
    PublicationFieldErrors(m);
    assert Error([Key(k)], ExtraForbidden) !in ErrorsOf(PublicationField(m));
    assert Error([Key(k)], ExtraForbidden) !in ErrorsOf(OptStrListField(m, N.Entities));
  }

  /** Every error is reported under a key, and what a TextWithEntity reports under a key depends
      only on what is given for that key. */
  /** The errors of `NewTextWithEntity`, field by field. */
  lemma TextWithEntityErrors(m: map<N.Name, Value>)
    ensures ErrorsOf(NewTextWithEntity(m)) == ErrorsOf(PublicationField(m)) + ErrorsOf(OptStrListField(m, N.Entities)) + UnknownKeys(m, TextWithEntityFields)
  {
  }

  /** Every error is reported under a key, and what a TextWithEntity reports under a key depends
      only on what is given for that key. */
  lemma TextWithEntityErrorsLocal(m1: map<N.Name, Value>, m2: map<N.Name, Value>, e: Error)
    requires e in ErrorsOf(NewTextWithEntity(m2))
    ensures |e.loc| > 0 && e.loc[0].Key?
    ensures SameEntry(m1, m2, e.loc[0].name) ==> e in ErrorsOf(NewTextWithEntity(m1))
  {
    TextWithEntityErrors(m1);
    TextWithEntityErrors(m2);
    if e in ErrorsOf(PublicationField(m2)) {
      PublicationFieldErrors(m2);
      if SameEntry(m1, m2, N.Publication) {
        assert Given(m1, N.Publication) == Given(m2, N.Publication);
        PublicationFieldLocal(m1, m2);
      }
    } else if e in ErrorsOf(OptStrListField(m2, N.Entities)) {
      OptStrListFieldLocal(m1, m2, N.Entities, e);
    } else {
      UnknownKeysLocal(m1, m2, TextWithEntityFields, e);
    }
  }

  /** A TextWithEntity has no required field and no pattern, at any depth. */
  lemma TextWithEntityErrorKinds(m: map<N.Name, Value>)
    ensures ShapeErrorsOnly(ErrorsOf(NewTextWithEntity(m)))
  {
    PublicationFieldErrors(m);
  }

  // ---------------------------------------------------------------------------
  // ExtractionResult: five optional strings, `extracted_object: Optional[Any]` and
  // `named_entities: Optional[List[Any]]`. The two `Any` fields take any value unchecked:
  // nothing makes `extracted_object` a Document.
  // ---------------------------------------------------------------------------

  datatype ExtractionResult = ExtractionResult(
    inputId: Option<string>, inputTitle: Option<string>, inputText: Option<string>,
    rawCompletionOutput: Option<string>, prompt: Option<string>,
    extractedObject: Value,                  // Null stands for None
    namedEntities: Option<seq<Value>>)

  const ExtractionFields: set<N.Name> := {
    N.InputId, N.InputTitle, N.InputText, N.RawCompletionOutput, N.Prompt,
    N.ExtractedObject, N.NamedEntities}

  /** `Optional[List[Any]] = None`: any list, its items as they are. */
  function AnyListField(m: map<N.Name, Value>, f: N.Name): (r: Checked<Option<seq<Value>>>)
    ensures r.Ok? <==> Unset(m, f) || m[f].List?
    ensures r.Ok? ==> (if r.value.None? then Null else List(r.value.value)) == Given(m, f)
    ensures r.Err? ==> r.error == {Error([Key(f)], WrongType)}
  {
    if Unset(m, f) then Ok(None)
    else if m[f].List? then Ok(Some(m[f].items))
    else Err({Error([Key(f)], WrongType)})
  }

  predicate ExtractionFieldsTyped(m: map<N.Name, Value>) {
    && StrOrUnset(m, N.InputId) && StrOrUnset(m, N.InputTitle) && StrOrUnset(m, N.InputText)
    && StrOrUnset(m, N.RawCompletionOutput) && StrOrUnset(m, N.Prompt)
    && (Unset(m, N.NamedEntities) || m[N.NamedEntities].List?)
  }

  function NewExtractionResult(m: map<N.Name, Value>): (r: Checked<ExtractionResult>)
    ensures WellReported(r)
    ensures r.Ok? <==> m.Keys <= ExtractionFields && ExtractionFieldsTyped(m)
  {
    var id := OptStrField(m, N.InputId);
    var title := OptStrField(m, N.InputTitle);
    var text := OptStrField(m, N.InputText);
    var raw := OptStrField(m, N.RawCompletionOutput);
    var prompt := OptStrField(m, N.Prompt);
    var named := AnyListField(m, N.NamedEntities);
    var errs := ErrorsOf(id) + ErrorsOf(title) + ErrorsOf(text) + ErrorsOf(raw) + ErrorsOf(prompt)
      + ErrorsOf(named) + UnknownKeys(m, ExtractionFields);
    if errs == {} then
      Ok(ExtractionResult(id.value, title.value, text.value, raw.value, prompt.value,
        Given(m, N.ExtractedObject), named.value))
    else Err(errs)
  }

  function OptAnyListValue(o: Option<seq<Value>>): Value {
    match o
    case None => Null
    case Some(vs) => List(vs)
  }

  function DumpExtractionResult(x: ExtractionResult): (r: map<N.Name, Value>)
    ensures r.Keys == ExtractionFields
  {
    map[
      N.InputId := OptStrValue(x.inputId), N.InputTitle := OptStrValue(x.inputTitle),
      N.InputText := OptStrValue(x.inputText), N.RawCompletionOutput := OptStrValue(x.rawCompletionOutput),
      N.Prompt := OptStrValue(x.prompt), N.ExtractedObject := x.extractedObject,
      N.NamedEntities := OptAnyListValue(x.namedEntities)]
  }

  /** The checks of the fields of an ExtractionResult. */
  predicate ExtractionChecksPass(m: map<N.Name, Value>) {
    && OptStrField(m, N.InputId).Ok? && OptStrField(m, N.InputTitle).Ok? && OptStrField(m, N.InputText).Ok?
    && OptStrField(m, N.RawCompletionOutput).Ok? && OptStrField(m, N.Prompt).Ok?
    && AnyListField(m, N.NamedEntities).Ok?
  }

  /** The ExtractionResult made of the values the field checks produced. */
  function ExtractionOfChecks(m: map<N.Name, Value>): ExtractionResult
    requires ExtractionChecksPass(m)
  {
    ExtractionResult(
      OptStrField(m, N.InputId).value, OptStrField(m, N.InputTitle).value, OptStrField(m, N.InputText).value,
      OptStrField(m, N.RawCompletionOutput).value, OptStrField(m, N.Prompt).value,
      Given(m, N.ExtractedObject), AnyListField(m, N.NamedEntities).value)
  }

  /** A built ExtractionResult is made of the values its fields' checks produced. */
  lemma NewExtractionValue(m: map<N.Name, Value>)
    requires NewExtractionResult(m).Ok?
    ensures ExtractionChecksPass(m) && NewExtractionResult(m).value == ExtractionOfChecks(m)
  {
  }

  /** Each checked field dumps back to the value given for it. */
  lemma ExtractionChecksGiven(m: map<N.Name, Value>)
    requires ExtractionChecksPass(m)
    ensures forall f :: f in ExtractionFields ==> DumpExtractionResult(ExtractionOfChecks(m))[f] == Given(m, f)
  {
    var d := DumpExtractionResult(ExtractionOfChecks(m));
    forall f | f in ExtractionFields ensures d[f] == Given(m, f) {
      if f == N.InputId {
      } else if f == N.InputTitle {
      } else if f == N.InputText {
      } else if f == N.RawCompletionOutput {
      } else if f == N.Prompt {
      } else if f == N.ExtractedObject {
      } else {
        assert f == N.NamedEntities;
      }
    }
  }

  /** A built ExtractionResult holds each field as given, None for those left out; the `Any`
      fields hold the given values untouched. */
  lemma ExtractionFieldsGiven(m: map<N.Name, Value>)
    requires NewExtractionResult(m).Ok?
    ensures forall f :: f in ExtractionFields ==> DumpExtractionResult(NewExtractionResult(m).value)[f] == Given(m, f)
  {
    NewExtractionValue(m);
    ExtractionChecksGiven(m);
  }

  lemma ExtractionRoundTrip(x: ExtractionResult)
    ensures NewExtractionResult(DumpExtractionResult(x)) == Ok(x)
  {
    var m := DumpExtractionResult(x);
    OptStrRoundTrip(m, N.InputId, x.inputId);
    OptStrRoundTrip(m, N.InputTitle, x.inputTitle);
    OptStrRoundTrip(m, N.InputText, x.inputText);
    OptStrRoundTrip(m, N.RawCompletionOutput, x.rawCompletionOutput);
    OptStrRoundTrip(m, N.Prompt, x.prompt);
    assert AnyListField(m, N.NamedEntities) == Ok(x.namedEntities);
    assert UnknownKeys(m, ExtractionFields) == {};
  }

  /** The errors of `NewExtractionResult`: a type error per wrongly typed field, plus one per
      undeclared key. */
  lemma ExtractionErrors(m: map<N.Name, Value>)
    ensures ErrorsOf(NewExtractionResult(m))
         == ErrorsOf(OptStrField(m, N.InputId)) + ErrorsOf(OptStrField(m, N.InputTitle))
          + ErrorsOf(OptStrField(m, N.InputText)) + ErrorsOf(OptStrField(m, N.RawCompletionOutput))
          + ErrorsOf(OptStrField(m, N.Prompt)) + ErrorsOf(AnyListField(m, N.NamedEntities))
          + UnknownKeys(m, ExtractionFields)
  {
  }

  /** Every error is reported under a key, and what an ExtractionResult reports under a key
      depends only on what is given for that key. */
  /** The field errors of an ExtractionResult are local: the union that `ExtractionErrors` gives. */
  lemma ExtractionFieldErrorsLocal(m1: map<N.Name, Value>, m2: map<N.Name, Value>, e: Error)
    requires e in ErrorsOf(OptStrField(m2, N.InputId)) + ErrorsOf(OptStrField(m2, N.InputTitle))
          + ErrorsOf(OptStrField(m2, N.InputText)) + ErrorsOf(OptStrField(m2, N.RawCompletionOutput))
          + ErrorsOf(OptStrField(m2, N.Prompt)) + ErrorsOf(AnyListField(m2, N.NamedEntities))
          + UnknownKeys(m2, ExtractionFields)
    ensures |e.loc| > 0 && e.loc[0].Key?
    ensures SameEntry(m1, m2, e.loc[0].name) ==>
      e in ErrorsOf(OptStrField(m1, N.InputId)) + ErrorsOf(OptStrField(m1, N.InputTitle))
         + ErrorsOf(OptStrField(m1, N.InputText)) + ErrorsOf(OptStrField(m1, N.RawCompletionOutput))
         + ErrorsOf(OptStrField(m1, N.Prompt)) + ErrorsOf(AnyListField(m1, N.NamedEntities))
         + UnknownKeys(m1, ExtractionFields)
  {
    if e in ErrorsOf(OptStrField(m2, N.InputId)) {
      OptStrFieldLocal(m1, m2, N.InputId, e);
    } else if e in ErrorsOf(OptStrField(m2, N.InputTitle)) {
      OptStrFieldLocal(m1, m2, N.InputTitle, e);
    } else if e in ErrorsOf(OptStrField(m2, N.InputText)) {
      OptStrFieldLocal(m1, m2, N.InputText, e);
    } else if e in ErrorsOf(OptStrField(m2, N.RawCompletionOutput)) {
      OptStrFieldLocal(m1, m2, N.RawCompletionOutput, e);
    } else if e in ErrorsOf(OptStrField(m2, N.Prompt)) {
      OptStrFieldLocal(m1, m2, N.Prompt, e);
    } else if e in ErrorsOf(AnyListField(m2, N.NamedEntities)) {
      if SameEntry(m1, m2, N.NamedEntities) {
        assert AnyListField(m1, N.NamedEntities) == AnyListField(m2, N.NamedEntities);
      }
    } else {
      UnknownKeysLocal(m1, m2, ExtractionFields, e);
    }
  }

  /** Every error is reported under a key, and what an ExtractionResult reports under a key
      depends only on what is given for that key. */
  lemma ExtractionErrorsLocal(m1: map<N.Name, Value>, m2: map<N.Name, Value>, e: Error)
    requires e in ErrorsOf(NewExtractionResult(m2))
    ensures |e.loc| > 0 && e.loc[0].Key?
    ensures SameEntry(m1, m2, e.loc[0].name) ==> e in ErrorsOf(NewExtractionResult(m1))
  {
    ExtractionErrors(m1);
    ExtractionErrors(m2);
    ExtractionFieldErrorsLocal(m1, m2, e);
  }

  lemma ExtractionErrorKinds(m: map<N.Name, Value>)
    ensures ShapeErrorsOnly(ErrorsOf(NewExtractionResult(m)))
  {
    ExtractionErrors(m);
    forall e | e in ErrorsOf(NewExtractionResult(m)) ensures e.kind == ExtraForbidden || e.kind == WrongType {
      if e in UnknownKeys(m, ExtractionFields) {
      } else if e in ErrorsOf(AnyListField(m, N.NamedEntities)) {
      } else if e in ErrorsOf(OptStrField(m, N.InputId)) {
      } else if e in ErrorsOf(OptStrField(m, N.InputTitle)) {
      } else if e in ErrorsOf(OptStrField(m, N.InputText)) {
      } else if e in ErrorsOf(OptStrField(m, N.RawCompletionOutput)) {
      } else {
        assert e in ErrorsOf(OptStrField(m, N.Prompt));
      }
    }
  }

  lemma ExtractionClosedWorld(m: map<N.Name, Value>, k: N.Name)
    ensures Error([Key(k)], ExtraForbidden) in ErrorsOf(NewExtractionResult(m)) <==> k in m && k !in ExtractionFields
  {
    ExtractionErrors(m);
    var e := Error([Key(k)], ExtraForbidden);
    assert e !in ErrorsOf(OptStrField(m, N.InputId)) && e !in ErrorsOf(OptStrField(m, N.InputTitle));
    assert e !in ErrorsOf(OptStrField(m, N.InputText)) && e !in ErrorsOf(OptStrField(m, N.RawCompletionOutput));
    assert e !in ErrorsOf(OptStrField(m, N.Prompt)) && e !in ErrorsOf(AnyListField(m, N.NamedEntities));
  }

  /** No field of ExtractionResult is required: the empty mapping builds an all-None result. */
  lemma ExtractionAllOptional()
    ensures NewExtractionResult(map[]) == Ok(ExtractionResult(None, None, None, None, None, Null, None))
  {
  }

  /** An ExtractionResult given the input text and an extracted object holds both, the object
      as it was given, and nothing else. */
  lemma ExtractionWraps(text: string, v: Value)
    ensures NewExtractionResult(map[N.InputText := Str(text), N.ExtractedObject := v])
         == Ok(ExtractionResult(None, None, Some(text), None, None, v, None))
  {
  }

  /** `extracted_object` accepts any value whatever, a malformed record included. */
  lemma ExtractedObjectUnchecked(v: Value)
    ensures NewExtractionResult(map[N.ExtractedObject := v]).Ok?
    ensures NewExtractionResult(map[N.ExtractedObject := v]).value.extractedObject == v
  {
  }
}

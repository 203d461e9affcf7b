/**
 * Document: a NamedEntity (so `id` is required and `original_spans` goes through
 * the same validator) that also holds one optional list per relationship class.
 * Each list item is given as a key/value mapping and built as a relationship of
 * the list's kind; an absent list stays None, distinct from an empty list.
 */
module Documents {
  import N = Names
  import opened Values
  import opened SpanValidator
  import opened Entities
  import opened Claims

  datatype Document = Document(
    id: string,
    name: Option<string>,       // the `label` field
    originalSpans: Option<seq<string>>,
    toDisease: Option<seq<Relationship>>,
    toPhenotype: Option<seq<Relationship>>,
    toBiologicalProcess: Option<seq<Relationship>>,
    toHealthStatus: Option<seq<Relationship>>,
    toSource: Option<seq<Relationship>>,
    toNutrient: Option<seq<Relationship>>)

  /** The list field of Document that holds relationships of kind `k`. */
  function ListField(k: RelationKind): N.Name {
    match k
    case ToDisease => N.NutrientToDiseaseRelationships
    case ToPhenotype => N.NutrientToPhenotypeRelationships
    case ToBiologicalProcess => N.NutrientToBiologicalProcessRelationships
    case ToHealthStatus => N.NutrientToHealthStatusRelationships
    case ToSource => N.NutrientToSourceRelationships
    case ToNutrient => N.NutrientToNutrientRelationships
  }

  function Relations(d: Document, k: RelationKind): Option<seq<Relationship>> {
    match k
    case ToDisease => d.toDisease
    case ToPhenotype => d.toPhenotype
    case ToBiologicalProcess => d.toBiologicalProcess
    case ToHealthStatus => d.toHealthStatus
    case ToSource => d.toSource
    case ToNutrient => d.toNutrient
  }

  const ListFields: set<N.Name> := {
    N.NutrientToDiseaseRelationships, N.NutrientToPhenotypeRelationships,
    N.NutrientToBiologicalProcessRelationships, N.NutrientToHealthStatusRelationships,
    N.NutrientToSourceRelationships, N.NutrientToNutrientRelationships}

  const DocumentFields: set<N.Name> := {
    N.Id, N.Label, N.OriginalSpans,
    N.NutrientToDiseaseRelationships, N.NutrientToPhenotypeRelationships,
    N.NutrientToBiologicalProcessRelationships, N.NutrientToHealthStatusRelationships,
    N.NutrientToSourceRelationships, N.NutrientToNutrientRelationships}

  /** Every relationship held in a list has that list's kind. */
  ghost predicate DocumentValid(d: Document) {
    forall k: RelationKind, i :: Relations(d, k).Some? && 0 <= i < |Relations(d, k).value| ==> Relations(d, k).value[i].kind == k
  }

  /** One item of a relationship list: a mapping, built as a relationship of kind `k`. */
  function RelationshipItem(k: RelationKind, v: Value): (r: Checked<Relationship>)
    ensures WellReported(r)
    ensures r.Ok? ==> r.value.kind == k
    ensures !v.Object? ==> r == Err({Error([], WrongType)})
  {
    if v.Object? then NewRelationship(k, v.entries) else Err({Error([], WrongType)})
  }

  /** Every item builds a relationship of kind `k`. */
  predicate AllRelationships(k: RelationKind, items: seq<Value>) {
    forall i :: 0 <= i < |items| ==> RelationshipItem(k, items[i]).Ok?
  }

  /** The relationships the items build. */
  function Relationships(k: RelationKind, items: seq<Value>): (r: seq<Relationship>)
    requires AllRelationships(k, items)
    ensures |r| == |items| && forall i :: 0 <= i < |items| ==> r[i] == RelationshipItem(k, items[i]).value
  {
    if items == [] then [] else [RelationshipItem(k, items[0]).value] + Relationships(k, items[1..])
  }

  /** The errors of the items, each located under the list field `f` and its index. */
  function ItemErrors(f: N.Name, k: RelationKind, items: seq<Value>): Errors {
    set i, e | 0 <= i < |items| && e in ErrorsOf(RelationshipItem(k, items[i])) :: Error([Key(f), Index(i)] + e.loc, e.kind)
  }

  /** `Optional[List[NutrientTo...Relationship]] = None` */
  function RelationsField(m: map<N.Name, Value>, k: RelationKind): (r: Checked<Option<seq<Relationship>>>)
    ensures WellReported(r)
    ensures r.Ok? <==> Unset(m, ListField(k)) || (m[ListField(k)].List? && AllRelationships(k, m[ListField(k)].items))
  {
    var f := ListField(k);
    if Unset(m, f) then Ok(None)
    else if !m[f].List? then Err({Error([Key(f)], WrongType)})
    else if AllRelationships(k, m[f].items) then Ok(Some(Relationships(k, m[f].items)))
    else
      var errs := ItemErrors(f, k, m[f].items);
      assert errs != {} by {
        var items := m[f].items;
        var i :| 0 <= i < |items| && RelationshipItem(k, items[i]).Err?;
        assert ErrorsOf(RelationshipItem(k, items[i])) != {};
        var e :| e in ErrorsOf(RelationshipItem(k, items[i]));
        assert Error([Key(f), Index(i)] + e.loc, e.kind) in errs;
      }
      Err(errs)
  }

  /** A relationship list reports its errors under its own name, and only undeclared keys and
      wrongly typed values: nothing inside is required or pattern-checked. */
  lemma RelationsFieldErrors(m: map<N.Name, Value>, k: RelationKind)
    ensures forall e :: e in ErrorsOf(RelationsField(m, k)) ==>
      && |e.loc| > 0 && e.loc[0] == Key(ListField(k))
      && (e.kind == ExtraForbidden || e.kind == WrongType)
      && (|e.loc| == 1 ==> e.kind == WrongType)
  {
    var f := ListField(k);
    if !Unset(m, f) && m[f].List? && !AllRelationships(k, m[f].items) {
      ItemErrorsOf(f, k, m[f].items);
    }
  }

  /** The errors of the items lie below the list field and an index, and are undeclared keys or
      type errors. */
  lemma ItemErrorsOf(f: N.Name, k: RelationKind, items: seq<Value>)
    ensures forall e :: e in ItemErrors(f, k, items) ==>
      |e.loc| > 1 && e.loc[0] == Key(f) && (e.kind == ExtraForbidden || e.kind == WrongType)
  {
    forall e | e in ItemErrors(f, k, items)
      ensures |e.loc| > 1 && e.loc[0] == Key(f) && (e.kind == ExtraForbidden || e.kind == WrongType)
    {
      var i, e0 :| 0 <= i < |items| && e0 in ErrorsOf(RelationshipItem(k, items[i])) && e == Error([Key(f), Index(i)] + e0.loc, e0.kind);
      if items[i].Object? {
        RelationshipErrorKinds(k, items[i].entries);
      }
    }
  }

  /** A relationship list's outcome depends only on the value given for that list. */
  lemma RelationsFieldLocal(m1: map<N.Name, Value>, m2: map<N.Name, Value>, k: RelationKind)
    requires Given(m1, ListField(k)) == Given(m2, ListField(k))
    ensures RelationsField(m1, k) == RelationsField(m2, k)
  {
    GivenDecides(m1, m2, ListField(k));
  }

  /** The six relationship lists hold mappings that build relationships of their kinds, or are unset. */
  predicate RelationsTyped(m: map<N.Name, Value>) {
    forall k: RelationKind :: RelationsField(m, k).Ok?
  }

  /** The relationship kinds, in the order Document declares their lists. */
  const AllKinds: seq<RelationKind> := [ToDisease, ToPhenotype, ToBiologicalProcess, ToHealthStatus, ToSource, ToNutrient]

  /** The errors of the relationship lists of the kinds in `ks`. */
  function RelationsErrors(m: map<N.Name, Value>, ks: seq<RelationKind>): (r: Errors)
    ensures r == {} <==> forall k :: k in ks ==> RelationsField(m, k).Ok?
  {
    if ks == [] then {}
    else
      var rest := RelationsErrors(m, ks[1..]);
      assert forall k :: k in ks <==> k == ks[0] || k in ks[1..];
      ErrorsOf(RelationsField(m, ks[0])) + rest
  }

  /** The errors of the lists of `ks` include each list's errors. */
  lemma {:induction false} RelationsErrorsInclude(m: map<N.Name, Value>, ks: seq<RelationKind>)
    ensures forall k :: k in ks ==> ErrorsOf(RelationsField(m, k)) <= RelationsErrors(m, ks)
  {
    if ks != [] {
      RelationsErrorsInclude(m, ks[1..]);
      assert forall k :: k in ks <==> k == ks[0] || k in ks[1..];
    }
  }

  /** The errors of the lists of `ks` are each located under a list field, and are all
      undeclared keys or type errors. */
  lemma {:induction false} RelationsErrorsOf(m: map<N.Name, Value>, ks: seq<RelationKind>)
    ensures forall e :: e in RelationsErrors(m, ks) ==>
      && |e.loc| > 0 && e.loc[0].Key? && e.loc[0].name in ListFields
      && (e.kind == ExtraForbidden || e.kind == WrongType)
      && (|e.loc| == 1 ==> e.kind == WrongType)
  {
    if ks != [] {
      RelationsErrorsOf(m, ks[1..]);
      RelationsFieldErrors(m, ks[0]);
      assert RelationsErrors(m, ks) == ErrorsOf(RelationsField(m, ks[0])) + RelationsErrors(m, ks[1..]);
      assert ListField(ks[0]) in ListFields;
    }
  }

  /** The lists report their errors under their own names, from what is given for each list alone. */
  lemma {:induction false} RelationsErrorsLocal(m1: map<N.Name, Value>, m2: map<N.Name, Value>, ks: seq<RelationKind>, e: Error)
    requires e in RelationsErrors(m2, ks)
    ensures |e.loc| > 0 && e.loc[0].Key?
    ensures SameEntry(m1, m2, e.loc[0].name) ==> e in RelationsErrors(m1, ks)
  {
    assert ks != [];
    assert RelationsErrors(m2, ks) == ErrorsOf(RelationsField(m2, ks[0])) + RelationsErrors(m2, ks[1..]);
    assert RelationsErrors(m1, ks) == ErrorsOf(RelationsField(m1, ks[0])) + RelationsErrors(m1, ks[1..]);
    if e in ErrorsOf(RelationsField(m2, ks[0])) {
      RelationsFieldErrors(m2, ks[0]);
      var f := ListField(ks[0]);
      if SameEntry(m1, m2, f) {
        assert Given(m1, f) == Given(m2, f);
        RelationsFieldLocal(m1, m2, ks[0]);
      }
    } else {
      RelationsErrorsLocal(m1, m2, ks[1..], e);
    }
  }

  function NewDocument(m: map<N.Name, Value>): (r: Checked<Document>)
    ensures WellReported(r)
    ensures r.Ok? <==> m.Keys <= DocumentFields && EntityFieldsTyped(m) && RelationsTyped(m)
  {
    var id := ReqStrField(m, N.Id);
    var name := OptStrField(m, N.Label);
    var spans := SpansField(m);
    var errs := ErrorsOf(id) + ErrorsOf(name) + ErrorsOf(spans) + RelationsErrors(m, AllKinds)
      + UnknownKeys(m, DocumentFields);
    assert RelationsErrors(m, AllKinds) == {} <==> RelationsTyped(m) by {
      forall k: RelationKind ensures k in AllKinds {
        assert k == AllKinds[0] || k == AllKinds[1] || k == AllKinds[2] || k == AllKinds[3] || k == AllKinds[4] || k == AllKinds[5];
      }
    }
    if errs == {} then
      Ok(Document(id.value, name.value, spans.value,
        RelationsField(m, ToDisease).value, RelationsField(m, ToPhenotype).value,
        RelationsField(m, ToBiologicalProcess).value, RelationsField(m, ToHealthStatus).value,
        RelationsField(m, ToSource).value, RelationsField(m, ToNutrient).value))
    else Err(errs)
  }

  /** A built Document is made of the values its fields' checks produced. */
  lemma NewDocumentValue(m: map<N.Name, Value>)
    requires NewDocument(m).Ok?
    ensures NewDocument(m).value == Document(
      ReqStrField(m, N.Id).value, OptStrField(m, N.Label).value, SpansField(m).value,
      RelationsField(m, ToDisease).value, RelationsField(m, ToPhenotype).value,
      RelationsField(m, ToBiologicalProcess).value, RelationsField(m, ToHealthStatus).value,
      RelationsField(m, ToSource).value, RelationsField(m, ToNutrient).value)
  {
  }

  /** A Document made of the checked entity fields dumps them back as given. */
  lemma DumpEntityFieldsGiven(m: map<N.Name, Value>, d: Document)
    requires ReqStrField(m, N.Id).Ok? && d.id == ReqStrField(m, N.Id).value
    requires OptStrField(m, N.Label).Ok? && d.name == OptStrField(m, N.Label).value
    requires SpansField(m).Ok? && d.originalSpans == SpansField(m).value
    ensures forall f :: f in EntityFields ==> DumpDocument(d)[f] == Given(m, f)
  {
    var dump := DumpDocument(d);
    assert dump[N.Id] == Str(d.id);
    assert dump[N.Label] == OptStrValue(d.name);
    assert dump[N.OriginalSpans] == OptStrListValue(d.originalSpans);
  }

  /** A built Document holds the entity fields as given. */
  lemma DocumentFieldsGiven(m: map<N.Name, Value>)
    requires NewDocument(m).Ok?
    ensures forall f :: f in EntityFields ==> DumpDocument(NewDocument(m).value)[f] == Given(m, f)
  {
    NewDocumentValue(m);
    DumpEntityFieldsGiven(m, NewDocument(m).value);
  }

  /** A built Document holds each relationship list as its field built it, and every relationship
      in it has that list's kind. */
  lemma DocumentRelations(m: map<N.Name, Value>, k: RelationKind)
    requires NewDocument(m).Ok?
    ensures RelationsField(m, k).Ok?
    ensures Relations(NewDocument(m).value, k) == RelationsField(m, k).value
    ensures Relations(NewDocument(m).value, k).Some? ==>
      forall i :: 0 <= i < |Relations(NewDocument(m).value, k).value| ==> Relations(NewDocument(m).value, k).value[i].kind == k
  {
    var d := NewDocument(m).value;
    assert RelationsField(m, k).Ok?;
    match k
    case ToDisease => assert d.toDisease == RelationsField(m, k).value;
    case ToPhenotype => assert d.toPhenotype == RelationsField(m, k).value;
    case ToBiologicalProcess => assert d.toBiologicalProcess == RelationsField(m, k).value;
    case ToHealthStatus => assert d.toHealthStatus == RelationsField(m, k).value;
    case ToSource => assert d.toSource == RelationsField(m, k).value;
    case ToNutrient => assert d.toNutrient == RelationsField(m, k).value;
  }

  /** A Document dumps each relationship list under that list's field. */
  lemma DumpDocumentList(d: Document, k: RelationKind)
    ensures DumpDocument(d)[ListField(k)] == OptRelationsValue(Relations(d, k))
  {
    match k
    case ToDisease =>
    case ToPhenotype =>
    case ToBiologicalProcess =>
    case ToHealthStatus =>
    case ToSource =>
    case ToNutrient =>
  }

  /** The kind of relationship a list field holds. */
  function ListKind(f: N.Name): (k: RelationKind)
    requires f in ListFields
    ensures ListField(k) == f
  {
    if f == N.NutrientToDiseaseRelationships then ToDisease
    else if f == N.NutrientToPhenotypeRelationships then ToPhenotype
    else if f == N.NutrientToBiologicalProcessRelationships then ToBiologicalProcess
    else if f == N.NutrientToHealthStatusRelationships then ToHealthStatus
    else if f == N.NutrientToSourceRelationships then ToSource
    else ToNutrient
  }

  lemma RelationsListLocal(m1: map<N.Name, Value>, m2: map<N.Name, Value>, k: RelationKind)
    requires NewDocument(m1).Ok? && NewDocument(m2).Ok?
    requires Given(m1, ListField(k)) == Given(m2, ListField(k))
    ensures DumpDocument(NewDocument(m1).value)[ListField(k)] == DumpDocument(NewDocument(m2).value)[ListField(k)]
  {
    DocumentRelations(m1, k);
    DocumentRelations(m2, k);
    RelationsFieldLocal(m1, m2, k);
    DumpDocumentList(NewDocument(m1).value, k);
    DumpDocumentList(NewDocument(m2).value, k);
  }

  /** What a built Document holds in a relationship list depends only on the value given for it. */
  lemma DocumentListLocal(m1: map<N.Name, Value>, m2: map<N.Name, Value>, f: N.Name)
    requires NewDocument(m1).Ok? && NewDocument(m2).Ok?
    requires f in ListFields && Given(m1, f) == Given(m2, f)
    ensures DumpDocument(NewDocument(m1).value)[f] == DumpDocument(NewDocument(m2).value)[f]
  {
    RelationsListLocal(m1, m2, ListKind(f));
  }

  /** Every Document that building produces is well formed. */
  lemma NewDocumentValid(m: map<N.Name, Value>)
    requires NewDocument(m).Ok?
    ensures DocumentValid(NewDocument(m).value)
  {
    forall k: RelationKind {
      DocumentRelations(m, k);
    }
  }

  /** The list items a list of relationships dumps to. */
  function RelationshipValues(rs: seq<Relationship>): (r: seq<Value>)
    ensures |r| == |rs| && forall i :: 0 <= i < |rs| ==> r[i] == Object(DumpRelationship(rs[i]))
  {
    if rs == [] then [] else [Object(DumpRelationship(rs[0]))] + RelationshipValues(rs[1..])
  }

  function OptRelationsValue(o: Option<seq<Relationship>>): Value {
    match o
    case None => Null
    case Some(rs) => List(RelationshipValues(rs))
  }

  function DumpDocument(d: Document): (r: map<N.Name, Value>)
    ensures r.Keys == DocumentFields
  {
    map[
      N.Id := Str(d.id), N.Label := OptStrValue(d.name),
      N.OriginalSpans := OptStrListValue(d.originalSpans),
      N.NutrientToDiseaseRelationships := OptRelationsValue(d.toDisease),
      N.NutrientToPhenotypeRelationships := OptRelationsValue(d.toPhenotype),
      N.NutrientToBiologicalProcessRelationships := OptRelationsValue(d.toBiologicalProcess),
      N.NutrientToHealthStatusRelationships := OptRelationsValue(d.toHealthStatus),
      N.NutrientToSourceRelationships := OptRelationsValue(d.toSource),
      N.NutrientToNutrientRelationships := OptRelationsValue(d.toNutrient)]
  }

  /** The errors of `NewDocument`: those of each field, plus one per undeclared key. */
  lemma DocumentErrors(m: map<N.Name, Value>)
    ensures ErrorsOf(NewDocument(m))
         == ErrorsOf(ReqStrField(m, N.Id)) + ErrorsOf(OptStrField(m, N.Label)) + ErrorsOf(SpansField(m))
          + RelationsErrors(m, AllKinds) + UnknownKeys(m, DocumentFields)
  {
  }

  /** Every error is reported under a key, and what a Document reports under a key depends only
      on what is given for that key. */
  lemma DocumentErrorsLocal(m1: map<N.Name, Value>, m2: map<N.Name, Value>, e: Error)
    requires e in ErrorsOf(NewDocument(m2))
    ensures |e.loc| > 0 && e.loc[0].Key?
    ensures SameEntry(m1, m2, e.loc[0].name) ==> e in ErrorsOf(NewDocument(m1))
  {
    DocumentErrors(m1);
    DocumentErrors(m2);
    if e in ErrorsOf(ReqStrField(m2, N.Id)) {
      ReqStrFieldLocal(m1, m2, N.Id, e);
    } else if e in ErrorsOf(OptStrField(m2, N.Label)) {
      OptStrFieldLocal(m1, m2, N.Label, e);
    } else if e in ErrorsOf(SpansField(m2)) {
      OptStrListFieldLocal(m1, m2, N.OriginalSpans, e);
    } else if e in RelationsErrors(m2, AllKinds) {
      RelationsErrorsLocal(m1, m2, AllKinds, e);
    } else {
      UnknownKeysLocal(m1, m2, DocumentFields, e);
    }
  }

  /** Closed world at the top level of a Document. */
  lemma DocumentClosedWorld(m: map<N.Name, Value>, k: N.Name)
    ensures Error([Key(k)], ExtraForbidden) in ErrorsOf(NewDocument(m)) <==> k in m && k !in DocumentFields
  {
    DocumentErrors(m);
    RelationsErrorsOf(m, AllKinds);
    assert Error([Key(k)], ExtraForbidden) !in ErrorsOf(ReqStrField(m, N.Id));
    assert Error([Key(k)], ExtraForbidden) !in ErrorsOf(OptStrField(m, N.Label));
    assert Error([Key(k)], ExtraForbidden) !in ErrorsOf(SpansField(m));
    assert Error([Key(k)], ExtraForbidden) !in RelationsErrors(m, AllKinds);
  }

  /** Every "missing" error of a Document comes from its `id` field. */
  lemma DocumentMissingFromId(m: map<N.Name, Value>)
    ensures forall e :: e in ErrorsOf(NewDocument(m)) && e.kind == Missing ==> e in ErrorsOf(ReqStrField(m, N.Id))
  {
    DocumentErrors(m);
    RelationsErrorsOf(m, AllKinds);
    forall e | e in ErrorsOf(NewDocument(m)) && e.kind == Missing ensures e in ErrorsOf(ReqStrField(m, N.Id)) {
      if e in ErrorsOf(ReqStrField(m, N.Id)) {
      } else if e in ErrorsOf(OptStrField(m, N.Label)) {
      } else if e in ErrorsOf(SpansField(m)) {
      } else if e in RelationsErrors(m, AllKinds) {
      }
    }
  }

  /** `id` is required on Document too, and it is the only required field anywhere inside it. */
  lemma DocumentIdRequired(m: map<N.Name, Value>)
    ensures Error([Key(N.Id)], Missing) in ErrorsOf(NewDocument(m)) <==> N.Id !in m
    ensures forall e :: e in ErrorsOf(NewDocument(m)) && e.kind == Missing ==> e.loc == [Key(N.Id)]
  {
    DocumentMissingFromId(m);
    if N.Id !in m {
      DocumentErrors(m);
      assert Error([Key(N.Id)], Missing) in ErrorsOf(ReqStrField(m, N.Id));
    }
  }

  /** Building a Document never reports a malformed span, at any depth: only undeclared keys,
      type errors and the missing `id`. */
  lemma DocumentNeverSpanError(m: map<N.Name, Value>)
    ensures forall e :: e in ErrorsOf(NewDocument(m)) ==> e.kind == ExtraForbidden || e.kind == WrongType || e.kind == Missing
  {
    DocumentErrors(m);
    RelationsErrorsOf(m, AllKinds);
    forall e | e in ErrorsOf(NewDocument(m)) ensures e.kind == ExtraForbidden || e.kind == WrongType || e.kind == Missing {
      if e in ErrorsOf(ReqStrField(m, N.Id)) {
      } else if e in ErrorsOf(OptStrField(m, N.Label)) {
      } else if e in ErrorsOf(SpansField(m)) {
      } else if e in RelationsErrors(m, AllKinds) {
      } else {
        assert e in UnknownKeys(m, DocumentFields);
      }
    }
  }

  /** An undeclared key inside the i-th relationship of a list is reported by the list at that depth. */
  lemma ListUnknownKeyLocated(m: map<N.Name, Value>, k: RelationKind, i: nat, key: N.Name)
    requires ListField(k) in m && m[ListField(k)].List? && i < |m[ListField(k)].items|
    requires m[ListField(k)].items[i].Object?
    requires key in m[ListField(k)].items[i].entries && key !in RelationshipFields(k)
    ensures Error([Key(ListField(k)), Index(i), Key(key)], ExtraForbidden) in ErrorsOf(RelationsField(m, k))
  {
    var f := ListField(k);
    var items := m[f].items;
    RelationshipClosedWorld(k, items[i].entries, key);
    var inner := Error([Key(key)], ExtraForbidden);
    assert inner in ErrorsOf(RelationshipItem(k, items[i]));
    assert [Key(f), Index(i)] + inner.loc == [Key(f), Index(i), Key(key)];
    assert Error([Key(f), Index(i), Key(key)], ExtraForbidden) in ItemErrors(f, k, items);
  }

  /** An undeclared key inside the i-th relationship of a list is reported at that depth. */
  lemma NestedUnknownKeyLocated(m: map<N.Name, Value>, k: RelationKind, i: nat, key: N.Name)
    requires ListField(k) in m && m[ListField(k)].List? && i < |m[ListField(k)].items|
    requires m[ListField(k)].items[i].Object?
    requires key in m[ListField(k)].items[i].entries && key !in RelationshipFields(k)
    ensures Error([Key(ListField(k)), Index(i), Key(key)], ExtraForbidden) in ErrorsOf(NewDocument(m))
  {
    var f := ListField(k);
    ListUnknownKeyLocated(m, k, i, key);
    RelationsErrorsInclude(m, AllKinds);
    assert k in AllKinds;
    assert Error([Key(f), Index(i), Key(key)], ExtraForbidden) in RelationsErrors(m, AllKinds);
    DocumentErrors(m);
  }

  /** A relationship of kind `k` dumps to a mapping that builds it back. */
  lemma RelationshipItemRoundTrip(k: RelationKind, rs: seq<Relationship>)
    requires forall i :: 0 <= i < |rs| ==> rs[i].kind == k
    ensures AllRelationships(k, RelationshipValues(rs))
    ensures Relationships(k, RelationshipValues(rs)) == rs
  {
    forall i | 0 <= i < |rs| ensures RelationshipItem(k, Object(DumpRelationship(rs[i]))) == Ok(rs[i]) {
      RelationshipRoundTrip(rs[i]);
    }
  }

  /** A list of relationships of kind `k`, dumped, builds back to the same list. */
  lemma RelationsFieldRoundTrip(m: map<N.Name, Value>, k: RelationKind, o: Option<seq<Relationship>>)
    requires ListField(k) in m && m[ListField(k)] == OptRelationsValue(o)
    requires o.Some? ==> forall i :: 0 <= i < |o.value| ==> o.value[i].kind == k
    ensures RelationsField(m, k) == Ok(o)
  {
    if o.Some? {
      RelationshipItemRoundTrip(k, o.value);
    }
  }

  /** A mapping whose declared fields all pass their checks and which has no other key builds
      the Document made of the checked values. */
  lemma NewDocumentFromFields(m: map<N.Name, Value>)
    requires ReqStrField(m, N.Id).Ok? && OptStrField(m, N.Label).Ok? && SpansField(m).Ok?
    requires RelationsTyped(m) && m.Keys <= DocumentFields
    ensures NewDocument(m) == Ok(Document(
      ReqStrField(m, N.Id).value, OptStrField(m, N.Label).value, SpansField(m).value,
      RelationsField(m, ToDisease).value, RelationsField(m, ToPhenotype).value,
      RelationsField(m, ToBiologicalProcess).value, RelationsField(m, ToHealthStatus).value,
      RelationsField(m, ToSource).value, RelationsField(m, ToNutrient).value))
  {
    assert RelationsErrors(m, AllKinds) == {};
    assert UnknownKeys(m, DocumentFields) == {};
  }

  /** Each relationship list of a well-formed Document, dumped, builds back to itself. */
  lemma DumpRelationsRoundTrip(d: Document, k: RelationKind)
    requires DocumentValid(d)
    ensures RelationsField(DumpDocument(d), k) == Ok(Relations(d, k))
  {
    var m := DumpDocument(d);
    assert m[ListField(k)] == OptRelationsValue(Relations(d, k)) by {
      match k
      case ToDisease =>
      case ToPhenotype =>
      case ToBiologicalProcess =>
      case ToHealthStatus =>
      case ToSource =>
      case ToNutrient =>
    }
    RelationsFieldRoundTrip(m, k, Relations(d, k));
  }

  /** The entity fields of a Document, dumped, build back to themselves. */
  lemma DumpEntityFieldsRoundTrip(d: Document)
    ensures ReqStrField(DumpDocument(d), N.Id) == Ok(d.id)
    ensures OptStrField(DumpDocument(d), N.Label) == Ok(d.name)
    ensures SpansField(DumpDocument(d)) == Ok(d.originalSpans)
  {
    var m := DumpDocument(d);
    assert m[N.Id] == Str(d.id);
    assert m[N.Label] == OptStrValue(d.name);
    OptStrRoundTrip(m, N.Label, d.name);
    assert m[N.OriginalSpans] == OptStrListValue(d.originalSpans);
    StrListRoundTrip(m, N.OriginalSpans, d.originalSpans);
  }

  /** A Document is its entity fields and its six relationship lists. */
  lemma DocumentOfRelations(d: Document)
    ensures d == Document(d.id, d.name, d.originalSpans,
      Relations(d, ToDisease), Relations(d, ToPhenotype), Relations(d, ToBiologicalProcess),
      Relations(d, ToHealthStatus), Relations(d, ToSource), Relations(d, ToNutrient))
  {
  }

  /** Dumping a well-formed Document and building it back gives the same Document. */
  lemma DocumentRoundTrip(d: Document)
    requires DocumentValid(d)
    ensures NewDocument(DumpDocument(d)) == Ok(d)
  {
    var m := DumpDocument(d);
    DumpEntityFieldsRoundTrip(d);
    forall k: RelationKind ensures RelationsField(m, k) == Ok(Relations(d, k)) {
      DumpRelationsRoundTrip(d, k);
    }
    assert RelationsTyped(m);
    NewDocumentFromFields(m);
    DocumentOfRelations(d);
  }

  /** A Document given only its id has all six relationship lists None, not empty. */
  lemma DocumentFromIdOnly(id: string)
    ensures NewDocument(map[N.Id := Str(id)]) == Ok(Document(id, None, None, None, None, None, None, None, None))
  {
    var m := map[N.Id := Str(id)];
    assert forall k :: RelationsField(m, k) == Ok(None);
    assert RelationsErrors(m, AllKinds) == {};
    assert UnknownKeys(m, DocumentFields) == {};
  }

  /** A mapping of an id and one empty relationship list has only declared keys and well-typed lists. */
  lemma IdAndEmptyListTyped(id: string, k: RelationKind)
    ensures map[N.Id := Str(id), ListField(k) := List([])].Keys <= DocumentFields
    ensures RelationsTyped(map[N.Id := Str(id), ListField(k) := List([])])
    ensures RelationsField(map[N.Id := Str(id), ListField(k) := List([])], k) == Ok(Some([]))
  {
    var m := map[N.Id := Str(id), ListField(k) := List([])];
    assert ListField(k) in DocumentFields by {
      match k
      case ToDisease =>
      case ToPhenotype =>
      case ToBiologicalProcess =>
      case ToHealthStatus =>
      case ToSource =>
      case ToNutrient =>
    }
    forall j: RelationKind ensures RelationsField(m, j).Ok? {
      if j != k {
        assert ListField(j) != ListField(k);
        assert Unset(m, ListField(j));
      }
    }
  }

  /** An empty list is kept as an empty list, distinct from an absent one. */
  lemma EmptyListIsNotAbsent(id: string, k: RelationKind)
    ensures NewDocument(map[N.Id := Str(id), ListField(k) := List([])]).Ok?
    ensures Relations(NewDocument(map[N.Id := Str(id), ListField(k) := List([])]).value, k) == Some([])
  {
    var m := map[N.Id := Str(id), ListField(k) := List([])];
    IdAndEmptyListTyped(id, k);
    NewDocumentFromFields(m);
    DocumentRelations(m, k);
  }
}

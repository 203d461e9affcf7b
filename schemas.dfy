/**
 * Every class of the schema as a `Models.Schema`: its declared fields, its required fields, the
 * fields it dumps as given, its validator and its `model_dump()`. Each one is proved lawful from
 * the lemmas of the class's own module, so the assignment lemmas of `Models` hold for all of them.
 */
module Schemas {
  import N = Names
  import opened Values
  import opened Models
  import opened Entities
  import opened Claims
  import opened Documents
  import opened Envelopes

  /** For the classes whose every record is valid. */
  function Unconstrained<T>(): T -> bool {
    x => true
  }

  // ---------------------------------------------------------------------------
  // NamedEntity and its seven kinds: `id` is required.
  // ---------------------------------------------------------------------------

  function EntitySchema(kind: EntityKind): Schema<Entity> {
    Schema(EntityFields, {N.Id}, EntityFields, m => NewEntity(kind, m), DumpEntity)
  }

  /** A record of a kind's class is an entity of that kind. */
  function OfKind(kind: EntityKind): Entity -> bool {
    (e: Entity) => e.kind == kind
  }

  lemma EntityRoundTrips(kind: EntityKind)
    ensures RoundTrips(EntitySchema(kind), OfKind(kind)) && StoresPlain(EntitySchema(kind))
  {
    var s := EntitySchema(kind);
    forall x: Entity | x.kind == kind ensures s.build(s.dump(x)) == Ok(x) {
      EntityRoundTrip(x);
    }
  }

  lemma EntityReports(kind: EntityKind)
    ensures ReportsShapes(EntitySchema(kind))
  {
    var s := EntitySchema(kind);
    forall m, e | e in ErrorsOf(s.build(m))
      ensures || e.kind == ExtraForbidden || e.kind == WrongType
              || (e.kind == Missing && exists r :: r in s.required && e.loc == [Key(r)])
    {
      EntityNeverSpanError(kind, m);
      EntityIdRequired(kind, m);
      if e.kind == Missing {
        assert N.Id in s.required && e.loc == [Key(N.Id)];
      }
    }
  }

  lemma EntityReportsMissing(kind: EntityKind)
    ensures ReportsMissing(EntitySchema(kind))
  {
    var s := EntitySchema(kind);
    forall m, r | r in s.required ensures Error([Key(r)], Missing) in ErrorsOf(s.build(m)) <==> r !in m {
      EntityIdRequired(kind, m);
    }
  }

  lemma EntityReportsLocally(kind: EntityKind)
    ensures ErrorsLocal(EntitySchema(kind))
  {
    var s := EntitySchema(kind);
    forall m1, m2, e | e in ErrorsOf(s.build(m2))
      ensures |e.loc| > 0 && e.loc[0].Key? && (SameEntry(m1, m2, e.loc[0].name) ==> e in ErrorsOf(s.build(m1)))
    {
      EntityErrorsLocal(kind, m1, m2, e);
    }
  }

  lemma EntityLawful(kind: EntityKind)
    ensures Lawful(EntitySchema(kind), OfKind(kind))
  {
    var s := EntitySchema(kind);
    EntityRoundTrips(kind);
    EntityReports(kind);
    EntityReportsMissing(kind);
    EntityReportsLocally(kind);
    forall m, k ensures Error([Key(k)], ExtraForbidden) in ErrorsOf(s.build(m)) <==> k in m && k !in s.fields {
      EntityClosedWorld(kind, m, k);
    }
  }

  // ---------------------------------------------------------------------------
  // Document: `id` is required; the relationship lists hold nested records.
  // ---------------------------------------------------------------------------

  const DocumentSchema: Schema<Document> :=
    Schema(DocumentFields, {N.Id}, EntityFields, NewDocument, DumpDocument)

  lemma DocumentRoundTrips()
    ensures RoundTrips(DocumentSchema, DocumentValid) && StoresPlain(DocumentSchema)
  {
    var s := DocumentSchema;
    forall x | DocumentValid(x) ensures s.build(s.dump(x)) == Ok(x) {
      DocumentRoundTrip(x);
    }
    forall m | s.build(m).Ok? ensures DocumentValid(s.build(m).value) {
      NewDocumentValid(m);
    }
    forall m | s.build(m).Ok? {
      DocumentFieldsGiven(m);
    }
  }

  lemma DocumentLocal()
    ensures FieldLocal(DocumentSchema)
  {
    var s := DocumentSchema;
    forall m1, m2, f | s.build(m1).Ok? && s.build(m2).Ok? && f in s.fields && Given(m1, f) == Given(m2, f)
      ensures Given(s.dump(s.build(m1).value), f) == Given(s.dump(s.build(m2).value), f)
    {
      if f in ListFields {
        DocumentListLocal(m1, m2, f);
      } else {
        DocumentFieldsGiven(m1);
        DocumentFieldsGiven(m2);
      }
    }
  }

  lemma DocumentClosedWorldLawful()
    ensures ClosedWorld(DocumentSchema)
  {
    forall m, k ensures Error([Key(k)], ExtraForbidden) in ErrorsOf(DocumentSchema.build(m)) <==> k in m && k !in DocumentFields {
      DocumentClosedWorld(m, k);
    }
  }

  lemma DocumentReports()
    ensures ReportsShapes(DocumentSchema)
  {
    var s := DocumentSchema;
    forall m, e | e in ErrorsOf(s.build(m))
      ensures || e.kind == ExtraForbidden || e.kind == WrongType
              || (e.kind == Missing && exists r :: r in s.required && e.loc == [Key(r)])
    {
      DocumentNeverSpanError(m);
      DocumentIdRequired(m);
      if e.kind == Missing {
        assert N.Id in s.required && e.loc == [Key(N.Id)];
      }
    }
  }

  lemma DocumentReportsMissing()
    ensures ReportsMissing(DocumentSchema)
  {
    var s := DocumentSchema;
    forall m, r | r in s.required ensures Error([Key(r)], Missing) in ErrorsOf(s.build(m)) <==> r !in m {
      DocumentIdRequired(m);
    }
  }

  lemma DocumentReportsLocally()
    ensures ErrorsLocal(DocumentSchema)
  {
    var s := DocumentSchema;
    forall m1, m2, e | e in ErrorsOf(s.build(m2))
      ensures |e.loc| > 0 && e.loc[0].Key? && (SameEntry(m1, m2, e.loc[0].name) ==> e in ErrorsOf(s.build(m1)))
    {
      DocumentErrorsLocal(m1, m2, e);
    }
  }

  lemma DocumentLawful()
    ensures Lawful(DocumentSchema, DocumentValid)
  {
    DocumentRoundTrips();
    DocumentLocal();
    DocumentClosedWorldLawful();
    DocumentReports();
    DocumentReportsMissing();
    DocumentReportsLocally();
  }

  // ---------------------------------------------------------------------------
  // CompoundExpression, Triple, ScientificClaim, the relationship classes
  // ---------------------------------------------------------------------------

  const CompoundExpressionSchema: Schema<CompoundExpression> :=
    Schema({}, {}, {}, NewCompoundExpression, DumpCompoundExpression)

  lemma CompoundExpressionReportsLocally()
    ensures ErrorsLocal(CompoundExpressionSchema)
  {
    var s := CompoundExpressionSchema;
    forall m1, m2, e | e in ErrorsOf(s.build(m2))
      ensures |e.loc| > 0 && e.loc[0].Key? && (SameEntry(m1, m2, e.loc[0].name) ==> e in ErrorsOf(s.build(m1)))
    {
      CompoundExpressionErrorsLocal(m1, m2, e);
    }
  }

  lemma CompoundExpressionLawful()
    ensures Lawful(CompoundExpressionSchema, Unconstrained())
  {
    var s := CompoundExpressionSchema;
    forall x ensures s.build(s.dump(x)) == Ok(x) {
      CompoundExpressionRoundTrip(x);
    }
    CompoundExpressionReportsLocally();
  }

  const TripleSchema: Schema<Triple> := Schema(TripleFields, {}, TripleFields, NewTriple, DumpTriple)

  lemma TripleReportsLocally()
    ensures ErrorsLocal(TripleSchema)
  {
    var s := TripleSchema;
    forall m1, m2, e | e in ErrorsOf(s.build(m2))
      ensures |e.loc| > 0 && e.loc[0].Key? && (SameEntry(m1, m2, e.loc[0].name) ==> e in ErrorsOf(s.build(m1)))
    {
      TripleErrorsLocal(m1, m2, e);
    }
  }

  lemma TripleLawful()
    ensures Lawful(TripleSchema, Unconstrained())
  {
    var s := TripleSchema;
    forall x ensures s.build(s.dump(x)) == Ok(x) {
      TripleRoundTrip(x);
    }
    forall m | s.build(m).Ok? ensures forall f :: f in s.fields ==> s.dump(s.build(m).value)[f] == Given(m, f) {
      TripleFieldsGiven(m);
    }
    forall m, k ensures Error([Key(k)], ExtraForbidden) in ErrorsOf(s.build(m)) <==> k in m && k !in s.fields {
      TripleClosedWorld(m, k);
    }
    forall m ensures ShapeErrorsOnly(ErrorsOf(s.build(m))) {
      TripleErrorKinds(m);
    }
    TripleReportsLocally();
  }

  const ScientificClaimSchema: Schema<ScientificClaim> :=
    Schema(ClaimFields, {}, ClaimFields, NewScientificClaim, DumpScientificClaim)

  lemma ScientificClaimReportsLocally()
    ensures ErrorsLocal(ScientificClaimSchema)
  {
    var s := ScientificClaimSchema;
    forall m1, m2, e | e in ErrorsOf(s.build(m2))
      ensures |e.loc| > 0 && e.loc[0].Key? && (SameEntry(m1, m2, e.loc[0].name) ==> e in ErrorsOf(s.build(m1)))
    {
      ScientificClaimErrorsLocal(m1, m2, e);
    }
  }

  lemma ScientificClaimLawful()
    ensures Lawful(ScientificClaimSchema, Unconstrained())
  {
    var s := ScientificClaimSchema;
    forall x ensures s.build(s.dump(x)) == Ok(x) {
      ScientificClaimRoundTrip(x);
    }
    forall m ensures ShapeErrorsOnly(ErrorsOf(s.build(m))) {
      ScientificClaimErrorKinds(m);
    }
    ScientificClaimReportsLocally();
  }

  function RelationshipSchema(k: RelationKind): Schema<Relationship> {
    Schema(RelationshipFields(k), {}, RelationshipFields(k), m => NewRelationship(k, m), DumpRelationship)
  }

  /** A record of a relationship class is a relationship of that class's kind. */
  function OfRelation(k: RelationKind): Relationship -> bool {
    (r: Relationship) => r.kind == k
  }

  lemma RelationshipRoundTrips(k: RelationKind)
    ensures RoundTrips(RelationshipSchema(k), OfRelation(k)) && StoresPlain(RelationshipSchema(k))
  {
    var s := RelationshipSchema(k);
    forall x: Relationship | x.kind == k ensures s.build(s.dump(x)) == Ok(x) {
      RelationshipRoundTrip(x);
    }
    forall m | s.build(m).Ok? {
      RelationshipFieldsGiven(k, m);
    }
  }

  lemma RelationshipReportsLocally(k: RelationKind)
    ensures ErrorsLocal(RelationshipSchema(k))
  {
    var s := RelationshipSchema(k);
    forall m1, m2, e | e in ErrorsOf(s.build(m2))
      ensures |e.loc| > 0 && e.loc[0].Key? && (SameEntry(m1, m2, e.loc[0].name) ==> e in ErrorsOf(s.build(m1)))
    {
      RelationshipErrorsLocal(k, m1, m2, e);
    }
  }

  lemma RelationshipLawful(k: RelationKind)
    ensures Lawful(RelationshipSchema(k), OfRelation(k))
  {
    var s := RelationshipSchema(k);
    RelationshipRoundTrips(k);
    forall m, key ensures Error([Key(key)], ExtraForbidden) in ErrorsOf(s.build(m)) <==> key in m && key !in s.fields {
      RelationshipClosedWorld(k, m, key);
    }
    forall m ensures ShapeErrorsOnly(ErrorsOf(s.build(m))) {
      RelationshipErrorKinds(k, m);
    }
    RelationshipReportsLocally(k);
  }

  // ---------------------------------------------------------------------------
  // Publication, AnnotatorResult, TextWithTriples, TextWithEntity, ExtractionResult
  // ---------------------------------------------------------------------------

  const PublicationSchema: Schema<Publication> :=
    Schema(PublicationFields, {}, PublicationFields, NewPublication, DumpPublication)

  lemma PublicationReportsLocally()
    ensures ErrorsLocal(PublicationSchema)
  {
    var s := PublicationSchema;
    forall m1, m2, e | e in ErrorsOf(s.build(m2))
      ensures |e.loc| > 0 && e.loc[0].Key? && (SameEntry(m1, m2, e.loc[0].name) ==> e in ErrorsOf(s.build(m1)))
    {
      PublicationErrorsLocal(m1, m2, e);
    }
  }

  lemma PublicationLawful()
    ensures Lawful(PublicationSchema, Unconstrained())
  {
    var s := PublicationSchema;
    forall x ensures s.build(s.dump(x)) == Ok(x) {
      PublicationRoundTrip(x);
    }
    forall m | s.build(m).Ok? {
      PublicationFieldsGiven(m);
    }
    forall m, k ensures Error([Key(k)], ExtraForbidden) in ErrorsOf(s.build(m)) <==> k in m && k !in s.fields {
      PublicationClosedWorld(m, k);
    }
    forall m ensures ShapeErrorsOnly(ErrorsOf(s.build(m))) {
      PublicationAllOptional(m);
    }
    PublicationReportsLocally();
  }

  const AnnotatorResultSchema: Schema<AnnotatorResult> :=
    Schema(AnnotatorFields, {}, AnnotatorFields, NewAnnotatorResult, DumpAnnotatorResult)

  lemma AnnotatorResultReportsLocally()
    ensures ErrorsLocal(AnnotatorResultSchema)
  {
    var s := AnnotatorResultSchema;
    forall m1, m2, e | e in ErrorsOf(s.build(m2))
      ensures |e.loc| > 0 && e.loc[0].Key? && (SameEntry(m1, m2, e.loc[0].name) ==> e in ErrorsOf(s.build(m1)))
    {
      AnnotatorErrorsLocal(m1, m2, e);
    }
  }

  lemma AnnotatorResultLawful()
    ensures Lawful(AnnotatorResultSchema, Unconstrained())
  {
    var s := AnnotatorResultSchema;
    forall x ensures s.build(s.dump(x)) == Ok(x) {
      AnnotatorRoundTrip(x);
    }
    forall m | s.build(m).Ok? {
      AnnotatorFieldsGiven(m);
    }
    forall m, k ensures Error([Key(k)], ExtraForbidden) in ErrorsOf(s.build(m)) <==> k in m && k !in s.fields {
      AnnotatorClosedWorld(m, k);
    }
    forall m ensures ShapeErrorsOnly(ErrorsOf(s.build(m))) {
      AnnotatorErrorKinds(m);
    }
    AnnotatorResultReportsLocally();
  }

  const TextWithTriplesSchema: Schema<TextWithTriples> :=
    Schema(TextWithTriplesFields, {}, {}, NewTextWithTriples, DumpTextWithTriples)

  lemma TextWithTriplesLocal()
    ensures FieldLocal(TextWithTriplesSchema)
  {
    var s := TextWithTriplesSchema;
    forall m1, m2, f | s.build(m1).Ok? && s.build(m2).Ok? && f in s.fields && Given(m1, f) == Given(m2, f)
      ensures Given(s.dump(s.build(m1).value), f) == Given(s.dump(s.build(m2).value), f)
    {
      TextWithTriplesFieldLocal(m1, m2, f);
    }
  }

  lemma TextWithTriplesReportsLocally()
    ensures ErrorsLocal(TextWithTriplesSchema)
  {
    var s := TextWithTriplesSchema;
    forall m1, m2, e | e in ErrorsOf(s.build(m2))
      ensures |e.loc| > 0 && e.loc[0].Key? && (SameEntry(m1, m2, e.loc[0].name) ==> e in ErrorsOf(s.build(m1)))
    {
      TextWithTriplesErrorsLocal(m1, m2, e);
    }
  }

  lemma TextWithTriplesLawful()
    ensures Lawful(TextWithTriplesSchema, Unconstrained())
  {
    var s := TextWithTriplesSchema;
    TextWithTriplesLocal();
    forall x ensures s.build(s.dump(x)) == Ok(x) {
      TextWithTriplesRoundTrip(x);
    }
    forall m, k ensures Error([Key(k)], ExtraForbidden) in ErrorsOf(s.build(m)) <==> k in m && k !in s.fields {
      TextWithTriplesClosedWorld(m, k);
    }
    forall m ensures ShapeErrorsOnly(ErrorsOf(s.build(m))) {
      TextWithTriplesErrorKinds(m);
    }
    TextWithTriplesReportsLocally();
  }

  const TextWithEntitySchema: Schema<TextWithEntity> :=
    Schema(TextWithEntityFields, {}, {N.Entities}, NewTextWithEntity, DumpTextWithEntity)

  lemma TextWithEntityLocal()
    ensures FieldLocal(TextWithEntitySchema)
  {
    var s := TextWithEntitySchema;
    forall m1, m2, f | s.build(m1).Ok? && s.build(m2).Ok? && f in s.fields && Given(m1, f) == Given(m2, f)
      ensures Given(s.dump(s.build(m1).value), f) == Given(s.dump(s.build(m2).value), f)
    {
      TextWithEntityFieldLocal(m1, m2, f);
    }
  }

  lemma TextWithEntityReportsLocally()
    ensures ErrorsLocal(TextWithEntitySchema)
  {
    var s := TextWithEntitySchema;
    forall m1, m2, e | e in ErrorsOf(s.build(m2))
      ensures |e.loc| > 0 && e.loc[0].Key? && (SameEntry(m1, m2, e.loc[0].name) ==> e in ErrorsOf(s.build(m1)))
    {
      TextWithEntityErrorsLocal(m1, m2, e);
    }
  }

  lemma TextWithEntityLawful()
    ensures Lawful(TextWithEntitySchema, Unconstrained())
  {
    var s := TextWithEntitySchema;
    TextWithEntityLocal();
    forall x ensures s.build(s.dump(x)) == Ok(x) {
      TextWithEntityRoundTrip(x);
    }
    forall m, k ensures Error([Key(k)], ExtraForbidden) in ErrorsOf(s.build(m)) <==> k in m && k !in s.fields {
      TextWithEntityClosedWorld(m, k);
    }
    forall m ensures ShapeErrorsOnly(ErrorsOf(s.build(m))) {
      TextWithEntityErrorKinds(m);
    }
    TextWithEntityReportsLocally();
  }

  const ExtractionResultSchema: Schema<ExtractionResult> :=
    Schema(ExtractionFields, {}, ExtractionFields, NewExtractionResult, DumpExtractionResult)

  lemma ExtractionResultReportsLocally()
    ensures ErrorsLocal(ExtractionResultSchema)
  {
    var s := ExtractionResultSchema;
    forall m1, m2, e | e in ErrorsOf(s.build(m2))
      ensures |e.loc| > 0 && e.loc[0].Key? && (SameEntry(m1, m2, e.loc[0].name) ==> e in ErrorsOf(s.build(m1)))
    {
      ExtractionErrorsLocal(m1, m2, e);
    }
  }

  lemma ExtractionResultLawful()
    ensures Lawful(ExtractionResultSchema, Unconstrained())
  {
    var s := ExtractionResultSchema;
    forall x ensures s.build(s.dump(x)) == Ok(x) {
      ExtractionRoundTrip(x);
    }
    forall m | s.build(m).Ok? {
      ExtractionFieldsGiven(m);
    }
    forall m, k ensures Error([Key(k)], ExtraForbidden) in ErrorsOf(s.build(m)) <==> k in m && k !in s.fields {
      ExtractionClosedWorld(m, k);
    }
    forall m ensures ShapeErrorsOnly(ErrorsOf(s.build(m))) {
      ExtractionErrorKinds(m);
    }
    ExtractionResultReportsLocally();
  }
}

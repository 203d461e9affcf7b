/**
 * One extraction from draft values to the envelope: a NutrientToDiseaseRelationship built
 * from the four draft values, a Document holding it, and an ExtractionResult carrying that
 * Document's fields as its `extracted_object`.
 */
module Scenario {
  import N = Names
  import opened Values
  import opened Claims
  import opened Documents
  import opened Envelopes
  import opened Entities

  const Draft: map<N.Name, Value> := map[
    N.Nutrient := Str("vitamin D"), N.Relationship := Str("DECREASES RISK OF"),
    N.Disease := Str("rickets"), N.References := List([Str("3")])]

  const Rickets: Relationship :=
    Relationship(ToDisease, Some("vitamin D"), Some("DECREASES RISK OF"), Some("rickets"), Some(["3"]))

  /** The Document's input: its `id` and a one-item disease list, the item given as a mapping. */
  const DocumentInput: map<N.Name, Value> := map[
    N.Id := Str("DOC:1"), N.NutrientToDiseaseRelationships := List([Object(Draft)])]

  const RicketsDocument: Document := Document("DOC:1", None, None, Some([Rickets]), None, None, None, None, None)

  /** The disease list of the Document input builds the one relationship. */
  lemma DraftListBuilds()
    ensures RelationsField(DocumentInput, ToDisease) == Ok(Some([Rickets]))
  {
    VitaminDRicketsDraft();
    var items := DocumentInput[N.NutrientToDiseaseRelationships].items;
    assert items == [Object(Draft)];
    assert AllRelationships(ToDisease, items);
    assert Relationships(ToDisease, items) == [Rickets];
  }

  /** Every other relationship list of the Document input is absent. */
  lemma OtherListsAbsent(k: RelationKind)
    requires k != ToDisease
    ensures RelationsField(DocumentInput, k) == Ok(None)
  {
    assert ListField(k) != N.NutrientToDiseaseRelationships;
  }

  /** Each field of the Document input is well typed and every key is declared. */
  lemma DocumentInputTyped()
    ensures ReqStrField(DocumentInput, N.Id) == Ok("DOC:1")
    ensures OptStrField(DocumentInput, N.Label) == Ok(None)
    ensures SpansField(DocumentInput) == Ok(None)
    ensures RelationsTyped(DocumentInput) && DocumentInput.Keys <= DocumentFields
    ensures forall k: RelationKind :: RelationsField(DocumentInput, k) == Ok(if k == ToDisease then Some([Rickets]) else None)
  {
    DraftListBuilds();
    forall k: RelationKind | k != ToDisease ensures RelationsField(DocumentInput, k) == Ok(None) {
      OtherListsAbsent(k);
    }
  }

  /** The Document input builds a Document with the relationship and five absent lists. */
  lemma DocumentBuilds()
    ensures NewDocument(DocumentInput) == Ok(RicketsDocument)
  {
    DocumentInputTyped();
    NewDocumentFromFields(DocumentInput);
  }

  /** The dump of the Document holds the relationship's dump in the disease list. */
  lemma RicketsDocumentDump()
    ensures DumpDocument(RicketsDocument)[N.NutrientToDiseaseRelationships] == List([Object(DumpRelationship(Rickets))])
  {
    DumpDocumentList(RicketsDocument, ToDisease);
    assert RelationshipValues([Rickets]) == [Object(DumpRelationship(Rickets))];
  }

  /** Wrapping the Document's fields in an ExtractionResult with the source sentence succeeds,
      and the disease of the first disease relationship reads back as "rickets". */
  lemma RicketsEndToEnd(sentence: string)
    ensures NewDocument(DocumentInput) == Ok(RicketsDocument)
    ensures
      var x := NewExtractionResult(map[N.InputText := Str(sentence), N.ExtractedObject := Object(DumpDocument(RicketsDocument))]);
      && x.Ok? && x.value.inputText == Some(sentence)
      && x.value.extractedObject.Object?
      && x.value.extractedObject.entries[N.NutrientToDiseaseRelationships] == List([Object(DumpRelationship(Rickets))])
      && DumpRelationship(Rickets)[N.Disease] == Str("rickets")
  {
    DocumentBuilds();
    RicketsDocumentDump();
    ExtractionWraps(sentence, Object(DumpDocument(RicketsDocument)));
  }
}

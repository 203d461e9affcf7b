# MIC extraction template: a verified model of its validation rules

OntoGPT's Micronutrient Information Center template (`src/ontogpt/templates/mic.py`) is a
generated pydantic schema: one class per record of a micronutrient extraction (named
entities, the six nutrient relationships, the Document that collects them, and the envelope
records around an extraction run). Nothing in it computes beyond validation, and that
validation is what this project models and proves things about:

- **The span check** `pattern_original_spans`. It is copied into NamedEntity and each of its
  eight subclasses (RelationshipType, Document and the six domain entity kinds). It matches a
  single string against `^\d+:\d+$` under `re.match`, lets `None` through, and returns its argument unchanged. Its list branch tests
  `isinstance(v, str)` on the list itself, so a list of spans is never checked
  (modules `Spans`, `SpanValidator`).
- **Construction** of every class from an untyped key/value mapping (`Values.Value`, a
  JSON-like value), with the shared configuration `extra="forbid"`:
  - the result is the record, or the set of all errors found, each with its location path, as
    pydantic reports them together;
  - error kinds are: an undeclared key, a missing required field, a value of the wrong type;
  - nested records (a Document's relationship lists, a `publication`, `triples`) are built by
    their own class's rules, and their errors are reported under the enclosing field and index
    (modules `Entities`, `Claims`, `Documents`, `Envelopes`).
- **`model_dump`** of every class, and the round trip: building a record from its own dump gives
  the record back.
- **`validate_assignment=True`**. pydantic validates the new value `v` against field `f` and
  keeps the other fields. The model states this as validating the whole record again from its
  own dump with `v` in place of `f`'s value. `Models.AssignKeepsOtherFields` and
  `Models.AssignErrorKinds` show the outcome is the same: every other field is kept, and every
  error is reported under `f`. This is stated once for every class through `Models.Schema`:
  a class's fields, required fields, constructor and dump. `Models.Lawful` collects the facts
  each class is proved to satisfy in `Schemas` (round trip, closed world, error kinds, field
  locality, error locality); the assignment lemmas are proved from those.
- **`NullDataOptions`**, a string enumeration (module `Enums`).

Keys are strings in the source. Here a key is a `Names.Name`: one constructor per field name
the schema declares, plus `Other(s)` for every other string. `Names.Parse` and `Names.Text`
convert between the two: `Parse` is proved one-to-one, and `Text` inverts it.

Two behaviours of the code are easy to misread:

- `id` is declared `str = Field(...)` in NamedEntity and in every subclass. It is therefore
  required on every entity kind at construction, not only on Document.
- Listed spans are not pattern-checked. Only a bare string reaches the pattern. On a field
  declared `Optional[List[str]]`, a bare string is already refused by the list type check, so
  building a record never reports a malformed span. `SpanValidator.PerElementSpans` is the
  per-element check that the loop's `pattern.match(element)` was evidently meant to perform
  (mic.py:142-146); `SpanValidator.AsWrittenIsWeaker` and
  `SpanValidator.ListedDashSeparates` show where the two differ.
- `extracted_object` is typed `Optional[Any]` and `named_entities` `Optional[List[Any]]`.
  Nothing makes the former a Document: any value is kept as given.

## Model

| member | source | states |
|---|---|---|
| Spans.MatchesIffInLanguage | src/ontogpt/templates/mic.py:140 | the matcher accepts a string exactly when it is digits, ':', digits, with at most one trailing newline (how `$` behaves under `re.match`) |
| Spans.RunLeft | src/ontogpt/templates/mic.py:140 | from inside the start offset, the matcher accepts exactly the strings that have a colon with digits before it and a valid end offset after it |
| Spans.RunRight | src/ontogpt/templates/mic.py:140 | inside the end offset, the matcher accepts exactly digits, optionally followed by one final newline |
| Spans.ColonAccepts | src/ontogpt/templates/mic.py:140 | after the colon, the matcher accepts exactly a valid end offset |
| Spans.RunNewline | src/ontogpt/templates/mic.py:140 | after the tolerated newline, nothing more may follow |
| Spans.RunDead | src/ontogpt/templates/mic.py:140 | once the match has failed, no continuation succeeds |
| Spans.AcceptedExamples | src/ontogpt/templates/mic.py:132 | "10:25", "0:0" and "10:25\n" are spans |
| Spans.RejectedExamples | src/ontogpt/templates/mic.py:140 | "10-25", ":25", "10:", "", a second trailing newline, a leading newline and an inner space are not spans |
| SpanValidator.PatternOriginalSpans | src/ontogpt/templates/mic.py:138-148 | on success the value is returned unchanged; the only failure is a malformed single string, reported with that string; `None` and every list pass |
| SpanValidator.ListLoop | src/ontogpt/templates/mic.py:142-144 | the loop over a list never raises, because its guard tests the list rather than the element |
| SpanValidator.ValidatorAcceptsExactlySpans | src/ontogpt/templates/mic.py:145-147 | a single string passes exactly when it is in the span language |
| SpanValidator.ValidatorIdempotent | src/ontogpt/templates/mic.py:148 | applying the validator to its own result gives the same outcome |
| SpanValidator.ListedSpansNeverChecked | src/ontogpt/templates/mic.py:141-144 | every list of strings passes, whatever its elements |
| SpanValidator.ValidatorExamples | src/ontogpt/templates/mic.py:138-148 | "10:25" and "10:25\n" pass, "10-25" fails naming itself, ["10-25"] and None pass unchanged |
| SpanValidator.FirstMalformed | src/ontogpt/templates/mic.py:142-144 | finds a malformed string element of a list exactly when there is one |
| SpanValidator.PerElementSpans | src/ontogpt/templates/mic.py:141-147 | the per-element check the guard was meant to perform: a list passes exactly when every string element is a span |
| SpanValidator.AsWrittenIsWeaker | src/ontogpt/templates/mic.py:143 | whatever the per-element check accepts, the code as written accepts; the two differ only on lists |
| SpanValidator.ListedDashSeparates | src/ontogpt/templates/mic.py:143 | ["10-25"] passes the code as written and fails the per-element check |
| Values.OptStrField | src/ontogpt/templates/mic.py:126 | an `Optional[str] = None` field accepts an absent key, null or a string, stores None or the string, and otherwise reports a type error at that key |
| Values.ReqStrField | src/ontogpt/templates/mic.py:122 | a `str = Field(...)` field reports "missing" exactly when the key is absent, and a type error for any non-string, null included |
| Values.OptStrListField | src/ontogpt/templates/mic.py:132 | an `Optional[List[str]] = None` field accepts exactly an unset key or a list of strings, dumps back to what was given, and reports only type errors located under its key |
| Values.UnknownKeys | src/ontogpt/templates/mic.py:39 | `extra="forbid"`: exactly one "extra forbidden" error per key outside the declared fields, and none when every key is declared |
| Values.Given | src/ontogpt/templates/mic.py:110 | an absent optional field reads as None |
| Values.Nest | src/ontogpt/templates/mic.py:177 | the errors of a nested record are reported under the enclosing field, one for one |
| Values.GivenDecides | src/ontogpt/templates/mic.py:110 | whether a field is unset, and its value when set, depend only on what was given for it |
| Values.OptStrRoundTrip | src/ontogpt/templates/mic.py:126 | the dump of an optional string field validates back to the same value |
| Values.StrListRoundTrip | src/ontogpt/templates/mic.py:132 | the dump of an optional string list validates back to the same value |
| Values.OptStrFieldLocal | src/ontogpt/templates/mic.py:126 | an `Optional[str]` field reports its type error at its own key, from what is given for that key alone |
| Values.ReqStrFieldLocal | src/ontogpt/templates/mic.py:122 | a required string field reports its error at its own key, from what is given for that key alone |
| Values.OptStrListFieldLocal | src/ontogpt/templates/mic.py:132 | an `Optional[List[str]]` field reports its errors under its own key, from what is given for that key alone |
| Values.UnknownKeysLocal | src/ontogpt/templates/mic.py:39 | an undeclared key is reported under itself whenever it is given, whatever else is given |
| Entities.NewEntity | src/ontogpt/templates/mic.py:119-148 | a NamedEntity of any kind is built exactly when every key is declared and the three fields are well typed, and it holds what was given |
| Entities.SpansField | src/ontogpt/templates/mic.py:132-148 | `original_spans` is the list type check followed by `pattern_original_spans`, and the validator never changes the type check's outcome |
| Entities.EntityErrorsExactly | src/ontogpt/templates/mic.py:119-148 | an error is reported exactly when: `id` is absent (missing) or not a string, `label` is neither unset nor a string, `original_spans` is neither unset nor a list, an item of `original_spans` is not a string (at its index), or a key is undeclared |
| Entities.EntityErrorsLocal | src/ontogpt/templates/mic.py:119-148 | for every entity kind, every error is reported under a key, and what is reported under a key depends only on what is given for that key |
| Entities.EntityClosedWorld | src/ontogpt/templates/mic.py:39 | an undeclared key is reported exactly when it is given |
| Entities.EntityIdRequired | src/ontogpt/templates/mic.py:122 | "missing" is reported for `id` exactly when it is absent, and for no other field |
| Entities.EntityNeverSpanError | src/ontogpt/templates/mic.py:132-148 | construction never reports a malformed span: a bare string fails the list type check first, and lists are never checked |
| Entities.DumpEntity | src/ontogpt/templates/mic.py:119-136 | the dump of an entity has exactly its three fields |
| Entities.EntityRoundTrip | src/ontogpt/templates/mic.py:119-136 | building an entity from its dump gives the entity back |
| Entities.SameRulesForEveryKind | src/ontogpt/templates/mic.py:195-225 | every entity kind reports the same errors on the same input and builds the same record |
| Entities.OnlyIdRequired | src/ontogpt/templates/mic.py:122-132 | `id` alone builds an entity with `label` and `original_spans` None; without `id` construction fails |
| Entities.AnyListedSpansAccepted | src/ontogpt/templates/mic.py:141-144 | any list of strings is accepted as `original_spans` and stored as given |
| Entities.BareStringSpansRejected | src/ontogpt/templates/mic.py:132 | a bare string for `original_spans` is a type error, whether or not it is a span |
| Claims.NewCompoundExpression | src/ontogpt/templates/mic.py:151-154 | CompoundExpression declares no field: only the empty mapping builds one, and every key is reported |
| Claims.CompoundExpressionRoundTrip | src/ontogpt/templates/mic.py:151-154 | its empty dump builds it back |
| Claims.CompoundExpressionErrorsLocal | src/ontogpt/templates/mic.py:151-154 | every key given to CompoundExpression is reported under itself, whatever else is given |
| Claims.NewTriple | src/ontogpt/templates/mic.py:157-168 | a Triple is built exactly when every key is one of its six fields and each is a string or unset |
| Claims.TripleFieldsGiven | src/ontogpt/templates/mic.py:163-168 | a built Triple holds each field as given |
| Claims.DumpTriple | src/ontogpt/templates/mic.py:157-168 | the dump of a Triple has exactly its six fields |
| Claims.TripleRoundTrip | src/ontogpt/templates/mic.py:157-168 | building a Triple from its dump gives it back |
| Claims.TripleErrorKinds | src/ontogpt/templates/mic.py:163-168 | a Triple reports only undeclared keys and type errors |
| Claims.TripleClosedWorld | src/ontogpt/templates/mic.py:39 | an undeclared key is reported exactly when it is given |
| Claims.TripleErrorsLocal | src/ontogpt/templates/mic.py:157-168 | for Triple, every error is reported under a key, and what is reported under a key depends only on what is given for that key |
| Claims.NewScientificClaim | src/ontogpt/templates/mic.py:691-697 | a ScientificClaim is built exactly when its only key is `references` holding a list of strings or unset; undeclared keys are reported exactly when given |
| Claims.DumpScientificClaim | src/ontogpt/templates/mic.py:697 | the dump holds exactly `references` |
| Claims.ScientificClaimErrorKinds | src/ontogpt/templates/mic.py:691-697 | only undeclared keys and type errors are reported |
| Claims.ScientificClaimRoundTrip | src/ontogpt/templates/mic.py:691-697 | building a ScientificClaim from its dump gives it back |
| Claims.ScientificClaimErrorsLocal | src/ontogpt/templates/mic.py:691-697 | for ScientificClaim, every error is reported under a key, and what is reported under a key depends only on what is given for that key |
| Claims.NewRelationship | src/ontogpt/templates/mic.py:700-815 | a relationship of each kind is built exactly when every key is one of that kind's four fields and each is well typed |
| Claims.RelationshipFieldsGiven | src/ontogpt/templates/mic.py:704-718 | a built relationship holds each of its fields as given |
| Claims.DumpRelationship | src/ontogpt/templates/mic.py:700-815 | the dump of a relationship has exactly its kind's four fields |
| Claims.RelationshipClosedWorld | src/ontogpt/templates/mic.py:766-775 | an undeclared key is reported exactly when it is given |
| Claims.RelationshipErrorsLocal | src/ontogpt/templates/mic.py:700-815 | for every relationship class, every error is reported under a key, and what is reported under a key depends only on what is given for that key |
| Claims.RelationshipErrorKinds | src/ontogpt/templates/mic.py:700-815 | no relationship field is required or pattern-checked: only undeclared keys and type errors |
| Claims.RelationshipRoundTrip | src/ontogpt/templates/mic.py:700-815 | building a relationship from its dump gives it back |
| Claims.RelationshipAllOptional | src/ontogpt/templates/mic.py:704-718 | the empty mapping builds a relationship with all four fields None |
| Claims.RelationshipShapes | src/ontogpt/templates/mic.py:762-775 | every kind has four fields; five share `nutrient`, `relationship`, `references` and one object field; NutrientToNutrient has `nutrient_subject`/`nutrient_object` and no `nutrient` |
| Claims.NutrientKeyRefusedByNutrientToNutrient | src/ontogpt/templates/mic.py:766-775 | a `nutrient` key makes NutrientToNutrientRelationship fail with that key reported |
| Claims.VitaminDRicketsDraft | src/ontogpt/templates/mic.py:700-718 | the vitamin D / rickets draft builds a NutrientToDiseaseRelationship exposing its four values unchanged |
| Documents.RelationshipItem | src/ontogpt/templates/mic.py:252 | a list item is built as a relationship of the list's kind; an item that is not a mapping is a single type error at the item itself |
| Documents.Relationships | src/ontogpt/templates/mic.py:252 | the relationships a list builds, one per item and in order |
| Documents.RelationsField | src/ontogpt/templates/mic.py:252 | a relationship list is accepted exactly when unset, or a list whose every item builds a relationship of its kind |
| Documents.RelationsFieldErrors | src/ontogpt/templates/mic.py:252 | a list reports its errors under its own name: only undeclared keys and type errors, and at the top level only type errors |
| Documents.ItemErrorsOf | src/ontogpt/templates/mic.py:252 | the errors of a list's items lie below the list field and an index, and are undeclared keys or type errors |
| Documents.RelationsFieldLocal | src/ontogpt/templates/mic.py:252 | a list's outcome depends only on the value given for it |
| Documents.RelationsErrors | src/ontogpt/templates/mic.py:252-418 | the lists report no error exactly when each of them is accepted |
| Documents.RelationsErrorsInclude | src/ontogpt/templates/mic.py:252-418 | the errors of the six lists include each list's errors |
| Documents.RelationsErrorsOf | src/ontogpt/templates/mic.py:252-418 | every list error is located under a list field and is an undeclared key or a type error |
| Documents.RelationsErrorsLocal | src/ontogpt/templates/mic.py:252-418 | each relationship list reports its errors under its own name, from what is given for that list alone |
| Documents.NewDocument | src/ontogpt/templates/mic.py:246-445 | a Document is built exactly when every key is declared, the entity fields are well typed and every list is accepted |
| Documents.DocumentFieldsGiven | src/ontogpt/templates/mic.py:419-433 | a built Document holds `id`, `label` and `original_spans` as given |
| Documents.DumpEntityFieldsGiven | src/ontogpt/templates/mic.py:419-433 | a Document made of the entity fields' checks dumps them back as given |
| Documents.DocumentRelations | src/ontogpt/templates/mic.py:252-418 | each list of a built Document is what its check produced, and holds relationships of its own kind only |
| Documents.ListKind | src/ontogpt/templates/mic.py:252-418 | each list field belongs to exactly one relationship kind |
| Documents.RelationsListLocal | src/ontogpt/templates/mic.py:252-418 | what a built Document holds in the list of a kind depends only on the value given for it |
| Documents.DocumentListLocal | src/ontogpt/templates/mic.py:252-418 | what a built Document holds in a list field depends only on the value given for it |
| Documents.NewDocumentValid | src/ontogpt/templates/mic.py:252-418 | every relationship in a built Document's list has that list's kind |
| Documents.RelationshipValues | src/ontogpt/templates/mic.py:252 | the dump of a relationship list, one dumped mapping per relationship |
| Documents.DumpDocument | src/ontogpt/templates/mic.py:246-433 | the dump of a Document has exactly its nine fields |
| Documents.DocumentClosedWorld | src/ontogpt/templates/mic.py:39 | an undeclared top-level key is reported exactly when it is given |
| Documents.DocumentErrorsLocal | src/ontogpt/templates/mic.py:246-445 | for Document, every error is reported under a key, and what is reported under a key depends only on what is given for that key, at any depth |
| Documents.DocumentMissingFromId | src/ontogpt/templates/mic.py:419 | every "missing" error of a Document comes from `id` |
| Documents.DocumentIdRequired | src/ontogpt/templates/mic.py:419 | "missing" is reported for `id` exactly when it is absent, and nowhere else at any depth |
| Documents.DocumentNeverSpanError | src/ontogpt/templates/mic.py:429-445 | building a Document never reports a malformed span, at any depth |
| Documents.ListUnknownKeyLocated | src/ontogpt/templates/mic.py:252 | an undeclared key in the i-th item of a list is reported by the list at `[list, i, key]` |
| Documents.NestedUnknownKeyLocated | src/ontogpt/templates/mic.py:252-418 | an undeclared key in the i-th item of a Document's list makes the Document report it at `[list, i, key]` |
| Documents.RelationshipItemRoundTrip | src/ontogpt/templates/mic.py:252 | dumped relationships of a kind build back into the same relationships |
| Documents.RelationsFieldRoundTrip | src/ontogpt/templates/mic.py:252 | the dump of a list validates back to the same list |
| Documents.DumpRelationsRoundTrip | src/ontogpt/templates/mic.py:252-418 | each list of a valid Document's dump validates back to that list |
| Documents.DumpEntityFieldsRoundTrip | src/ontogpt/templates/mic.py:419-433 | the entity fields of a Document's dump validate back to its own values |
| Documents.DocumentRoundTrip | src/ontogpt/templates/mic.py:246-445 | building a valid Document from its dump gives it back |
| Documents.DocumentFromIdOnly | src/ontogpt/templates/mic.py:252-419 | `id` alone builds a Document whose six lists are all None |
| Documents.IdAndEmptyListTyped | src/ontogpt/templates/mic.py:252 | an `id` and an empty list are well typed, and the empty list is accepted as an empty list |
| Documents.EmptyListIsNotAbsent | src/ontogpt/templates/mic.py:252 | an empty list is stored as an empty list, distinct from an absent one |
| Envelopes.NewPublication | src/ontogpt/templates/mic.py:228-235 | a Publication is built exactly when every key is declared and each of its five fields is a string or unset |
| Envelopes.DumpPublication | src/ontogpt/templates/mic.py:228-235 | the dump of a Publication has exactly its five fields |
| Envelopes.PublicationFieldsGiven | src/ontogpt/templates/mic.py:231-235 | a built Publication holds each field as given |
| Envelopes.PublicationRoundTrip | src/ontogpt/templates/mic.py:228-235 | building a Publication from its dump gives it back |
| Envelopes.PublicationClosedWorld | src/ontogpt/templates/mic.py:39 | an undeclared key is reported exactly when it is given |
| Envelopes.PublicationAllOptional | src/ontogpt/templates/mic.py:231 | no field is required, `id` included: the empty mapping builds an all-None Publication |
| Envelopes.PublicationErrorsAtTop | src/ontogpt/templates/mic.py:228-235 | every error of a Publication names one top-level key |
| Envelopes.PublicationErrorsLocal | src/ontogpt/templates/mic.py:228-235 | for Publication, every error is reported under a key, and what is reported under a key depends only on what is given for that key |
| Envelopes.NewAnnotatorResult | src/ontogpt/templates/mic.py:238-243 | an AnnotatorResult is built exactly when every key is declared and its three fields are strings or unset |
| Envelopes.DumpAnnotatorResult | src/ontogpt/templates/mic.py:238-243 | the dump has exactly its three fields |
| Envelopes.AnnotatorFieldsGiven | src/ontogpt/templates/mic.py:241-243 | a built AnnotatorResult holds each field as given |
| Envelopes.AnnotatorErrorKinds | src/ontogpt/templates/mic.py:238-243 | only undeclared keys and type errors are reported |
| Envelopes.AnnotatorRoundTrip | src/ontogpt/templates/mic.py:238-243 | building an AnnotatorResult from its dump gives it back |
| Envelopes.AnnotatorClosedWorld | src/ontogpt/templates/mic.py:241-243 | an undeclared key is reported exactly when given, and the empty mapping builds an all-None result |
| Envelopes.AnnotatorErrorsLocal | src/ontogpt/templates/mic.py:238-243 | for AnnotatorResult, every error is reported under a key, and what is reported under a key depends only on what is given for that key |
| Envelopes.PublicationField | src/ontogpt/templates/mic.py:177-179 | a nested `publication` is accepted exactly when unset or a mapping that builds a Publication, and its errors are reported under `publication` |
| Envelopes.NestedPublicationErrorLocated | src/ontogpt/templates/mic.py:177-179 | every error of the nested Publication is reported under `publication` |
| Envelopes.PublicationFieldErrors | src/ontogpt/templates/mic.py:177-179 | a nested `publication` reports only undeclared keys and type errors, located under `publication` |
| Envelopes.PublicationFieldLocal | src/ontogpt/templates/mic.py:177-179 | its outcome depends only on the value given for `publication` |
| Envelopes.PublicationFieldRoundTrip | src/ontogpt/templates/mic.py:177-179 | the dump of a nested Publication validates back to it |
| Envelopes.TripleItem | src/ontogpt/templates/mic.py:180 | a failed `triples` item carries at least one error |
| Envelopes.TriplesOf | src/ontogpt/templates/mic.py:180 | the Triples a list builds, one per item and in order |
| Envelopes.TriplesField | src/ontogpt/templates/mic.py:180 | `triples` is accepted exactly when unset or a list whose every item builds a Triple |
| Envelopes.TriplesFieldErrors | src/ontogpt/templates/mic.py:180 | `triples` reports only undeclared keys and type errors, located under `triples` |
| Envelopes.TriplesFieldLocal | src/ontogpt/templates/mic.py:180 | its outcome depends only on the value given for `triples` |
| Envelopes.TripleValues | src/ontogpt/templates/mic.py:180 | the dump of a Triple list, one dumped mapping per Triple |
| Envelopes.TriplesFieldRoundTrip | src/ontogpt/templates/mic.py:180 | the dump of a Triple list validates back to it |
| Envelopes.NewTextWithTriples | src/ontogpt/templates/mic.py:171-180 | a TextWithTriples is built exactly when every key is declared and both fields are accepted, and it holds what they produced |
| Envelopes.DumpTextWithTriples | src/ontogpt/templates/mic.py:171-180 | the dump has exactly its two fields |
| Envelopes.TextWithTriplesRoundTrip | src/ontogpt/templates/mic.py:171-180 | building a TextWithTriples from its dump gives it back |
| Envelopes.TextWithTriplesFieldLocal | src/ontogpt/templates/mic.py:171-180 | what a built TextWithTriples holds in a field depends only on the value given for it |
| Envelopes.TextWithTriplesClosedWorld | src/ontogpt/templates/mic.py:39 | an undeclared key is reported exactly when it is given |
| Envelopes.TextWithTriplesErrorsLocal | src/ontogpt/templates/mic.py:171-180 | for TextWithTriples, every error is reported under a key, and what is reported under a key depends only on what is given for that key, nested errors included |
| Envelopes.TextWithTriplesErrorKinds | src/ontogpt/templates/mic.py:171-180 | only undeclared keys and type errors are reported, at any depth |
| Envelopes.NewTextWithEntity | src/ontogpt/templates/mic.py:183-192 | a TextWithEntity is built exactly when every key is declared, `publication` is accepted and `entities` is a list of strings or unset; `entities` is stored as given |
| Envelopes.DumpTextWithEntity | src/ontogpt/templates/mic.py:183-192 | the dump has exactly its two fields |
| Envelopes.TextWithEntityRoundTrip | src/ontogpt/templates/mic.py:183-192 | building a TextWithEntity from its dump gives it back |
| Envelopes.TextWithEntityFieldLocal | src/ontogpt/templates/mic.py:183-192 | what a built TextWithEntity holds in a field depends only on the value given for it |
| Envelopes.TextWithEntityClosedWorld | src/ontogpt/templates/mic.py:39 | an undeclared key is reported exactly when it is given |
| Envelopes.TextWithEntityErrorsLocal | src/ontogpt/templates/mic.py:183-192 | for TextWithEntity, every error is reported under a key, and what is reported under a key depends only on what is given for that key, nested errors included |
| Envelopes.TextWithEntityErrorKinds | src/ontogpt/templates/mic.py:183-192 | only undeclared keys and type errors are reported, at any depth |
| Envelopes.AnyListField | src/ontogpt/templates/mic.py:116 | `Optional[List[Any]]` accepts exactly an unset key or any list, and keeps its items as given |
| Envelopes.NewExtractionResult | src/ontogpt/templates/mic.py:104-116 | an ExtractionResult is built exactly when every key is declared, the five text fields are strings or unset and `named_entities` is a list or unset |
| Envelopes.DumpExtractionResult | src/ontogpt/templates/mic.py:104-116 | the dump has exactly its seven fields |
| Envelopes.ExtractionChecksGiven | src/ontogpt/templates/mic.py:110-116 | the record made of the field checks dumps each field back as given |
| Envelopes.ExtractionFieldsGiven | src/ontogpt/templates/mic.py:110-116 | a built ExtractionResult holds each field as given, the `Any` fields untouched |
| Envelopes.ExtractionRoundTrip | src/ontogpt/templates/mic.py:104-116 | building an ExtractionResult from its dump gives it back |
| Envelopes.ExtractionErrorKinds | src/ontogpt/templates/mic.py:104-116 | only undeclared keys and type errors are reported |
| Envelopes.ExtractionClosedWorld | src/ontogpt/templates/mic.py:39 | an undeclared key is reported exactly when it is given |
| Envelopes.ExtractionErrorsLocal | src/ontogpt/templates/mic.py:104-116 | for ExtractionResult, every error is reported under a key, and what is reported under a key depends only on what is given for that key |
| Envelopes.ExtractionAllOptional | src/ontogpt/templates/mic.py:110-116 | no field is required: the empty mapping builds an all-None ExtractionResult |
| Envelopes.ExtractionWraps | src/ontogpt/templates/mic.py:112-115 | the input text and any extracted object build an ExtractionResult holding both, the object as given |
| Envelopes.ExtractedObjectUnchecked | src/ontogpt/templates/mic.py:115 | `extracted_object` accepts any value whatever and keeps it, a malformed record included |
| Enums.FromValue | src/ontogpt/templates/mic.py:93-96 | `NullDataOptions(s)` gives the member whose value is `s`, and fails exactly when no member has that value |
| Enums.FromValueOf | src/ontogpt/templates/mic.py:93-96 | member values are distinct: every member is looked up from its own value |
| Models.Assign | src/ontogpt/templates/mic.py:37 | assigning an undeclared attribute is refused with that name |
| Models.AssignValid | src/ontogpt/templates/mic.py:37 | a successful assignment yields a valid record of the class |
| Models.AssignKeepsOtherFields | src/ontogpt/templates/mic.py:37 | a successful assignment leaves every other field as it was |
| Models.AssignStoresValue | src/ontogpt/templates/mic.py:37 | a successful assignment to a plain field stores the value as given |
| Models.AssignSameValue | src/ontogpt/templates/mic.py:37 | assigning a field the value it already holds leaves the record unchanged |
| Models.AssignErrorKinds | src/ontogpt/templates/mic.py:37-39 | a refused assignment reports every error under the assigned field, and only type errors or undeclared keys inside the new value: never a missing field, never one of the record's own keys |
| Schemas.EntityRoundTrips | src/ontogpt/templates/mic.py:119-148 | every entity kind round-trips through its dump and stores its fields as given |
| Schemas.EntityReports | src/ontogpt/templates/mic.py:119-148 | every entity kind reports only undeclared keys, type errors and a missing `id` |
| Schemas.EntityReportsLocally | src/ontogpt/templates/mic.py:119-148 | every entity kind satisfies the error-locality law that `Models.AssignErrorKinds` relies on |
| Schemas.EntityReportsMissing | src/ontogpt/templates/mic.py:122 | every entity kind reports `id` missing exactly when it is absent |
| Schemas.EntityLawful | src/ontogpt/templates/mic.py:119-148 | NamedEntity and each subclass satisfy every law the assignment lemmas rely on |
| Schemas.DocumentRoundTrips | src/ontogpt/templates/mic.py:246-445 | a valid Document round-trips through its dump, and its entity fields are stored as given |
| Schemas.DocumentLocal | src/ontogpt/templates/mic.py:246-445 | what a built Document holds in a field depends only on the value given for it |
| Schemas.DocumentClosedWorldLawful | src/ontogpt/templates/mic.py:39 | Document reports an undeclared key exactly when it is given |
| Schemas.DocumentReports | src/ontogpt/templates/mic.py:246-445 | Document reports only undeclared keys, type errors and a missing `id` |
| Schemas.DocumentReportsLocally | src/ontogpt/templates/mic.py:246-445 | Document satisfies the error-locality law that `Models.AssignErrorKinds` relies on |
| Schemas.DocumentReportsMissing | src/ontogpt/templates/mic.py:419 | Document reports `id` missing exactly when it is absent |
| Schemas.DocumentLawful | src/ontogpt/templates/mic.py:246-445 | Document satisfies every law the assignment lemmas rely on |
| Schemas.CompoundExpressionReportsLocally | src/ontogpt/templates/mic.py:151-154 | CompoundExpression satisfies the error-locality law that `Models.AssignErrorKinds` relies on |
| Schemas.CompoundExpressionLawful | src/ontogpt/templates/mic.py:151-154 | CompoundExpression satisfies every law the assignment lemmas rely on |
| Schemas.TripleReportsLocally | src/ontogpt/templates/mic.py:157-168 | Triple satisfies the error-locality law that `Models.AssignErrorKinds` relies on |
| Schemas.TripleLawful | src/ontogpt/templates/mic.py:157-168 | Triple satisfies every law the assignment lemmas rely on |
| Schemas.ScientificClaimReportsLocally | src/ontogpt/templates/mic.py:691-697 | ScientificClaim satisfies the error-locality law that `Models.AssignErrorKinds` relies on |
| Schemas.ScientificClaimLawful | src/ontogpt/templates/mic.py:691-697 | ScientificClaim satisfies every law the assignment lemmas rely on |
| Schemas.RelationshipReportsLocally | src/ontogpt/templates/mic.py:700-815 | every relationship class satisfies the error-locality law that `Models.AssignErrorKinds` relies on |
| Schemas.RelationshipRoundTrips | src/ontogpt/templates/mic.py:700-815 | each relationship kind round-trips through its dump and stores its fields as given |
| Schemas.RelationshipLawful | src/ontogpt/templates/mic.py:700-815 | each of the six relationship classes satisfies every law the assignment lemmas rely on |
| Schemas.PublicationReportsLocally | src/ontogpt/templates/mic.py:228-235 | Publication satisfies the error-locality law that `Models.AssignErrorKinds` relies on |
| Schemas.PublicationLawful | src/ontogpt/templates/mic.py:228-235 | Publication satisfies every law the assignment lemmas rely on |
| Schemas.AnnotatorResultReportsLocally | src/ontogpt/templates/mic.py:238-243 | AnnotatorResult satisfies the error-locality law that `Models.AssignErrorKinds` relies on |
| Schemas.AnnotatorResultLawful | src/ontogpt/templates/mic.py:238-243 | AnnotatorResult satisfies every law the assignment lemmas rely on |
| Schemas.TextWithTriplesReportsLocally | src/ontogpt/templates/mic.py:171-180 | TextWithTriples satisfies the error-locality law that `Models.AssignErrorKinds` relies on |
| Schemas.TextWithTriplesLocal | src/ontogpt/templates/mic.py:171-180 | what a built TextWithTriples holds in a field depends only on the value given for it |
| Schemas.TextWithTriplesLawful | src/ontogpt/templates/mic.py:171-180 | TextWithTriples satisfies every law the assignment lemmas rely on |
| Schemas.TextWithEntityReportsLocally | src/ontogpt/templates/mic.py:183-192 | TextWithEntity satisfies the error-locality law that `Models.AssignErrorKinds` relies on |
| Schemas.TextWithEntityLocal | src/ontogpt/templates/mic.py:183-192 | what a built TextWithEntity holds in a field depends only on the value given for it |
| Schemas.TextWithEntityLawful | src/ontogpt/templates/mic.py:183-192 | TextWithEntity satisfies every law the assignment lemmas rely on |
| Schemas.ExtractionResultReportsLocally | src/ontogpt/templates/mic.py:104-116 | ExtractionResult satisfies the error-locality law that `Models.AssignErrorKinds` relies on |
| Schemas.ExtractionResultLawful | src/ontogpt/templates/mic.py:104-116 | ExtractionResult satisfies every law the assignment lemmas rely on |
| Scenario.DraftListBuilds | src/ontogpt/templates/mic.py:252 | a one-item disease list holding the vitamin D / rickets draft builds that one relationship |
| Scenario.OtherListsAbsent | src/ontogpt/templates/mic.py:279-418 | the lists not given are None |
| Scenario.DocumentInputTyped | src/ontogpt/templates/mic.py:246-445 | the scenario's Document input passes every field check and declares every key |
| Scenario.DocumentBuilds | src/ontogpt/templates/mic.py:246-445 | `id = "DOC:1"` and the one-item disease list build a Document holding that relationship and five absent lists |
| Scenario.RicketsDocumentDump | src/ontogpt/templates/mic.py:252 | that Document dumps its disease list as the one relationship's dump |
| Scenario.RicketsEndToEnd | src/ontogpt/templates/mic.py:104-116 | wrapping the Document's fields and the source sentence builds an ExtractionResult whose first disease relationship reads "rickets" |

## Left out

- The `linkml_meta` class variables, the module-level `LinkMLMeta` value and its forwarding methods, and the `json_schema_extra` prompt text: metadata that no validation path reads.
- Lax-mode coercion (`strict=False`) and `arbitrary_types_allowed`: a value that is not already a string, list or mapping is a type error here. `Values.Num` stands for every non-string scalar.
- Model instances given as field values: nested records are given as mappings only.
- The `model_rebuild()` calls: forward-reference plumbing of the library.
- Error messages and error order: errors are a set of (location, kind) pairs.
- Unicode digits: `\d` is restricted to '0'..'9'.
- `GOBiologicalProcessType`: an empty `str` subclass that no field uses.
- Span ordering, overlap and identifier prefixes: the code checks none of them.
- Nested fields (the relationship lists, `publication`, `triples`) are dumped from the built records, not as given. `Models.Schema.plain` lists the fields that are stored verbatim, and `Models.AssignStoresValue` is stated for those only.
- Models.Assign: assignment is modelled as a function returning the new record or the errors, not as a change in place of a shared object. Aliasing of a record held elsewhere is therefore not modelled.
- Names.Parse: `Names.TextParse` and `Names.ParseInjective` prove that keys and names correspond one to one. The converse, that `Parse(Text(n))` is `n` for every declared name, is not proved.
- The Document held by `extracted_object` is stored as a mapping of its fields (what `model_dump` gives), since the field is `Any` and model instances are not modelled.

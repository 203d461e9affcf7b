/**
 * The field names of the schema.
 *
 * Every key a model receives is a string. The schema declares a fixed vocabulary
 * of field names; a key is either one of them or some other string. `Name` has one
 * constructor per declared field name and `Other` for every other string, so the
 * validation rules can compare keys by constructor. `Parse` gives a key its `Name`
 * and `Text` writes it back; `Text` undoes `Parse`, so no two keys share a `Name`.
 */
module Names {

  datatype Name =
    // NamedEntity and its kinds
    | Id | Label | OriginalSpans
    // Document's relationship lists
    | NutrientToDiseaseRelationships | NutrientToPhenotypeRelationships
    | NutrientToBiologicalProcessRelationships | NutrientToHealthStatusRelationships
    | NutrientToSourceRelationships | NutrientToNutrientRelationships
    // Triple
    | Subject | Predicate | Object | Qualifier | SubjectQualifier | ObjectQualifier
    // ScientificClaim and its relationship classes
    | References | Nutrient | Relationship | Disease | Phenotype | Process
    | NutrientSubject | NutrientObject | Anatomy | Source
    // Publication
    | Title | Abstract | CombinedText | FullText
    // AnnotatorResult
    | SubjectText | ObjectId | ObjectText
    // TextWithTriples and TextWithEntity
    | Publication | Triples | Entities
    // ExtractionResult
    | InputId | InputTitle | InputText | RawCompletionOutput | Prompt | ExtractedObject | NamedEntities
    // any other key
    | Other(text: string)

  /** The key a declared name is written as. */
  function Declared(n: Name): string
    requires !n.Other?
  {
    match n
    case Id => "id"
    case Label => "label"
    case OriginalSpans => "original_spans"
    case NutrientToDiseaseRelationships => "nutrient_to_disease_relationships"
    case NutrientToPhenotypeRelationships => "nutrient_to_phenotype_relationships"
    case NutrientToBiologicalProcessRelationships => "nutrient_to_biological_process_relationships"
    case NutrientToHealthStatusRelationships => "nutrient_to_health_status_relationships"
    case NutrientToSourceRelationships => "nutrient_to_source_relationships"
    case NutrientToNutrientRelationships => "nutrient_to_nutrient_relationships"
    case Subject => "subject"
    case Predicate => "predicate"
    case Object => "object"
    case Qualifier => "qualifier"
    case SubjectQualifier => "subject_qualifier"
    case ObjectQualifier => "object_qualifier"
    case References => "references"
    case Nutrient => "nutrient"
    case Relationship => "relationship"
    case Disease => "disease"
    case Phenotype => "phenotype"
    case Process => "process"
    case NutrientSubject => "nutrient_subject"
    case NutrientObject => "nutrient_object"
    case Anatomy => "anatomy"
    case Source => "source"
    case Title => "title"
    case Abstract => "abstract"
    case CombinedText => "combined_text"
    case FullText => "full_text"
    case SubjectText => "subject_text"
    case ObjectId => "object_id"
    case ObjectText => "object_text"
    case Publication => "publication"
    case Triples => "triples"
    case Entities => "entities"
    case InputId => "input_id"
    case InputTitle => "input_title"
    case InputText => "input_text"
    case RawCompletionOutput => "raw_completion_output"
    case Prompt => "prompt"
    case ExtractedObject => "extracted_object"
    case NamedEntities => "named_entities"
  }

  const Vocabulary: seq<Name> := [
    Id, Label, OriginalSpans,
    NutrientToDiseaseRelationships, NutrientToPhenotypeRelationships,
    NutrientToBiologicalProcessRelationships, NutrientToHealthStatusRelationships,
    NutrientToSourceRelationships, NutrientToNutrientRelationships,
    Subject, Predicate, Object, Qualifier, SubjectQualifier, ObjectQualifier,
    References, Nutrient, Relationship, Disease, Phenotype, Process,
    NutrientSubject, NutrientObject, Anatomy, Source,
    Title, Abstract, CombinedText, FullText,
    SubjectText, ObjectId, ObjectText,
    Publication, Triples, Entities,
    InputId, InputTitle, InputText, RawCompletionOutput, Prompt, ExtractedObject, NamedEntities]

  /** The first declared name in `names` written as `s`, or `Other(s)` when there is none. */
  function Lookup(s: string, names: seq<Name>): (r: Name)
    requires forall i :: 0 <= i < |names| ==> !names[i].Other?
    ensures !r.Other? ==> r in names && Declared(r) == s
    ensures r.Other? ==> r == Other(s) && forall i :: 0 <= i < |names| ==> Declared(names[i]) != s
  {
    if names == [] then Other(s)
    else if Declared(names[0]) == s then names[0]
    else Lookup(s, names[1..])
  }

  /** The name of a key. */
  function Parse(s: string): Name {
    Lookup(s, Vocabulary)
  }

  /** The key of a name. */
  function Text(n: Name): string {
    if n.Other? then n.text else Declared(n)
  }

  /** A name as `Parse` produces it: `Other` only for a string no declared name is written as. */
  predicate Canonical(n: Name) {
    n.Other? ==> forall i :: 0 <= i < |Vocabulary| ==> Declared(Vocabulary[i]) != n.text
  }

  /** Parsing a key and writing it back gives the key: distinct keys have distinct names. */
  lemma TextParse(s: string)
    ensures Text(Parse(s)) == s
    ensures Canonical(Parse(s))
  {
  }

  /** Parse is one-to-one on keys. */
  lemma ParseInjective(s: string, t: string)
    requires Parse(s) == Parse(t)
    ensures s == t
  {
    TextParse(s);
    TextParse(t);
  }
}

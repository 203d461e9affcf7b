/**
 * `pattern_original_spans`, the field validator that every NamedEntity class
 * (NamedEntity, its seven domain kinds and Document) declares with the same body.
 * It is modelled once, on the untyped value it receives.
 *
 * As written, the loop over a list tests `isinstance(v, str)` on the LIST `v`,
 * never on the element, so the pattern test inside the loop can never run and
 * every list is accepted. Only a bare string is matched against the pattern.
 */
module SpanValidator {
  import opened Spans
  import opened Values

  /** The `for element in v` loop of the list branch, guard as written (on `v`). */
  function ListLoop(v: Value, items: seq<Value>): (r: Result<(), ErrorKind>)
    ensures !v.Str? ==> r.Ok?
    decreases |items|
  {
    if items == [] then Ok(())
    else if v.Str? && items[0].Str? && !SpanMatches(items[0].s) then Err(MalformedSpan(items[0].s))
    else ListLoop(v, items[1..])
  }

  /** The validator: returns its argument unchanged or raises naming the bad value. */
  function PatternOriginalSpans(v: Value): (r: Result<Value, ErrorKind>)
    ensures r.Ok? ==> r.value == v
    ensures r.Err? ==> v.Str? && r.error == MalformedSpan(v.s)
    ensures v.List? || v.Null? ==> r == Ok(v)
  {
    if v.List? then
      match ListLoop(v, v.items)
      case Ok(_) => Ok(v)
      case Err(k) => Err(k)
    else if v.Str? then
      if !SpanMatches(v.s) then Err(MalformedSpan(v.s)) else Ok(v)
    else Ok(v)
  }

  /** On a bare string the validator accepts exactly the spans `<digits>:<digits>`. */
  lemma ValidatorAcceptsExactlySpans(s: string)
    ensures PatternOriginalSpans(Str(s)).Ok? <==> InSpanLanguage(s)
  {
    MatchesIffInLanguage(s);
  }

  /** Whatever the validator accepts, it accepts again: applying it twice is applying it once. */
  lemma ValidatorIdempotent(v: Value)
    requires PatternOriginalSpans(v).Ok?
    ensures PatternOriginalSpans(PatternOriginalSpans(v).value) == PatternOriginalSpans(v)
  {
  }

  /** A list is never pattern-checked, whatever its strings. */
  lemma ListedSpansNeverChecked(spans: seq<string>)
    ensures PatternOriginalSpans(List(Strs(spans))).Ok?
  {
  }

  /** The examples of the field's description, on the three input shapes. */
  lemma ValidatorExamples()
    ensures PatternOriginalSpans(Str("10:25")) == Ok(Str("10:25"))
    ensures PatternOriginalSpans(Str("10:25\n")) == Ok(Str("10:25\n"))
    ensures PatternOriginalSpans(Str("10-25")) == Err(MalformedSpan("10-25"))
    ensures PatternOriginalSpans(List([Str("10-25")])) == Ok(List([Str("10-25")]))
    ensures PatternOriginalSpans(Null) == Ok(Null)
  {
    AcceptedExamples();
    RejectedExamples();
    ValidatorAcceptsExactlySpans("10:25");
    ValidatorAcceptsExactlySpans("10:25\n");
    ValidatorAcceptsExactlySpans("10-25");
  }

  // ---------------------------------------------------------------------------
  // The check the field's documentation describes (each listed span must match),
  // kept as a reference to show exactly where the code departs from it.
  // ---------------------------------------------------------------------------

  /** The first listed string that is not a span, if any. */
  function FirstMalformed(items: seq<Value>): (r: Option<string>)
    ensures r.None? <==> forall i :: 0 <= i < |items| && items[i].Str? ==> SpanMatches(items[i].s)
    ensures r.Some? ==> exists i :: 0 <= i < |items| && items[i] == Str(r.value) && !SpanMatches(r.value)
    decreases |items|
  {
    if items == [] then None
    else if items[0].Str? && !SpanMatches(items[0].s) then Some(items[0].s)
    else
      var r := FirstMalformed(items[1..]);
      assert forall i :: 1 <= i < |items| ==> items[i] == items[1..][i - 1];
      r
  }

  /** Per-element checking, as the field's documentation intends. */
  function PerElementSpans(v: Value): (r: Result<Value, ErrorKind>)
    ensures r.Ok? ==> r.value == v
    ensures v.List? ==> (r.Ok? <==> forall i :: 0 <= i < |v.items| && v.items[i].Str? ==> InSpanLanguage(v.items[i].s))
    ensures v.Str? ==> (r.Ok? <==> InSpanLanguage(v.s))
  {
    MatchesIffInLanguage(if v.Str? then v.s else "");
    forall i | v.List? && 0 <= i < |v.items| && v.items[i].Str? {
      MatchesIffInLanguage(v.items[i].s);
    }
    if v.List? then
      match FirstMalformed(v.items)
      case None => Ok(v)
      case Some(s) => Err(MalformedSpan(s))
    else if v.Str? then
      if !SpanMatches(v.s) then Err(MalformedSpan(v.s)) else Ok(v)
    else Ok(v)
  }

  /** The validator as written accepts everything the per-element check accepts, and agrees with it
      on everything but lists. */
  lemma AsWrittenIsWeaker(v: Value)
    ensures PerElementSpans(v).Ok? ==> PatternOriginalSpans(v).Ok?
    ensures !v.List? ==> PerElementSpans(v) == PatternOriginalSpans(v)
  {
  }

  /** A listed "10-25" is what tells the two apart. */
  lemma ListedDashSeparates()
    ensures PatternOriginalSpans(List([Str("10-25")])).Ok?
    ensures PerElementSpans(List([Str("10-25")])) == Err(MalformedSpan("10-25"))
  {
    RejectedExamples();
    MatchesIffInLanguage("10-25");
  }
}

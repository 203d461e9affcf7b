/**
 * The span pattern `^\d+:\d+$`, as Python's `re.match` applies it to a string.
 *
 * `re.match` anchors at the start; without MULTILINE, `$` matches at the end
 * of the string or just before a newline that ends it, so one trailing "\n"
 * is tolerated. `\d` is restricted here to the ASCII digits '0'..'9'.
 *
 * The language is given twice: declaratively (`InSpanLanguage`, "there is a
 * colon with digits on both sides") and as the automaton a regex engine runs
 * (`SpanMatches`); `MatchesIffInLanguage` proves they agree on every string.
 */
module Spans {

  predicate IsDigit(c: char) {
    '0' <= c <= '9'
  }

  predicate AllDigits(s: string) {
    forall i :: 0 <= i < |s| ==> IsDigit(s[i])
  }

  /** `\d+` */
  predicate Number(s: string) {
    |s| > 0 && AllDigits(s)
  }

  /** What may follow the colon: `\d+` then `$`, i.e. digits and at most one final newline. */
  predicate RightPart(t: string) {
    Number(t) || (|t| > 1 && t[|t| - 1] == '\n' && Number(t[..|t| - 1]))
  }

  /** The strings `re.match(r"^\d+:\d+$", s)` accepts. */
  ghost predicate InSpanLanguage(s: string) {
    exists i :: 0 < i < |s| && s[i] == ':' && Number(s[..i]) && RightPart(s[i + 1..])
  }

  /** States of the matcher: before the first digit, in the start offset, just after ':',
      in the end offset, after the tolerated final newline, and failed. */
  datatype State = Start | Left | Colon | Right | Newline | Dead

  function Step(q: State, c: char): State {
    match q
    case Start => if IsDigit(c) then Left else Dead
    case Left => if IsDigit(c) then Left else if c == ':' then Colon else Dead
    case Colon => if IsDigit(c) then Right else Dead
    case Right => if IsDigit(c) then Right else if c == '\n' then Newline else Dead
    case Newline => Dead
    case Dead => Dead
  }

  function Run(q: State, s: string): State
    decreases |s|
  {
    if s == [] then q else Run(Step(q, s[0]), s[1..])
  }

  predicate Accepting(q: State) {
    q == Right || q == Newline
  }

  /** The compiled pattern's `match` on `s` succeeds. */
  predicate SpanMatches(s: string) {
    Accepting(Run(Start, s))
  }

  lemma {:induction false} RunDead(s: string)
    ensures Run(Dead, s) == Dead
    decreases |s|
  {
    if s != [] {
      RunDead(s[1..]);
    }
  }

  lemma {:induction false} RunNewline(s: string)
    ensures Accepting(Run(Newline, s)) <==> s == []
  {
    if s != [] {
      RunDead(s[1..]);
    }
  }

  /** From `Right`, the rest is accepted iff it is digits, optionally followed by one final newline. */
  lemma {:induction false} RunRight(s: string)
    ensures Accepting(Run(Right, s)) <==> AllDigits(s) || (|s| > 0 && s[|s| - 1] == '\n' && AllDigits(s[..|s| - 1]))
    decreases |s|
  {
    if s != [] {
      var t := s[1..];
      if IsDigit(s[0]) {
        RunRight(t);
        if |t| > 0 {
          assert t[..|t| - 1] == s[..|s| - 1][1..];
        }
        assert AllDigits(s) <==> AllDigits(t);
        assert |s| > 1 ==> (AllDigits(s[..|s| - 1]) <==> AllDigits(t[..|t| - 1]));
      } else if s[0] == '\n' {
        RunNewline(t);
        assert !AllDigits(s);
        if |s| > 1 {
          assert !AllDigits(s[..|s| - 1]) by { assert s[..|s| - 1][0] == '\n'; }
        }
      } else {
        RunDead(t);
        assert !AllDigits(s);
        if |s| > 1 {
          assert !AllDigits(s[..|s| - 1]) by { assert s[..|s| - 1][0] == s[0]; }
        }
      }
    }
  }

  /** From `Colon`, the rest is accepted iff it is a `RightPart`. */
  lemma ColonAccepts(s: string)
    ensures Accepting(Run(Colon, s)) <==> RightPart(s)
  {
    if s == [] {
    } else if IsDigit(s[0]) {
      var t := s[1..];
      RunRight(t);
      assert AllDigits(s) <==> AllDigits(t);
      if |s| > 1 {
        assert t[..|t| - 1] == s[..|s| - 1][1..];
        assert AllDigits(s[..|s| - 1]) <==> AllDigits(t[..|t| - 1]);
      }
    } else {
      RunDead(s[1..]);
      assert !Number(s);
      if |s| > 1 {
        assert s[..|s| - 1][0] == s[0];
      }
    }
  }

  /** A colon at index i after digits: the witness shape for `Left`. */
  ghost predicate ColonAt(s: string, i: int) {
    0 <= i < |s| && s[i] == ':' && AllDigits(s[..i]) && RightPart(s[i + 1..])
  }

  lemma {:induction false} RunLeft(s: string)
    ensures Accepting(Run(Left, s)) <==> exists i :: ColonAt(s, i)
    decreases |s|
  {
    if s == [] {
    } else if IsDigit(s[0]) {
      var t := s[1..];
      RunLeft(t);
      if Accepting(Run(Left, s)) {
        var j :| ColonAt(t, j);
        assert s[..j + 1] == [s[0]] + t[..j];
        assert s[j + 1 + 1..] == t[j + 1..];
        assert ColonAt(s, j + 1);
      } else {
        forall i | ColonAt(s, i) ensures false {
          assert i > 0;
          assert t[..i - 1] == s[..i][1..];
          assert t[i - 1 + 1..] == s[i + 1..];
          assert ColonAt(t, i - 1);
        }
      }
    } else if s[0] == ':' {
      ColonAccepts(s[1..]);
      assert s[..0] == [];
      if Accepting(Run(Left, s)) {
        assert ColonAt(s, 0);
      }
    } else {
      RunDead(s[1..]);
    }
  }

  /** The automaton accepts exactly the strings of the declarative span language. */
  lemma MatchesIffInLanguage(s: string)
    ensures SpanMatches(s) <==> InSpanLanguage(s)
  {
    if s == [] {
    } else if IsDigit(s[0]) {
      var t := s[1..];
      RunLeft(t);
      if SpanMatches(s) {
        var j :| ColonAt(t, j);
        assert s[..j + 1] == [s[0]] + t[..j];
        assert s[j + 1 + 1..] == t[j + 1..];
        assert s[j + 1] == ':';
      } else {
        forall i | 0 < i < |s| && s[i] == ':' && Number(s[..i]) && RightPart(s[i + 1..]) ensures false {
          assert t[..i - 1] == s[..i][1..];
          assert t[i - 1 + 1..] == s[i + 1..];
          assert ColonAt(t, i - 1);
        }
      }
    } else {
      RunDead(s[1..]);
    }
  }

  /** "10:25" is a span; so is "10:25\n", because `$` tolerates one final newline. */
  lemma AcceptedExamples()
    ensures InSpanLanguage("10:25")
    ensures InSpanLanguage("0:0")
    ensures InSpanLanguage("10:25\n")
  {
    MatchesIffInLanguage("10:25");
    MatchesIffInLanguage("0:0");
    MatchesIffInLanguage("10:25\n");
  }

  /** A dash, a missing offset, two newlines, a leading newline or a space are all rejected. */
  lemma RejectedExamples()
    ensures !InSpanLanguage("10-25")
    ensures !InSpanLanguage(":25")
    ensures !InSpanLanguage("10:")
    ensures !InSpanLanguage("")
    ensures !InSpanLanguage("10:25\n\n")
    ensures !InSpanLanguage("\n10:25")
    ensures !InSpanLanguage("10 :25")
  {
    MatchesIffInLanguage("10-25");
    MatchesIffInLanguage(":25");
    MatchesIffInLanguage("10:");
    MatchesIffInLanguage("");
    MatchesIffInLanguage("10:25\n\n");
    MatchesIffInLanguage("\n10:25");
    MatchesIffInLanguage("10 :25");
  }
}

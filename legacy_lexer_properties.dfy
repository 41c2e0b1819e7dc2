/** What the byte lexer of the older pipeline promises, stated on
    `TokenAt`, the token read where skipping stopped. */
module LegacyLexerProperties {
  import opened LegacyToken
  import opened LegacyLexer

  predicate StartsWith(input: Bytes, q: nat, s: string) {
    q + |s| <= |input| && input[q..q + |s|] == s
  }

  /** Every operator spelling the lexer knows. */
  const Operators: set<string> := {"===", "==", "=", "!==", "!=", "!", ">=", ">", "<=", "<"}

  /** The first three bytes of a prefix, as `At` reads them. */
  lemma StartsWithAt(input: Bytes, q: nat, s: string)
    ensures StartsWith(input, q, s) ==>
      (|s| >= 1 ==> At(input, q) == s[0])
      && (|s| >= 2 ==> At(input, q + 1) == s[1])
      && (|s| >= 3 ==> At(input, q + 2) == s[2])
  {
    if StartsWith(input, q, s) {
      var w := input[q..q + |s|];
      if |s| >= 1 {
        assert w[0] == input[q];
      }
      if |s| >= 2 {
        assert w[1] == input[q + 1];
      }
      if |s| >= 3 {
        assert w[2] == input[q + 2];
      }
    }
  }

  /** An operator token is one of the operator spellings, and the lexer
      consumes exactly its text. */
  lemma OperatorConsumesLiteral(input: Bytes, q: nat)
    requires At(input, q) in {'=', '!', '>', '<'}
    ensures var (t, next) := TokenAt(input, q);
      t.Literal in Operators && next == q + |t.Literal| && StartsWith(input, q, t.Literal)
  {
    var t := TokenAt(input, q).0;
    if |t.Literal| == 3 {
      assert input[q..q + 3] == [input[q], input[q + 1], input[q + 2]];
    } else if |t.Literal| == 2 {
      assert input[q..q + 2] == [input[q], input[q + 1]];
    } else {
      assert input[q..q + 1] == [input[q]];
    }
  }

  /** ... and no longer operator spelling starts there: the lexer takes the
      longest match. */
  lemma OperatorIsLongest(input: Bytes, q: nat)
    requires At(input, q) in {'=', '!', '>', '<'}
    ensures forall op :: op in Operators && StartsWith(input, q, op) ==> |op| <= |TokenAt(input, q).0.Literal|
  {
    forall op | op in Operators && StartsWith(input, q, op)
      ensures |op| <= |TokenAt(input, q).0.Literal|
    {
      StartsWithAt(input, q, op);
    }
  }

  /** A word is the longest run of letters and `_` (so `exp1` is `exp`
      followed by a number); its kind is looked up without regard to case. */
  lemma IdentifierToken(input: Bytes, q: nat)
    requires IsLetter(At(input, q))
    ensures var (t, next) := TokenAt(input, q);
      q < next <= |input| && t.Literal == input[q..next]
      && (forall i :: 0 <= i < |t.Literal| ==> IsLetter(t.Literal[i]))
      && !IsLetter(At(input, next))
      && t.Type == LookupIdentifier(t.Literal)
  {
    var e := IdentifierEnd(input, q);
    assert forall i :: 0 <= i < e - q ==> input[q..e][i] == At(input, q + i);
  }

  /** A variable keeps its `@` and runs over letters, digits and `_`; the
      byte after it is consumed as well. */
  lemma VariableToken(input: Bytes, q: nat)
    requires At(input, q) == '@'
    ensures var (t, next) := TokenAt(input, q);
      t.Type == VARIABLE && |t.Literal| >= 1 && t.Literal[0] == '@'
      && (forall i :: 1 <= i < |t.Literal| ==> InVariable(t.Literal[i]))
      && !InVariable(At(input, q + |t.Literal|))
      && next == q + |t.Literal| + 1
  {
    var e := VariableEnd(input, q + 1);
    assert forall i :: 0 <= i < e - q ==> input[q..e][i] == At(input, q + i);
  }

  /** readNumber's loop lets at most one `.` through. */
  lemma {:induction false} NumberAtMostOneDot(input: Bytes, p: nat, dots: nat)
    ensures forall i, j :: p <= i < j < NumberEnd(input, p, dots) ==> !(At(input, i) == '.' && At(input, j) == '.')
    decreases |input| - p
  {
    var c := At(input, p);
    if IsDigit(c) || (c == '.' && dots == 0) {
      var dots' := if c == '.' then dots + 1 else dots;
      NumberAtMostOneDot(input, p + 1, dots');
    }
  }

  /** A number token is digits with at most one `.`. */
  lemma NumberToken(input: Bytes, q: nat)
    requires IsDigit(At(input, q))
    ensures var (t, next) := TokenAt(input, q);
      t.Type == NUMBER && q < next <= |input| && t.Literal == input[q..next]
      && (forall i :: 0 <= i < |t.Literal| ==> IsDigit(t.Literal[i]) || t.Literal[i] == '.')
      && (forall i, j :: 0 <= i < j < |t.Literal| ==> !(t.Literal[i] == '.' && t.Literal[j] == '.'))
  {
    var e := NumberEnd(input, q, 0);
    NumberAtMostOneDot(input, q, 0);
    assert forall i :: 0 <= i < e - q ==> input[q..e][i] == At(input, q + i);
  }

  /** Bytes that start no token are ILLEGAL, one at a time, and only they. */
  lemma IllegalExactly(input: Bytes, q: nat)
    ensures var (t, next) := TokenAt(input, q);
      var c := At(input, q);
      (t.Type == ILLEGAL <==>
        !(c in {'=', '!', '>', '<', ';', ',', '(', ')', '[', ']', '{', '}', '"', '\'', '@', '\0'}
          || IsLetter(c) || IsDigit(c)))
      && (t.Type == ILLEGAL ==> next == q + 1 && t.Literal == EncodeRune(c))
  {
  }

  /** At the end of the input every call gives EOF and moves on, so EOF
      repeats; a NUL byte inside the input gives EOF too, and lexing
      resumes after it. */
  lemma EofRepeats(input: Bytes, p: nat)
    requires p >= |input|
    ensures NextTokenAt(input, p).0 == Token(EOF, "")
    ensures NextTokenAt(input, NextTokenAt(input, p).1).0 == Token(EOF, "")
  {
  }

  lemma NulIsEof(input: Bytes, q: nat)
    requires q < |input| && input[q] == '\0'
    ensures TokenAt(input, q) == (Token(EOF, ""), q + 1)
  {
  }

  // ---------------------------------------------------------------------
  // Examples
  // ---------------------------------------------------------------------

  /** `'John'` does not close on the second `'`: a string ends only at a
      double quote or at the end, so the token is `John'`. */
  lemma ExampleSingleQuotedRunsOn()
    ensures NextTokenAt("'John'", 0) == (Token(STRING, "John'"), 8)
  {
    var input: Bytes := "'John'";
    assert Skip(input, 0) == 0;
    assert StringBody(input, 6, "John'") == ("John'", 7);
    assert "John" + EncodeRune('\'') == "John'";
    assert StringBody(input, 5, "John") == ("John'", 7);
    assert "Joh" + EncodeRune('n') == "John";
    assert StringBody(input, 4, "Joh") == ("John'", 7);
    assert "Jo" + EncodeRune('h') == "Joh";
    assert StringBody(input, 3, "Jo") == ("John'", 7);
    assert "J" + EncodeRune('o') == "Jo";
    assert StringBody(input, 2, "J") == ("John'", 7);
    assert [] + EncodeRune('J') == "J";
    assert StringBody(input, 1, []) == ("John'", 7);
  }

  /** `"a\"b"` decodes its escape to `a"b`. */
  lemma ExampleEscape()
    ensures NextTokenAt("\"a\\\"b\"", 0) == (Token(STRING, "a\"b"), 7)
  {
    var input: Bytes := "\"a\\\"b\"";
    assert Skip(input, 0) == 0;
    assert StringBody(input, 5, "a\"b") == ("a\"b", 6);
    assert "a\"" + EncodeRune('b') == "a\"b";
    assert StringBody(input, 4, "a\"") == ("a\"b", 6);
    assert Unescape(At(input, 3)) == '"';
    assert "a" + EncodeRune('"') == "a\"";
    assert StringBody(input, 2, "a") == ("a\"b", 6);
    assert [] + EncodeRune('a') == "a";
    assert StringBody(input, 1, []) == ("a\"b", 6);
  }

  /** In `@a)` the `)` right after the variable is swallowed: the next
      token is EOF. */
  lemma ExampleVariableSwallowsNext()
    ensures NextTokenAt("@a)", 0) == (Token(VARIABLE, "@a"), 3)
    ensures NextTokenAt("@a)", 3).0 == Token(EOF, "")
  {
    var input: Bytes := "@a)";
    assert Skip(input, 0) == 0;
    assert VariableEnd(input, 2) == 2;
    assert VariableEnd(input, 1) == 2;
    assert input[0..2] == "@a";
  }

  /** `exp1` is the identifier `exp` followed by the number `1`. */
  lemma ExampleIdentifierStopsAtDigit()
    ensures NextTokenAt("exp1", 0) == (Token(IDENTIFIER, "exp"), 3)
    ensures NextTokenAt("exp1", 3) == (Token(NUMBER, "1"), 4)
  {
    var input: Bytes := "exp1";
    assert Skip(input, 0) == 0 && Skip(input, 3) == 3;
    assert IdentifierEnd(input, 3) == 3;
    assert IdentifierEnd(input, 0) == 3;
    assert input[0..3] == "exp";
    assert ToUpper("exp") == "EXP";
    assert NumberEnd(input, 4, 0) == 4;
    assert NumberEnd(input, 3, 0) == 4;
    assert input[3..4] == "1";
  }
}

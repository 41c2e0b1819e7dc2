/** Whole inputs through the older pipeline: what the server answers for
    the expressions its tests use, and where it departs from them. */
module LegacyExamples {
  import opened Results
  import opened Json
  import opened LegacyToken
  import LegacyLexer
  import opened LegacyAst
  import opened LegacyParserSpec
  import opened LegacyTransform
  import opened LegacyPipeline
  import opened LegacyParseShapes

  // ---------------------------------------------------------------------
  // `@age > 18`
  // ---------------------------------------------------------------------

  const AgeInput: Bytes := "@age > 18"
  const AgeVar := Token(VARIABLE, "@age")
  const AgeGt := Token(GT, ">")
  const Age18 := Token(NUMBER, "18")

  lemma AgeVariableToken()
    ensures LegacyLexer.NextTokenAt(AgeInput, 0) == (AgeVar, 5)
  {
    var input := AgeInput;
    assert LegacyLexer.Skip(input, 0) == 0;
    assert LegacyLexer.VariableEnd(input, 4) == 4;
    assert LegacyLexer.VariableEnd(input, 1) == 4;
    assert input[0..4] == "@age";
  }

  lemma AgeOperatorToken()
    ensures LegacyLexer.NextTokenAt(AgeInput, 5) == (AgeGt, 6)
  {
    assert LegacyLexer.Skip(AgeInput, 5) == 5;
  }

  lemma AgeNumberToken()
    ensures LegacyLexer.NextTokenAt(AgeInput, 6) == (Age18, 9)
  {
    var input := AgeInput;
    assert LegacyLexer.Skip(input, 7) == 7;
    assert LegacyLexer.Skip(input, 6) == 7;
    assert LegacyLexer.NumberEnd(input, 9, 0) == 9;
    assert LegacyLexer.NumberEnd(input, 7, 0) == 9;
    assert input[7..9] == "18";
  }

  const AgeTree := BinaryExpression(AgeGt, Variable(AgeVar, "@age"), ">", Literal(Age18, "18"))

  lemma AgeParse()
    ensures Parse(AgeInput) == Ok(Parsed(AgeTree, PState(11, Eof, Eof, [])))
  {
    AgeVariableToken();
    AgeOperatorToken();
    AgeNumberToken();
    LastLiteral(AgeInput, PState(10, Age18, Eof, []));
    VariableComparedToLiteral(AgeInput, AgeVar, 5, AgeGt, 6, Age18, 9, Literal(Age18, "18"));
  }

  lemma AgeJson()
    ensures JsonLogicOf(AgeTree) == Ok(Single(">", Arr([Single("var", Str("age")), Num(Float64("18"))])))
  {
    assert "@age"[1..] == "age";
    assert IsDigit("18"[0]) && "18"[1] == '8';
    assert ParseFloat("18") == Some(Float64("18"));
  }

  /** `@age > 18` is answered with `{">": [{"var": "age"}, 18]}`. */
  lemma ExampleAgeAbove18()
    ensures ServeTranslate(AgeInput) == Ok(Single(">", Arr([Single("var", Str("age")), Num(Float64("18"))])))
  {
    AgeParse();
    AgeJson();
  }

  // ---------------------------------------------------------------------
  // `@name == 'John'`
  // ---------------------------------------------------------------------

  const NameInput: Bytes := "@name == 'John'"
  const NameVar := Token(VARIABLE, "@name")
  const NameEq := Token(EQ, "==")
  const NameStr := Token(STRING, "John'")
  const NameTree := BinaryExpression(NameEq, Variable(NameVar, "@name"), "==", Literal(NameStr, "John'"))

  lemma NameVariableToken()
    ensures LegacyLexer.NextTokenAt(NameInput, 0) == (NameVar, 6)
  {
    var input := NameInput;
    assert LegacyLexer.Skip(input, 0) == 0;
    assert LegacyLexer.VariableEnd(input, 5) == 5;
    assert LegacyLexer.VariableEnd(input, 1) == 5;
    assert input[0..5] == "@name";
  }

  lemma NameOperatorToken()
    ensures LegacyLexer.NextTokenAt(NameInput, 6) == (NameEq, 8)
  {
    assert LegacyLexer.Skip(NameInput, 6) == 6;
  }

  /** A string opened by `'` runs to the end of the input. */
  lemma NameStringToken()
    ensures LegacyLexer.NextTokenAt(NameInput, 8) == (NameStr, 17)
  {
    var input := NameInput;
    assert LegacyLexer.Skip(input, 9) == 9;
    assert LegacyLexer.Skip(input, 8) == 9;
    assert LegacyLexer.StringBody(input, 15, "John'") == ("John'", 16);
    assert "John" + LegacyLexer.EncodeRune('\'') == "John'";
    assert LegacyLexer.StringBody(input, 14, "John") == ("John'", 16);
    assert "Joh" + LegacyLexer.EncodeRune('n') == "John";
    assert LegacyLexer.StringBody(input, 13, "Joh") == ("John'", 16);
    assert "Jo" + LegacyLexer.EncodeRune('h') == "Joh";
    assert LegacyLexer.StringBody(input, 12, "Jo") == ("John'", 16);
    assert "J" + LegacyLexer.EncodeRune('o') == "Jo";
    assert LegacyLexer.StringBody(input, 11, "J") == ("John'", 16);
    assert [] + LegacyLexer.EncodeRune('J') == "J";
    assert LegacyLexer.StringBody(input, 10, []) == ("John'", 16);
  }

  lemma NameParse()
    ensures Parse(NameInput) == Ok(Parsed(NameTree, PState(19, Eof, Eof, [])))
  {
    NameVariableToken();
    NameOperatorToken();
    NameStringToken();
    assert StripQuotes("John'") == "John'";
    LastLiteral(NameInput, PState(18, NameStr, Eof, []));
    VariableComparedToLiteral(NameInput, NameVar, 6, NameEq, 8, NameStr, 17, Literal(NameStr, "John'"));
  }

  lemma NameJson()
    ensures JsonLogicOf(NameTree) == Ok(Single("==", Arr([Single("var", Str("name")), Str("John'")])))
  {
    assert "@name"[1..] == "name";
  }

  /** `@name == 'John'` compares with `John'`, closing quote included, not
      with `John`: single quotes open a string but do not close one. */
  lemma ExampleSingleQuotedName()
    ensures ServeTranslate(NameInput) == Ok(Single("==", Arr([Single("var", Str("name")), Str("John'")])))
  {
    NameParse();
    NameJson();
  }

  // ---------------------------------------------------------------------
  // `NOT @isDeleted`
  // ---------------------------------------------------------------------

  const NotInput: Bytes := "NOT @isDeleted"
  const NotBang := Token(BANG, "NOT")
  const NotVar := Token(VARIABLE, "@isDeleted")
  const NotTree := UnaryExpression(NotBang, "NOT", Variable(NotVar, "@isDeleted"))

  lemma NotKeywordToken()
    ensures LegacyLexer.NextTokenAt(NotInput, 0) == (NotBang, 3)
  {
    var input := NotInput;
    assert LegacyLexer.Skip(input, 0) == 0;
    assert LegacyLexer.IdentifierEnd(input, 3) == 3;
    assert LegacyLexer.IdentifierEnd(input, 0) == 3;
    assert input[0..3] == "NOT";
    assert ToUpper("NOT") == "NOT";
  }

  lemma NotVariableToken()
    ensures LegacyLexer.NextTokenAt(NotInput, 3) == (NotVar, 15)
  {
    var input := NotInput;
    assert LegacyLexer.Skip(input, 4) == 4;
    assert LegacyLexer.Skip(input, 3) == 4;
    assert LegacyLexer.VariableEnd(input, 14) == 14;
    assert LegacyLexer.VariableEnd(input, 10) == 14;
    assert LegacyLexer.VariableEnd(input, 5) == 14;
    assert input[4..14] == "@isDeleted";
  }

  lemma NotParse()
    ensures Parse(NotInput) == Ok(Parsed(NotTree, PState(17, Eof, Eof, [])))
  {
    NotKeywordToken();
    NotVariableToken();
    NegatedVariable(NotInput, NotBang, 3, NotVar, 15);
  }

  lemma NotJson()
    ensures JsonLogicOf(NotTree) == Ok(Single("!", Arr([Single("var", Str("isDeleted"))])))
  {
    assert "@isDeleted"[1..] == "isDeleted";
  }

  /** `NOT @isDeleted` is answered with `{"!": [{"var": "isDeleted"}]}`. */
  lemma ExampleNotDeleted()
    ensures ServeTranslate(NotInput) == Ok(Single("!", Arr([Single("var", Str("isDeleted"))])))
  {
    NotParse();
    NotJson();
  }

  // ---------------------------------------------------------------------
  // `1 and 2`
  // ---------------------------------------------------------------------

  const LowerInput: Bytes := "1 and 2"
  const One := Token(NUMBER, "1")
  const LowerAnd := Token(AND, "and")
  const Two := Token(NUMBER, "2")
  const LowerTree := BinaryExpression(LowerAnd, Literal(One, "1"), "and", Literal(Two, "2"))

  lemma LowerFirstToken()
    ensures LegacyLexer.NextTokenAt(LowerInput, 0) == (One, 1)
  {
    var input := LowerInput;
    assert LegacyLexer.Skip(input, 0) == 0;
    assert LegacyLexer.NumberEnd(input, 1, 0) == 1;
    assert input[0..1] == "1";
  }

  lemma LowerAndToken()
    ensures LegacyLexer.NextTokenAt(LowerInput, 1) == (LowerAnd, 5)
  {
    var input := LowerInput;
    assert LegacyLexer.Skip(input, 2) == 2;
    assert LegacyLexer.Skip(input, 1) == 2;
    assert LegacyLexer.IdentifierEnd(input, 5) == 5;
    assert LegacyLexer.IdentifierEnd(input, 2) == 5;
    assert input[2..5] == "and";
    LookupAndAnyCase();
  }

  lemma LowerSecondToken()
    ensures LegacyLexer.NextTokenAt(LowerInput, 5) == (Two, 7)
  {
    var input := LowerInput;
    assert LegacyLexer.Skip(input, 6) == 6;
    assert LegacyLexer.Skip(input, 5) == 6;
    assert LegacyLexer.NumberEnd(input, 7, 0) == 7;
    assert input[6..7] == "2";
  }

  lemma LowerParse()
    ensures Parse(LowerInput) == Ok(Parsed(LowerTree, PState(9, Eof, Eof, [])))
  {
    LowerFirstToken();
    LowerAndToken();
    LowerSecondToken();
    NumbersJoined(LowerInput, One, 1, LowerAnd, 5, Two, 7);
  }

  lemma LowerJson()
    ensures JsonLogicOf(LowerTree) == Err(UnsupportedOperator("and"))
  {
    assert IsDigit("1"[0]) && IsDigit("2"[0]);
    assert JsonLogicOf(Literal(One, "1")) == Ok(Num(Float64("1")));
    assert JsonLogicOf(Literal(Two, "2")) == Ok(Num(Float64("2")));
  }

  /** `and` in lower case is lexed as AND, but the translation knows only
      `AND`: the server answers with a transform error. */
  lemma ExampleLowerCaseAnd()
    ensures ServeTranslate(LowerInput) == Err(TransformFailed(UnsupportedOperator("and")))
  {
    LowerParse();
    LowerJson();
  }

  // ---------------------------------------------------------------------
  // `f(`
  // ---------------------------------------------------------------------

  const CallInput: Bytes := "f("
  const FName := Token(IDENTIFIER, "f")
  const Paren := Token(LPAREN, "(")

  lemma CallNameToken()
    ensures LegacyLexer.NextTokenAt(CallInput, 0) == (FName, 1)
  {
    var input := CallInput;
    assert LegacyLexer.Skip(input, 0) == 0;
    assert LegacyLexer.IdentifierEnd(input, 1) == 1;
    assert input[0..1] == "f";
    assert ToUpper("f") == "F";
  }

  /** At the end of the input an argument is nil and consumes nothing. */
  lemma ParenToken()
    ensures LegacyLexer.NextTokenAt(CallInput, 1) == (Paren, 2)
  {
    assert LegacyLexer.Skip(CallInput, 1) == 1;
  }

  /** An unclosed call never returns: at the end of the input the argument
      loop parses nothing, consumes nothing and starts over. */
  lemma ExampleUnclosedCallHangs()
    ensures Parse(CallInput) == Err(NoProgress(Eof))
    ensures ServeTranslate(CallInput) == Err(NoResponse)
  {
    CallNameToken();
    ParenToken();
    UnclosedCall(CallInput, FName, 1, Paren, 2);
  }

  // ---------------------------------------------------------------------
  // `LOG(1)`
  // ---------------------------------------------------------------------

  const LogInput: Bytes := "LOG(1)"
  const LogWord := Token(LOG, "LOG")

  lemma LogToken()
    ensures LegacyLexer.NextTokenAt(LogInput, 0) == (LogWord, 3)
  {
    var input := LogInput;
    assert LegacyLexer.Skip(input, 0) == 0;
    assert LegacyLexer.IdentifierEnd(input, 3) == 3;
    assert LegacyLexer.IdentifierEnd(input, 0) == 3;
    assert input[0..3] == "LOG";
    assert ToUpper("LOG") == "LOG";
  }

  lemma LogParenToken()
    ensures LegacyLexer.NextTokenAt(LogInput, 3) == (Paren, 4)
  {
    assert LegacyLexer.Skip(LogInput, 3) == 3;
  }

  lemma LogParse()
    ensures Parse(LogInput) == Ok(Parsed(Nil, PState(4, LogWord, Paren, [UnexpectedToken(LOG)])))
  {
    LogToken();
    LogParenToken();
    RejectedStart(LogInput, LogWord, 3, Paren, 4);
  }

  /** `LOG(1)` is rejected by the parser: LOG is a keyword token, not an
      identifier, so it starts no primary expression. */
  lemma ExampleLogIsRejected()
    ensures ServeTranslate(LogInput) == Err(InvalidExpression(UnexpectedToken(LOG)))
  {
    LogParse();
  }

  // ---------------------------------------------------------------------
  // `1 2`
  // ---------------------------------------------------------------------

  const TrailingInput: Bytes := "1 2"

  lemma TrailingFirstToken()
    ensures LegacyLexer.NextTokenAt(TrailingInput, 0) == (One, 1)
  {
    var input := TrailingInput;
    assert LegacyLexer.Skip(input, 0) == 0;
    assert LegacyLexer.NumberEnd(input, 1, 0) == 1;
    assert input[0..1] == "1";
  }

  lemma TrailingSecondToken()
    ensures LegacyLexer.NextTokenAt(TrailingInput, 1) == (Two, 3)
  {
    var input := TrailingInput;
    assert LegacyLexer.Skip(input, 2) == 2;
    assert LegacyLexer.Skip(input, 1) == 2;
    assert LegacyLexer.NumberEnd(input, 3, 0) == 3;
    assert input[2..3] == "2";
  }

  lemma TrailingParse()
    ensures Parse(TrailingInput) == Ok(Parsed(Literal(One, "1"), PState(4, Two, Eof, [])))
  {
    TrailingFirstToken();
    TrailingSecondToken();
    LeadingNumber(TrailingInput, One, 1, Two, 3);
  }

  lemma TrailingJson()
    ensures JsonLogicOf(Literal(One, "1")) == Ok(Num(Float64("1")))
  {
    assert IsDigit("1"[0]);
    assert ParseFloat("1") == Some(Float64("1"));
  }

  /** Nothing checks that the input is used up: `1 2` is answered with 1. */
  lemma ExampleTrailingInputIgnored()
    ensures ServeTranslate(TrailingInput) == Ok(Num(Float64("1")))
  {
    TrailingParse();
    TrailingJson();
  }

  // ---------------------------------------------------------------------
  // `1 OR 2 AND 3`
  // ---------------------------------------------------------------------

  const OrAndInput: Bytes := "1 OR 2 AND 3"
  const UpperOr := Token(OR, "OR")
  const UpperAnd := Token(AND, "AND")
  const Three := Token(NUMBER, "3")
  const OrAndTree := BinaryExpression(UpperOr, Literal(One, "1"), "OR",
    BinaryExpression(UpperAnd, Literal(Two, "2"), "AND", Literal(Three, "3")))

  lemma OrAndFirstToken()
    ensures LegacyLexer.NextTokenAt(OrAndInput, 0) == (One, 1)
  {
    var input := OrAndInput;
    assert LegacyLexer.Skip(input, 0) == 0;
    assert LegacyLexer.NumberEnd(input, 1, 0) == 1;
    assert input[0..1] == "1";
  }

  lemma OrAndOrToken()
    ensures LegacyLexer.NextTokenAt(OrAndInput, 1) == (UpperOr, 4)
  {
    var input := OrAndInput;
    assert LegacyLexer.Skip(input, 2) == 2;
    assert LegacyLexer.Skip(input, 1) == 2;
    assert LegacyLexer.IdentifierEnd(input, 4) == 4;
    assert LegacyLexer.IdentifierEnd(input, 2) == 4;
    assert input[2..4] == "OR";
    assert ToUpper("OR") == "OR";
  }

  lemma OrAndSecondToken()
    ensures LegacyLexer.NextTokenAt(OrAndInput, 4) == (Two, 6)
  {
    var input := OrAndInput;
    assert LegacyLexer.Skip(input, 5) == 5;
    assert LegacyLexer.Skip(input, 4) == 5;
    assert LegacyLexer.NumberEnd(input, 6, 0) == 6;
    assert input[5..6] == "2";
  }

  lemma OrAndAndToken()
    ensures LegacyLexer.NextTokenAt(OrAndInput, 6) == (UpperAnd, 10)
  {
    var input := OrAndInput;
    assert LegacyLexer.Skip(input, 7) == 7;
    assert LegacyLexer.Skip(input, 6) == 7;
    assert LegacyLexer.IdentifierEnd(input, 10) == 10;
    assert LegacyLexer.IdentifierEnd(input, 7) == 10;
    assert input[7..10] == "AND";
    LookupAndAnyCase();
  }

  lemma OrAndThirdToken()
    ensures LegacyLexer.NextTokenAt(OrAndInput, 10) == (Three, 12)
  {
    var input := OrAndInput;
    assert LegacyLexer.Skip(input, 11) == 11;
    assert LegacyLexer.Skip(input, 10) == 11;
    assert LegacyLexer.NumberEnd(input, 12, 0) == 12;
    assert input[11..12] == "3";
  }

  /** `1 OR 2 AND 3` groups as `1 OR (2 AND 3)`. */
  lemma ExampleOrOfAnd()
    ensures Parse(OrAndInput) == Ok(Parsed(OrAndTree, PState(14, Eof, Eof, [])))
  {
    OrAndFirstToken();
    OrAndOrToken();
    OrAndSecondToken();
    OrAndAndToken();
    OrAndThirdToken();
    NumbersOrAnd(OrAndInput, One, 1, UpperOr, 4, Two, 6, UpperAnd, 10, Three, 12);
  }

  // ---------------------------------------------------------------------
  // `1 AND 2 AND 3`
  // ---------------------------------------------------------------------

  const AndAndInput: Bytes := "1 AND 2 AND 3"
  const AndAndTree := BinaryExpression(UpperAnd,
    BinaryExpression(UpperAnd, Literal(One, "1"), "AND", Literal(Two, "2")), "AND", Literal(Three, "3"))

  lemma AndAndFirstToken()
    ensures LegacyLexer.NextTokenAt(AndAndInput, 0) == (One, 1)
  {
    var input := AndAndInput;
    assert LegacyLexer.Skip(input, 0) == 0;
    assert LegacyLexer.NumberEnd(input, 1, 0) == 1;
    assert input[0..1] == "1";
  }

  lemma AndAndFirstAnd()
    ensures LegacyLexer.NextTokenAt(AndAndInput, 1) == (UpperAnd, 5)
  {
    var input := AndAndInput;
    assert LegacyLexer.Skip(input, 2) == 2;
    assert LegacyLexer.Skip(input, 1) == 2;
    assert LegacyLexer.IdentifierEnd(input, 5) == 5;
    assert LegacyLexer.IdentifierEnd(input, 2) == 5;
    assert input[2..5] == "AND";
    LookupAndAnyCase();
  }

  lemma AndAndSecondToken()
    ensures LegacyLexer.NextTokenAt(AndAndInput, 5) == (Two, 7)
  {
    var input := AndAndInput;
    assert LegacyLexer.Skip(input, 6) == 6;
    assert LegacyLexer.Skip(input, 5) == 6;
    assert LegacyLexer.NumberEnd(input, 7, 0) == 7;
    assert input[6..7] == "2";
  }

  lemma AndAndSecondAnd()
    ensures LegacyLexer.NextTokenAt(AndAndInput, 7) == (UpperAnd, 11)
  {
    var input := AndAndInput;
    assert LegacyLexer.Skip(input, 8) == 8;
    assert LegacyLexer.Skip(input, 7) == 8;
    assert LegacyLexer.IdentifierEnd(input, 11) == 11;
    assert LegacyLexer.IdentifierEnd(input, 8) == 11;
    assert input[8..11] == "AND";
    LookupAndAnyCase();
  }

  lemma AndAndThirdToken()
    ensures LegacyLexer.NextTokenAt(AndAndInput, 11) == (Three, 13)
  {
    var input := AndAndInput;
    assert LegacyLexer.Skip(input, 12) == 12;
    assert LegacyLexer.Skip(input, 11) == 12;
    assert LegacyLexer.NumberEnd(input, 13, 0) == 13;
    assert input[12..13] == "3";
  }

  /** `1 AND 2 AND 3` groups as `(1 AND 2) AND 3`. */
  lemma ExampleAndFoldsLeft()
    ensures Parse(AndAndInput) == Ok(Parsed(AndAndTree, PState(15, Eof, Eof, [])))
  {
    AndAndFirstToken();
    AndAndFirstAnd();
    AndAndSecondToken();
    AndAndSecondAnd();
    AndAndThirdToken();
    NumbersAndAnd(AndAndInput, One, 1, UpperAnd, 5, Two, 7, UpperAnd, 11, Three, 13);
  }
}

/** Binding powers and the Pratt handler tables of the primary parser
    (internal/parser/lookups.go). The handlers themselves live in
    ParserSpec; a table entry names which handler a token kind selects. */
module Lookups {
  import opened Results
  import opened Tokens

  /** Go: `type bindingPower int`, numbered with iota. */
  newtype BindingPower = int

  const DEFAULT_BP: BindingPower := 0
  const COMMA_BP: BindingPower := 1
  const ASSIGNMENT_BP: BindingPower := 2
  const LOGICAL_BP: BindingPower := 3
  const RELATIONAL_BP: BindingPower := 4
  const ADDITIVE_BP: BindingPower := 5
  const MULTIPLICATIVE_BP: BindingPower := 6
  const UNARY_BP: BindingPower := 7
  const CALL_BP: BindingPower := 8
  const MEMBER_BP: BindingPower := 9
  const PRIMARY_BP: BindingPower := 10

  datatype NudHandler = PrimaryNud | PrefixNud | GroupNud | ArrayNud | IfNud
  datatype LedHandler = BinaryLed | AssignmentLed | BetweenLed
  datatype StatementHandler = VarDeclarationHandler

  /** The four package-level maps and the register functions that fill them. */
  class Tables {
    var statementLU: map<TokenType, StatementHandler>
    var nudLU: map<TokenType, NudHandler>
    var ledLU: map<TokenType, LedHandler>
    var bpLU: map<TokenType, BindingPower>

    ghost predicate LedCovered()
      reads this
    {
      Covered(bpLU, ledLU)
    }

    /** The maps start empty. */
    constructor ()
      ensures statementLU == map[] && nudLU == map[] && ledLU == map[] && bpLU == map[]
      ensures LedCovered()
    {
      statementLU, nudLU, ledLU, bpLU := map[], map[], map[], map[];
    }

    /** registerLedHandler: the power and the led handler are set together. */
    method RegisterLed(t: TokenType, bp: BindingPower, handler: LedHandler)
      modifies this
      ensures bpLU == old(bpLU)[t := bp] && ledLU == old(ledLU)[t := handler]
      ensures nudLU == old(nudLU) && statementLU == old(statementLU)
    {
      bpLU := bpLU[t := bp];
      ledLU := ledLU[t := handler];
    }

    /** registerNudHandler */
    method RegisterNud(t: TokenType, handler: NudHandler)
      modifies this
      ensures nudLU == old(nudLU)[t := handler]
      ensures bpLU == old(bpLU) && ledLU == old(ledLU) && statementLU == old(statementLU)
    {
      nudLU := nudLU[t := handler];
    }

    /** registerStatementHandler: forces the kind's power back to default. */
    method RegisterStatement(t: TokenType, handler: StatementHandler)
      modifies this
      ensures bpLU == old(bpLU)[t := DEFAULT_BP] && statementLU == old(statementLU)[t := handler]
      ensures nudLU == old(nudLU) && ledLU == old(ledLU)
    {
      bpLU := bpLU[t := DEFAULT_BP];
      statementLU := statementLU[t := handler];
    }

    /** createTokenLookups: writes the fixed entries over whatever the maps
        held, so the maps afterwards are the old ones overridden by the
        constant tables below. */
    method CreateTokenLookups()
      modifies this
      ensures bpLU == WithPowers(old(bpLU)) && ledLU == WithLeds(old(ledLU))
      ensures nudLU == WithNuds(old(nudLU)) && statementLU == WithStatements(old(statementLU))
      ensures old(LedCovered()) ==> LedCovered()
    {
      RegisterLed(ASSIGN, ASSIGNMENT_BP, AssignmentLed);
      RegisterNud(NOT, PrefixNud);
      RegisterNud(NOT_NOT, PrefixNud);

      RegisterLed(AND, LOGICAL_BP, BinaryLed);
      RegisterLed(OR, LOGICAL_BP, BinaryLed);

      RegisterLed(LT, RELATIONAL_BP, BinaryLed);
      RegisterLed(LTE, RELATIONAL_BP, BinaryLed);
      RegisterLed(GT, RELATIONAL_BP, BinaryLed);
      RegisterLed(GTE, RELATIONAL_BP, BinaryLed);
      RegisterLed(EQ, RELATIONAL_BP, BinaryLed);
      RegisterLed(NOT_EQ, RELATIONAL_BP, BinaryLed);
      RegisterLed(STRICT_EQ, RELATIONAL_BP, BinaryLed);
      RegisterLed(NOT_STRICT_EQ, RELATIONAL_BP, BinaryLed);
      RegisterLed(IN, RELATIONAL_BP, BinaryLed);

      RegisterLed(BETWEEN, RELATIONAL_BP, BetweenLed);

      RegisterNud(NUMBER, PrimaryNud);
      RegisterNud(STRING, PrimaryNud);
      RegisterNud(IDENTIFIER, PrimaryNud);
      RegisterNud(VARIABLE, PrimaryNud);

      RegisterNud(TRUE, PrimaryNud);
      RegisterNud(FALSE, PrimaryNud);

      RegisterNud(IF, IfNud);

      RegisterNud(LPAREN, GroupNud);

      RegisterNud(LBRACKET, ArrayNud);

      RegisterStatement(CONST, VarDeclarationHandler);
      RegisterStatement(LET, VarDeclarationHandler);
      if old(LedCovered()) {
        WithTablesCovered(old(bpLU), old(ledLU));
      }
    }
  }

  // The writes createTokenLookups makes to each map, in program order.

  function WithPowers(m: map<TokenType, BindingPower>): map<TokenType, BindingPower> {
    m[ASSIGN := ASSIGNMENT_BP][AND := LOGICAL_BP][OR := LOGICAL_BP]
     [LT := RELATIONAL_BP][LTE := RELATIONAL_BP][GT := RELATIONAL_BP][GTE := RELATIONAL_BP]
     [EQ := RELATIONAL_BP][NOT_EQ := RELATIONAL_BP][STRICT_EQ := RELATIONAL_BP]
     [NOT_STRICT_EQ := RELATIONAL_BP][IN := RELATIONAL_BP][BETWEEN := RELATIONAL_BP]
     [CONST := DEFAULT_BP][LET := DEFAULT_BP]
  }

  function WithLeds(m: map<TokenType, LedHandler>): map<TokenType, LedHandler> {
    m[ASSIGN := AssignmentLed][AND := BinaryLed][OR := BinaryLed]
     [LT := BinaryLed][LTE := BinaryLed][GT := BinaryLed][GTE := BinaryLed]
     [EQ := BinaryLed][NOT_EQ := BinaryLed][STRICT_EQ := BinaryLed]
     [NOT_STRICT_EQ := BinaryLed][IN := BinaryLed][BETWEEN := BetweenLed]
  }

  function WithNuds(m: map<TokenType, NudHandler>): map<TokenType, NudHandler> {
    m[NOT := PrefixNud][NOT_NOT := PrefixNud]
     [NUMBER := PrimaryNud][STRING := PrimaryNud][IDENTIFIER := PrimaryNud][VARIABLE := PrimaryNud]
     [TRUE := PrimaryNud][FALSE := PrimaryNud]
     [IF := IfNud][LPAREN := GroupNud][LBRACKET := ArrayNud]
  }

  function WithStatements(m: map<TokenType, StatementHandler>): map<TokenType, StatementHandler> {
    m[CONST := VarDeclarationHandler][LET := VarDeclarationHandler]
  }

  // The tables as createTokenLookups leaves them.

  const PowerTable: map<TokenType, BindingPower> := map[
    ASSIGN := ASSIGNMENT_BP,
    AND := LOGICAL_BP, OR := LOGICAL_BP,
    LT := RELATIONAL_BP, LTE := RELATIONAL_BP, GT := RELATIONAL_BP, GTE := RELATIONAL_BP,
    EQ := RELATIONAL_BP, NOT_EQ := RELATIONAL_BP, STRICT_EQ := RELATIONAL_BP,
    NOT_STRICT_EQ := RELATIONAL_BP, IN := RELATIONAL_BP, BETWEEN := RELATIONAL_BP,
    CONST := DEFAULT_BP, LET := DEFAULT_BP
  ]

  const LedTable: map<TokenType, LedHandler> := map[
    ASSIGN := AssignmentLed,
    AND := BinaryLed, OR := BinaryLed,
    LT := BinaryLed, LTE := BinaryLed, GT := BinaryLed, GTE := BinaryLed,
    EQ := BinaryLed, NOT_EQ := BinaryLed, STRICT_EQ := BinaryLed,
    NOT_STRICT_EQ := BinaryLed, IN := BinaryLed, BETWEEN := BetweenLed
  ]

  const NudTable: map<TokenType, NudHandler> := map[
    NOT := PrefixNud, NOT_NOT := PrefixNud,
    NUMBER := PrimaryNud, STRING := PrimaryNud, IDENTIFIER := PrimaryNud, VARIABLE := PrimaryNud,
    TRUE := PrimaryNud, FALSE := PrimaryNud,
    IF := IfNud, LPAREN := GroupNud, LBRACKET := ArrayNud
  ]

  const StatementTable: map<TokenType, StatementHandler> := map[
    CONST := VarDeclarationHandler, LET := VarDeclarationHandler
  ]

  /** `bpLU[t]`: a missing kind reads as Go's zero value, the default power. */
  function Power(t: TokenType): BindingPower {
    if t in PowerTable then PowerTable[t] else DEFAULT_BP
  }

  function NudOf(t: TokenType): Option<NudHandler> {
    if t in NudTable then Some(NudTable[t]) else None
  }

  function LedOf(t: TokenType): Option<LedHandler> {
    if t in LedTable then Some(LedTable[t]) else None
  }

  function StatementOf(t: TokenType): Option<StatementHandler> {
    if t in StatementTable then Some(StatementTable[t]) else None
  }

  /** Every kind whose recorded power is above default has a led handler,
      so parseExpression's "led handler expected" panic cannot fire. */
  ghost predicate Covered(bp: map<TokenType, BindingPower>, led: map<TokenType, LedHandler>) {
    forall t :: t in bp && bp[t] > DEFAULT_BP ==> t in led
  }

  /** registerLedHandler writes the power and the handler together. */
  lemma LedKeepsCovered(bp: map<TokenType, BindingPower>, led: map<TokenType, LedHandler>,
                        t: TokenType, p: BindingPower, h: LedHandler)
    requires Covered(bp, led)
    ensures Covered(bp[t := p], led[t := h])
  {
  }

  /** registerStatementHandler only lowers a power to default. */
  lemma StatementKeepsCovered(bp: map<TokenType, BindingPower>, led: map<TokenType, LedHandler>, t: TokenType)
    requires Covered(bp, led)
    ensures Covered(bp[t := DEFAULT_BP], led)
  {
  }

  lemma WithTablesCovered(bp: map<TokenType, BindingPower>, led: map<TokenType, LedHandler>)
    requires Covered(bp, led)
    ensures Covered(WithPowers(bp), WithLeds(led))
  {
  }

  /** Re-running createTokenLookups writes the same entries again. */
  lemma WithTablesIdempotent(bp: map<TokenType, BindingPower>, led: map<TokenType, LedHandler>,
                             nud: map<TokenType, NudHandler>, stmt: map<TokenType, StatementHandler>)
    ensures WithPowers(WithPowers(bp)) == WithPowers(bp) && WithLeds(WithLeds(led)) == WithLeds(led)
    ensures WithNuds(WithNuds(nud)) == WithNuds(nud) && WithStatements(WithStatements(stmt)) == WithStatements(stmt)
  {
  }

  /** Starting from empty maps, createTokenLookups leaves exactly the
      constant tables. */
  lemma WithTablesFromEmpty()
    ensures WithPowers(map[]) == PowerTable && WithLeds(map[]) == LedTable
    ensures WithNuds(map[]) == NudTable && WithStatements(map[]) == StatementTable
  {
  }

  /** The binding powers form a strict chain. */
  lemma PowerChain()
    ensures DEFAULT_BP < COMMA_BP < ASSIGNMENT_BP < LOGICAL_BP < RELATIONAL_BP < ADDITIVE_BP
    ensures ADDITIVE_BP < MULTIPLICATIVE_BP < UNARY_BP < CALL_BP < MEMBER_BP < PRIMARY_BP
  {
  }

  /** `and`/`or` are logical, the comparisons, `in` and `between` are
      relational, `=` is assignment, and the kinds nobody registers read as
      default, so they end every infix loop. */
  lemma PowerFacts()
    ensures Power(AND) == LOGICAL_BP && Power(OR) == LOGICAL_BP && Power(ASSIGN) == ASSIGNMENT_BP
    ensures forall t :: t in {LT, LTE, GT, GTE, EQ, NOT_EQ, STRICT_EQ, NOT_STRICT_EQ, IN, BETWEEN} ==>
              Power(t) == RELATIONAL_BP
    ensures forall t :: t in {EOF, RPAREN, RBRACKET, COMMA, COLON, SEMICOLON, LET, CONST} ==> Power(t) == DEFAULT_BP
  {
  }

  /** No kind binds below default, and a kind has a led handler exactly
      when its power is above default. */
  lemma LedCoverage(t: TokenType)
    ensures Power(t) >= DEFAULT_BP
    ensures Power(t) > DEFAULT_BP <==> LedOf(t).Some?
  {
  }

  /** Prefix-only `not`, the primary kinds, and no nud for `null`. */
  lemma NudFacts(t: TokenType)
    ensures NudOf(NOT) == Some(PrefixNud) && NudOf(NOT_NOT) == Some(PrefixNud)
    ensures LedOf(NOT).None? && LedOf(NOT_NOT).None? && NudOf(NULL).None?
    ensures NudOf(t) == Some(PrimaryNud) <==> t in {NUMBER, STRING, IDENTIFIER, VARIABLE, TRUE, FALSE}
    ensures NudOf(IF) == Some(IfNud) && NudOf(LPAREN) == Some(GroupNud) && NudOf(LBRACKET) == Some(ArrayNud)
  {
  }

  lemma StatementFacts(t: TokenType)
    ensures StatementOf(t).Some? <==> t == LET || t == CONST
  {
  }
}

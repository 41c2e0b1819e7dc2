/** The older pipeline end to end, as the HTTP handler drives it
    (cmd/server/main.go): parse, report the first error when the tree is
    nil, otherwise translate. */
module LegacyPipeline {
  import opened Results
  import opened Json
  import opened LegacyToken
  import opened LegacyAst
  import opened LegacyParserSpec
  import opened LegacyTransform
  import LegacyTransformProperties

  datatype ServeError =
    | InvalidExpression(first: ParseError)  // 400 "Invalid expression: ..."
    | TransformFailed(error: TransformError) // 500 "Transform error: ..."
    | NoResponse                             // the parser never returns

  /** translateHandler after the request is decoded. `Errors()[0]` is
      always there: a nil tree comes with at least one error. */
  function ServeTranslate(input: Bytes): (r: Result<Value, ServeError>)
    ensures r.Err? && r.error.InvalidExpression? ==>
      Parse(input).Ok? && Parse(input).value.node == Nil
      && r.error.first == Parse(input).value.st.errors[0]
  {
    match Parse(input)
    case Err(_) => Err(NoResponse)
    case Ok(Parsed(node, st)) =>
      if node == Nil then Err(InvalidExpression(st.errors[0]))
      else match JsonLogicOf(node)
        case Err(e) => Err(TransformFailed(e))
        case Ok(v) => Ok(v)
  }

  /** A nil tree always carries an error, so the handler's `Errors()[0]`
      never indexes an empty list. */
  lemma NilTreeHasError(input: Bytes)
    requires Parse(input).Ok? && Parse(input).value.node == Nil
    ensures |Parse(input).value.st.errors| > 0
  {
  }

  /** A translated answer comes from a tree with no nil in it. */
  lemma ServedTreeIsNilFree(input: Bytes)
    requires ServeTranslate(input).Ok?
    ensures Parse(input).Ok? && LegacyTransformProperties.NilFree(Parse(input).value.node)
    ensures JsonLogicOf(Parse(input).value.node) == Ok(ServeTranslate(input).value)
  {
    LegacyTransformProperties.SuccessMeansNilFree(Parse(input).value.node);
  }
}

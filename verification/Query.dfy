/** The query language of src/query.rs: its tokens and its syntax tree. */
module Query {

  datatype FilterOp = Default | Contains | IContains | Regex | Equals | Startswith | Endswith

  datatype FilterTerm = FilterTerm(key: string, op: FilterOp, value: string, negate: bool)

  datatype QueryNode =
    | Filter(term: FilterTerm)
    | And(left: QueryNode, right: QueryNode)
    | Or(left: QueryNode, right: QueryNode)
    | Not(inner: QueryNode)

  datatype Token =
    | KeyVal(key: string, op: FilterOp, value: string)
    | BareWord(word: string)
    | AndTok
    | OrTok
    | NotTok
    | LParen
    | RParen

  /** The filter the parser makes of a token it has no other use for. */
  const EMPTY_FILTER: QueryNode := Filter(FilterTerm("", Default, "", false))
}

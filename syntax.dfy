/** The slice of the Babel JSX syntax tree that the class-name compiler looks at:
    attribute values, the nodes they may hold, and the ways dispatch can fail. */
module Syntax {

  datatype Option<+T> = None | Some(value: T)

  /** The outcome of a handler: a value, or the error that aborts the transform. */
  datatype Result<+T> = Ok(value: T) | Err(error: Error)

  /** The three dispatch tables: `leafNodeHandlers`, `expressionNodeHandlers`, `nodeHandlers`. */
  datatype Table = LeafTable | ExpressionTable | NodeTable

  datatype Error =
      /** `table[node.type]` is undefined, so calling it throws. */
    | NoHandler(table: Table, nodeType: string)
      /** An attribute written without a value (`<input disabled />`): reading `value.type` throws. */
    | NoValue(attribute: string)

  /** A node of an attribute value. The dynamic leaves carry the source text the code
      generator prints for them; `OtherNode` stands for every node type that no table handles
      (JSX elements, function calls, member expressions, `{}` and so on). An `OtherNode` whose
      `nodeType` is one of the eight names spelled out below stands for no Babel node: Babel
      gives each type name to exactly one kind of node. */
  datatype Node =
    | StringLiteral(value: string)
    | NumericLiteral(number: nat)
    | Identifier(name: string)
    | ConditionalExpression(code: string)
    | LogicalExpression(code: string)
    | ArrayExpression(elements: seq<Node>)
    | JSXExpressionContainer(expression: Node)
    | TemplateLiteral(text: string)
    | OtherNode(nodeType: string)
  {
    /** The leaves that `pushClassName` handles. */
    predicate IsLiteral() { StringLiteral? || NumericLiteral? }

    /** The leaves that `pushInterpolatedClassName` handles. */
    predicate IsDynamic() { Identifier? || ConditionalExpression? || LogicalExpression? }

    /** The keys of `leafNodeHandlers`. */
    predicate IsLeaf() { IsLiteral() || IsDynamic() }

    /** Babel's `node.type`, the key every table lookup uses. */
    function Type(): string
    {
      match this
      case StringLiteral(_) => "StringLiteral"
      case NumericLiteral(_) => "NumericLiteral"
      case Identifier(_) => "Identifier"
      case ConditionalExpression(_) => "ConditionalExpression"
      case LogicalExpression(_) => "LogicalExpression"
      case ArrayExpression(_) => "ArrayExpression"
      case JSXExpressionContainer(_) => "JSXExpressionContainer"
      case TemplateLiteral(_) => "TemplateLiteral"
      case OtherNode(t) => t
    }
  }

  /** An entry of `JSXOpeningElement.attributes`. A spread attribute `{...props}` is kept
      as the source text of its argument. */
  datatype Attribute =
    | JSXAttribute(name: string, value: Option<Node>)
    | JSXSpreadAttribute(argument: string)

  /** The error a result carries, if any. */
  function ErrorOf<T>(r: Result<T>): (e: Option<Error>)
    ensures e.None? <==> r.Ok?
    ensures e.Some? ==> e.value == r.error
  {
    if r.Ok? then None else Some(r.error)
  }
}

/** The three handler tables of the compiler. Their meaning is given first as functions from an
    attribute name and a value node to the class names it yields (or the dispatch error); the
    class `HandlerState` then models the per-element traversal state that the handlers push into. */
module Handlers {
  import opened Syntax
  import opened ClassNames

  /** One class name yielded by one leaf: a plain class for a literal, a template fragment
      for a dynamic expression. */
  datatype ClassName = Static(text: string) | Interpolated(text: string)

  /** The text `${value}` gives a literal leaf. */
  function LiteralText(node: Node): string
    requires node.IsLiteral()
  {
    match node
    case StringLiteral(v) => v
    case NumericLiteral(n) => Decimal(n)
  }

  /** `generate(node).code`: the source text of a dynamic leaf. */
  function Code(node: Node): (r: string)
    requires node.IsDynamic()
    ensures node.Identifier? ==> r == node.name
  {
    match node
    case Identifier(id) => id
    case ConditionalExpression(c) => c
    case LogicalExpression(c) => c
  }

  /** `leafNodeHandlers[node.type]`: a literal yields a plain class, a dynamic leaf an
      interpolated one, and every other node has no entry in the table. */
  function LeafClassName(name: string, node: Node): (r: Result<ClassName>)
    ensures r.Ok? <==> node.IsLeaf()
    ensures r.Err? ==> r.error == NoHandler(LeafTable, node.Type())
    ensures r.Ok? ==> (r.value.Static? <==> node.IsLiteral())
  {
    if node.IsLiteral() then Ok(Static(StaticClassName(name, LiteralText(node))))
    else if node.IsDynamic() then Ok(Interpolated(InterpolatedClassName(name, Code(node))))
    else Err(NoHandler(LeafTable, node.Type()))
  }

  predicate AllLeaves(elements: seq<Node>)
  {
    forall i :: 0 <= i < |elements| ==> elements[i].IsLeaf()
  }

  /** The outcomes of `f(index, element)` over a list of elements, in index order: the first
      failure aborts, otherwise one class name per element. */
  function Gather(f: (nat, Node) -> Result<ClassName>, elements: seq<Node>): (r: Result<seq<ClassName>>)
    ensures r.Ok? ==> |r.value| == |elements|
    decreases |elements|
  {
    if elements == [] then Ok([])
    else
      var k := |elements| - 1;
      var before := Gather(f, elements[..k]);
      var these := f(k, elements[k]);
      if before.Err? then before
      else if these.Err? then Err(these.error)
      else Ok(before.value + [these.value])
  }

  /** One more element: its outcome is appended, unless an earlier one failed. */
  lemma GatherStep(f: (nat, Node) -> Result<ClassName>, elements: seq<Node>, i: nat)
    requires i < |elements|
    ensures var before, these := Gather(f, elements[..i]), f(i, elements[i]);
            Gather(f, elements[..i + 1]) ==
              if before.Err? then before else if these.Err? then Err(these.error) else Ok(before.value + [these.value])
  {
    assert elements[..i + 1][..i] == elements[..i];
  }

  /** The list succeeds exactly when every element does. */
  lemma {:induction false} GatherSucceeds(f: (nat, Node) -> Result<ClassName>, elements: seq<Node>)
    ensures Gather(f, elements).Ok? <==> forall i :: 0 <= i < |elements| ==> f(i, elements[i]).Ok?
    decreases |elements|
  {
    if elements != [] {
      var k := |elements| - 1;
      GatherSucceeds(f, elements[..k]);
      assert forall j :: 0 <= j < k ==> elements[..k][j] == elements[j];
    }
  }

  /** On success, the value at position `i` is the outcome of element `i`. */
  lemma {:induction false} GatherAt(f: (nat, Node) -> Result<ClassName>, elements: seq<Node>, i: nat)
    requires Gather(f, elements).Ok? && i < |elements|
    ensures Ok(Gather(f, elements).value[i]) == f(i, elements[i])
    decreases |elements|
  {
    var k := |elements| - 1;
    if i < k {
      GatherAt(f, elements[..k], i);
      assert elements[..k][i] == elements[i];
    }
  }

  /** The first failing element decides the outcome. */
  lemma {:induction false} GatherFirstError(f: (nat, Node) -> Result<ClassName>, elements: seq<Node>, i: nat)
    requires i < |elements| && f(i, elements[i]).Err?
    requires forall j :: 0 <= j < i ==> f(j, elements[j]).Ok?
    ensures Gather(f, elements) == Err(f(i, elements[i]).error)
    decreases |elements|
  {
    var k := |elements| - 1;
    var init := elements[..k];
    if i < k {
      assert forall j :: 0 <= j <= i ==> init[j] == elements[j];
      GatherFirstError(f, init, i);
    } else {
      assert forall j :: 0 <= j < k ==> init[j] == elements[j];
      GatherSucceeds(f, init);
    }
  }

  /** The leaf handler call of the `forEach` callback: element `index` under the breakpoint
      name of its position. */
  function ElementHandler(name: string): (nat, Node) -> Result<ClassName>
  {
    (index: nat, element: Node) => LeafClassName(ElementName(name, index), element)
  }

  /** The `ArrayExpression` handler: element `i`, in index order, goes to the leaf table under
      `ElementName(name, i)`; the first element that is not a leaf aborts. */
  function ArrayClassNames(name: string, elements: seq<Node>): (r: Result<seq<ClassName>>)
    ensures r.Ok? ==> |r.value| == |elements|
  {
    Gather(ElementHandler(name), elements)
  }

  /** The array handler succeeds exactly when every element is a leaf. */
  lemma ArraySucceeds(name: string, elements: seq<Node>)
    ensures ArrayClassNames(name, elements).Ok? <==> AllLeaves(elements)
  {
    GatherSucceeds(ElementHandler(name), elements);
    assert forall i :: 0 <= i < |elements| ==>
             (ElementHandler(name)(i, elements[i]).Ok? <==> elements[i].IsLeaf());
  }

  /** On success, class name `i` is the leaf handler's result for element `i` under the
      breakpoint name of position `i`. */
  lemma ArrayClassNameAt(name: string, elements: seq<Node>, i: nat)
    requires ArrayClassNames(name, elements).Ok? && i < |elements|
    ensures Ok(ArrayClassNames(name, elements).value[i]) == LeafClassName(ElementName(name, i), elements[i])
  {
    GatherAt(ElementHandler(name), elements, i);
  }

  /** The array handler's result is determined element by element: a list that agrees with the
      leaf handler at every position (under that position's breakpoint name) is the result. */
  lemma ArrayClassNamesFrom(name: string, elements: seq<Node>, expected: seq<ClassName>)
    requires |expected| == |elements|
    requires forall i :: 0 <= i < |elements| ==> LeafClassName(ElementName(name, i), elements[i]) == Ok(expected[i])
    ensures ArrayClassNames(name, elements) == Ok(expected)
  {
    var f := ElementHandler(name);
    GatherSucceeds(f, elements);
    var r := Gather(f, elements).value;
    forall i | 0 <= i < |elements| ensures r[i] == expected[i] {
      GatherAt(f, elements, i);
    }
    assert r == expected;
  }

  /** The array handler fails with the error of its first non-leaf element. */
  lemma ArrayFirstError(name: string, elements: seq<Node>, i: nat)
    requires i < |elements| && !elements[i].IsLeaf()
    requires forall j :: 0 <= j < i ==> elements[j].IsLeaf()
    ensures ArrayClassNames(name, elements) == Err(NoHandler(LeafTable, elements[i].Type()))
  {
    GatherFirstError(ElementHandler(name), elements, i);
  }

  /** How many class names a handled value yields: one per array element, one for a leaf. */
  function Width(node: Node): nat
  {
    if node.ArrayExpression? then |node.elements| else 1
  }

  /** `expressionNodeHandlers[node.type]`: the leaf table plus the array handler. */
  function ExpressionClassNames(name: string, node: Node): (r: Result<seq<ClassName>>)
    ensures r.Ok? <==> node.IsLeaf() || (node.ArrayExpression? && AllLeaves(node.elements))
    ensures r.Ok? ==> |r.value| == Width(node)
    ensures !node.IsLeaf() && !node.ArrayExpression? ==> r == Err(NoHandler(ExpressionTable, node.Type()))
  {
    if node.IsLeaf() then Ok([LeafClassName(name, node).value])
    else if node.ArrayExpression? then
      ArraySucceeds(name, node.elements);
      ArrayClassNames(name, node.elements)
    else Err(NoHandler(ExpressionTable, node.Type()))
  }

  /** The attribute values the compiler accepts: a leaf or an array of leaves, either bare or
      inside one expression container. */
  predicate Handleable(node: Node)
  {
    var e := if node.JSXExpressionContainer? then node.expression else node;
    e.IsLeaf() || (e.ArrayExpression? && AllLeaves(e.elements))
  }

  /** `nodeHandlers[value.type]`: the expression table plus the expression container, whose
      inner expression goes to the expression table. */
  function NodeClassNames(name: string, node: Node): (r: Result<seq<ClassName>>)
    ensures r.Ok? <==> Handleable(node)
    ensures r.Ok? ==> |r.value| == Width(if node.JSXExpressionContainer? then node.expression else node)
    ensures !node.JSXExpressionContainer? && !node.IsLeaf() && !node.ArrayExpression? ==>
              r == Err(NoHandler(NodeTable, node.Type()))
  {
    if node.JSXExpressionContainer? then ExpressionClassNames(name, node.expression)
    else if node.IsLeaf() || node.ArrayExpression? then ExpressionClassNames(name, node)
    else Err(NoHandler(NodeTable, node.Type()))
  }

  /** The plain classes among `cs`, in their order. */
  function StaticTexts(cs: seq<ClassName>): seq<string>
    decreases |cs|
  {
    if cs == [] then []
    else
      var c := cs[|cs| - 1];
      StaticTexts(cs[..|cs| - 1]) + if c.Static? then [c.text] else []
  }

  /** The interpolated fragments among `cs`, in their order. */
  function InterpolatedTexts(cs: seq<ClassName>): seq<string>
    decreases |cs|
  {
    if cs == [] then []
    else
      var c := cs[|cs| - 1];
      InterpolatedTexts(cs[..|cs| - 1]) + if c.Interpolated? then [c.text] else []
  }

  /** Every class name lands in exactly one of the two lists. */
  lemma {:induction false} PartitionSize(cs: seq<ClassName>)
    ensures |StaticTexts(cs)| + |InterpolatedTexts(cs)| == |cs|
    decreases |cs|
  {
    if cs != [] {
      PartitionSize(cs[..|cs| - 1]);
    }
  }

  /** Both lists of a concatenation are the concatenations of the lists. */
  lemma {:induction false} PartitionAppend(a: seq<ClassName>, b: seq<ClassName>)
    ensures StaticTexts(a + b) == StaticTexts(a) + StaticTexts(b)
    ensures InterpolatedTexts(a + b) == InterpolatedTexts(a) + InterpolatedTexts(b)
    decreases |b|
  {
    if b == [] {
      assert a + b == a;
    } else {
      var b' := b[..|b| - 1];
      assert (a + b)[..|a + b| - 1] == a + b';
      PartitionAppend(a, b');
    }
  }

  /** Pushing the classes of `a` and then those of `b` onto two lists pushes those of `a + b`. */
  lemma PushAppend(c0: seq<string>, i0: seq<string>, a: seq<ClassName>, b: seq<ClassName>)
    ensures (c0 + StaticTexts(a)) + StaticTexts(b) == c0 + StaticTexts(a + b)
    ensures (i0 + InterpolatedTexts(a)) + InterpolatedTexts(b) == i0 + InterpolatedTexts(a + b)
  {
    PartitionAppend(a, b);
  }

  /** A plain class keeps its place among the plain classes: the one at position `i` comes
      right after those before it. */
  lemma StaticTextAt(cs: seq<ClassName>, i: nat)
    requires i < |cs| && cs[i].Static?
    ensures var k := |StaticTexts(cs[..i])|; k < |StaticTexts(cs)| && StaticTexts(cs)[k] == cs[i].text
  {
    assert cs == cs[..i + 1] + cs[i + 1..];
    PartitionAppend(cs[..i + 1], cs[i + 1..]);
    assert cs[..i + 1][..i] == cs[..i];
  }

  /** An interpolated fragment keeps its place among the interpolated fragments. */
  lemma InterpolatedTextAt(cs: seq<ClassName>, i: nat)
    requires i < |cs| && cs[i].Interpolated?
    ensures var k := |InterpolatedTexts(cs[..i])|;
              k < |InterpolatedTexts(cs)| && InterpolatedTexts(cs)[k] == cs[i].text
  {
    assert cs == cs[..i + 1] + cs[i + 1..];
    PartitionAppend(cs[..i + 1], cs[i + 1..]);
    assert cs[..i + 1][..i] == cs[..i];
  }

  /** The traversal state of one element: the two lists every handler pushes into. */
  class HandlerState {
    var classNames: seq<string>
    var interpolatedClassNames: seq<string>

    constructor ()
      ensures classNames == [] && interpolatedClassNames == []
    {
      classNames := [];
      interpolatedClassNames := [];
    }

    /** The lists are `c0` and `i0` followed by the two parts of `cs`. */
    predicate Extends(c0: seq<string>, i0: seq<string>, cs: seq<ClassName>)
      reads this
    {
      classNames == c0 + StaticTexts(cs) && interpolatedClassNames == i0 + InterpolatedTexts(cs)
    }

    /** `pushClassName`: appends `name-value` to the plain classes. */
    method PushClassName(name: string, node: Node)
      requires node.IsLiteral()
      modifies this
      ensures classNames == old(classNames) + [StaticClassName(name, LiteralText(node))]
      ensures interpolatedClassNames == old(interpolatedClassNames)
    {
      classNames := classNames + [StaticClassName(name, LiteralText(node))];
    }

    /** `pushInterpolatedClassName`: appends `name-${code}` to the interpolated fragments. */
    method PushInterpolatedClassName(name: string, node: Node)
      requires node.IsDynamic()
      modifies this
      ensures interpolatedClassNames == old(interpolatedClassNames) + [InterpolatedClassName(name, Code(node))]
      ensures classNames == old(classNames)
    {
      interpolatedClassNames := interpolatedClassNames + [InterpolatedClassName(name, Code(node))];
    }

    /** A call through `leafNodeHandlers`. After a failure the lists are left unspecified:
        the error aborts the whole transform. */
    method HandleLeaf(name: string, node: Node) returns (err: Option<Error>)
      modifies this
      ensures err == ErrorOf(LeafClassName(name, node))
      ensures err.None? ==>
                Extends(old(classNames), old(interpolatedClassNames), [LeafClassName(name, node).value])
    {
      if node.IsLiteral() {
        PushClassName(name, node);
        err := None;
      } else if node.IsDynamic() {
        PushInterpolatedClassName(name, node);
        err := None;
      } else {
        err := Some(NoHandler(LeafTable, node.Type()));
      }
    }

    /** The `forEach` callback: the leaf handler under the breakpoint name of `index`. */
    method HandleElement(name: string, index: nat, element: Node) returns (err: Option<Error>)
      modifies this
      ensures err == ErrorOf(ElementHandler(name)(index, element))
      ensures err.None? ==>
                Extends(old(classNames), old(interpolatedClassNames), [ElementHandler(name)(index, element).value])
    {
      err := HandleLeaf(ElementName(name, index), element);
    }

    /** The `ArrayExpression` handler: the `forEach` over the elements. */
    method HandleArray(name: string, elements: seq<Node>) returns (err: Option<Error>)
      modifies this
      ensures err == ErrorOf(ArrayClassNames(name, elements))
      ensures err.None? ==>
                Extends(old(classNames), old(interpolatedClassNames), ArrayClassNames(name, elements).value)
    {
      ghost var c0, i0 := classNames, interpolatedClassNames;
      ghost var f := ElementHandler(name);
      ghost var done: seq<ClassName> := [];
      var index := 0;
      while index < |elements|
        invariant 0 <= index <= |elements|
        invariant Gather(f, elements[..index]) == Ok(done)
        invariant Extends(c0, i0, done)
      {
        err := HandleElement(name, index, elements[index]);
        if err.Some? {
          GatherSucceeds(f, elements[..index]);
          assert forall j :: 0 <= j < index ==> elements[..index][j] == elements[j];
          GatherFirstError(f, elements, index);
          return;
        }
        GatherStep(f, elements, index);
        ghost var c := f(index, elements[index]).value;
        PushAppend(c0, i0, done, [c]);
        done := done + [c];
        index := index + 1;
      }
      assert elements[..index] == elements;
      err := None;
    }

    /** A call through `expressionNodeHandlers`. */
    method HandleExpression(name: string, node: Node) returns (err: Option<Error>)
      modifies this
      ensures err == ErrorOf(ExpressionClassNames(name, node))
      ensures err.None? ==>
                Extends(old(classNames), old(interpolatedClassNames), ExpressionClassNames(name, node).value)
    {
      if node.IsLeaf() {
        err := HandleLeaf(name, node);
      } else if node.ArrayExpression? {
        err := HandleArray(name, node.elements);
      } else {
        err := Some(NoHandler(ExpressionTable, node.Type()));
      }
    }

    /** A call through `nodeHandlers`, the table an attribute's value is dispatched on. */
    method HandleNode(name: string, node: Node) returns (err: Option<Error>)
      modifies this
      ensures err == ErrorOf(NodeClassNames(name, node))
      ensures err.None? ==>
                Extends(old(classNames), old(interpolatedClassNames), NodeClassNames(name, node).value)
    {
      if node.JSXExpressionContainer? {
        err := HandleExpression(name, node.expression);
      } else if node.IsLeaf() || node.ArrayExpression? {
        err := HandleExpression(name, node);
      } else {
        err := Some(NoHandler(NodeTable, node.Type()));
      }
    }
  }
}

/** The `JSXOpeningElement` visitor: every attribute of the element is dispatched through the
    handler tables and removed, and one `className` attribute built from the two class lists is
    appended. `Rewrite` states the outcome as a function of the original attribute list;
    `VisitOpeningElement` performs it in place on an `OpeningElement`. */
module Element {
  import opened Syntax
  import opened ClassNames
  import opened Handlers

  /** The shorthand names of the `properties` table. The visitor's gate reads it only after
      `true ||`, so it never excludes an attribute. */
  const Properties: set<string> :=
    {"m", "mt", "mr", "mb", "ml", "mx", "my", "p", "pt", "pr", "pb", "pl", "px", "py"}

  /** The name of the attribute the visitor appends. */
  const ClassNameKey: string := "className"

  /** The attributes the attribute visitor never fires on, in their order: the spread
      attributes, which are not `JSXAttribute` nodes. */
  function Kept(attrs: seq<Attribute>): (r: seq<Attribute>)
    ensures forall i :: 0 <= i < |r| ==> r[i].JSXSpreadAttribute?
    decreases |attrs|
  {
    if attrs == [] then []
    else
      var a := attrs[|attrs| - 1];
      Kept(attrs[..|attrs| - 1]) + if a.JSXSpreadAttribute? then [a] else []
  }

  /** Every spread attribute is kept, and nothing else is. */
  lemma {:induction false} KeptMembers(attrs: seq<Attribute>)
    ensures forall a :: a in Kept(attrs) <==> a in attrs && a.JSXSpreadAttribute?
    decreases |attrs|
  {
    if attrs != [] {
      var k := |attrs| - 1;
      KeptMembers(attrs[..k]);
      assert attrs == attrs[..k] + [attrs[k]];
    }
  }

  /** The kept attributes of two lists, one after the other, are those of the first followed
      by those of the second: the spread attributes keep their order. */
  lemma {:induction false} KeptAppend(a: seq<Attribute>, b: seq<Attribute>)
    ensures Kept(a + b) == Kept(a) + Kept(b)
    decreases |b|
  {
    if b == [] {
      assert a + b == a;
    } else {
      var b' := b[..|b| - 1];
      assert (a + b)[..|a + b| - 1] == a + b';
      KeptAppend(a, b');
    }
  }

  /** What the attribute visitor yields for one attribute: nothing for a spread attribute,
      a failure for an attribute without a value, and otherwise the `nodeHandlers` dispatch
      under the attribute's own name. */
  function AttributeClassNames(a: Attribute): (r: Result<seq<ClassName>>)
    ensures a.JSXSpreadAttribute? ==> r == Ok([])
    ensures a.JSXAttribute? && a.value.None? ==> r == Err(NoValue(a.name))
  {
    if a.JSXSpreadAttribute? then Ok([])
    else if a.value.None? then Err(NoValue(a.name))
    else NodeClassNames(a.name, a.value.value)
  }

  /** The attributes the visitor gets through. */
  predicate Accepted(a: Attribute)
  {
    a.JSXSpreadAttribute? || (a.value.Some? && Handleable(a.value.value))
  }

  /** The outcomes of `f` over a list, in list order: the first failure aborts, otherwise the
      values are concatenated. */
  function Collect(f: Attribute -> Result<seq<ClassName>>, attrs: seq<Attribute>): (r: Result<seq<ClassName>>)
    ensures r.Err? ==> exists i :: 0 <= i < |attrs| && f(attrs[i]) == r
    decreases |attrs|
  {
    if attrs == [] then Ok([])
    else
      var k := |attrs| - 1;
      assert forall i :: 0 <= i < k ==> attrs[..k][i] == attrs[i];
      var before := Collect(f, attrs[..k]);
      var these := f(attrs[k]);
      if before.Err? then before
      else if these.Err? then these
      else Ok(before.value + these.value)
  }

  /** One more element: its outcome is appended, unless an earlier one failed. */
  lemma CollectStep(f: Attribute -> Result<seq<ClassName>>, attrs: seq<Attribute>, i: nat)
    requires i < |attrs|
    ensures var before, these := Collect(f, attrs[..i]), f(attrs[i]);
            Collect(f, attrs[..i + 1]) ==
              if before.Err? then before else if these.Err? then these else Ok(before.value + these.value)
  {
    assert attrs[..i + 1][..i] == attrs[..i];
  }

  /** The list succeeds exactly when every element does. */
  lemma {:induction false} CollectSucceeds(f: Attribute -> Result<seq<ClassName>>, attrs: seq<Attribute>)
    ensures Collect(f, attrs).Ok? <==> forall i :: 0 <= i < |attrs| ==> f(attrs[i]).Ok?
    decreases |attrs|
  {
    if attrs != [] {
      var k := |attrs| - 1;
      CollectSucceeds(f, attrs[..k]);
      assert forall j :: 0 <= j < k ==> attrs[..k][j] == attrs[j];
    }
  }

  /** A failing prefix decides the outcome of the whole list. */
  lemma {:induction false} CollectErrorPrefix(f: Attribute -> Result<seq<ClassName>>, attrs: seq<Attribute>, k: nat)
    requires k <= |attrs| && Collect(f, attrs[..k]).Err?
    ensures Collect(f, attrs) == Collect(f, attrs[..k])
    decreases |attrs| - k
  {
    if k < |attrs| {
      CollectStep(f, attrs, k);
      CollectErrorPrefix(f, attrs, k + 1);
    } else {
      assert attrs[..k] == attrs;
    }
  }

  /** Two successful lists, one after the other, give the first's values then the second's. */
  lemma {:induction false} CollectAppend(f: Attribute -> Result<seq<ClassName>>, a: seq<Attribute>, b: seq<Attribute>)
    requires Collect(f, a).Ok? && Collect(f, b).Ok?
    ensures Collect(f, a + b) == Ok(Collect(f, a).value + Collect(f, b).value)
    decreases |b|
  {
    var x := Collect(f, a).value;
    if b == [] {
      assert a + b == a;
      assert x + [] == x;
    } else {
      var k := |b| - 1;
      var ab := a + b;
      assert ab[..|ab| - 1] == a + b[..k];
      assert ab[|ab| - 1] == b[k];
      var y, z := Collect(f, b[..k]), f(b[k]);
      CollectAppend(f, a, b[..k]);
      assert (x + y.value) + z.value == x + (y.value + z.value);
    }
  }

  /** The class names of a whole attribute list, attribute by attribute in document order;
      the first attribute that fails aborts. */
  function AttributesClassNames(attrs: seq<Attribute>): (r: Result<seq<ClassName>>)
    ensures r.Err? ==> exists i :: 0 <= i < |attrs| && attrs[i].JSXAttribute? && AttributeClassNames(attrs[i]) == r
  {
    Collect(AttributeClassNames, attrs)
  }

  /** The attribute list is compiled exactly when every attribute is accepted. */
  lemma AttributesSucceed(attrs: seq<Attribute>)
    ensures AttributesClassNames(attrs).Ok? <==> forall i :: 0 <= i < |attrs| ==> Accepted(attrs[i])
  {
    CollectSucceeds(AttributeClassNames, attrs);
    assert forall i :: 0 <= i < |attrs| ==> (AttributeClassNames(attrs[i]).Ok? <==> Accepted(attrs[i]));
  }

  /** Once a prefix of the attributes fails, the whole list fails with the same error. */
  lemma AttributesErrorPrefix(attrs: seq<Attribute>, k: nat)
    requires k <= |attrs| && AttributesClassNames(attrs[..k]).Err?
    ensures AttributesClassNames(attrs) == AttributesClassNames(attrs[..k])
  {
    CollectErrorPrefix(AttributeClassNames, attrs, k);
  }

  /** The classes of two attribute lists, one after the other, are the classes of the first
      followed by those of the second. */
  lemma AttributesAppend(a: seq<Attribute>, b: seq<Attribute>)
    requires AttributesClassNames(a).Ok? && AttributesClassNames(b).Ok?
    ensures AttributesClassNames(a + b) == Ok(AttributesClassNames(a).value + AttributesClassNames(b).value)
  {
    CollectAppend(AttributeClassNames, a, b);
  }

  /** `getExpression`: with no interpolated fragment, a string literal of the plain classes;
      otherwise a template of the interpolated fragments then the plain classes, in an
      expression container. (The template literal stands for what re-parsing the synthesized
      code yields.) */
  function GetExpression(classNames: seq<string>, interpolatedClassNames: seq<string>): (r: Node)
    ensures r.StringLiteral? <==> interpolatedClassNames == []
    ensures !r.StringLiteral? ==> r.JSXExpressionContainer? && r.expression.TemplateLiteral?
    ensures interpolatedClassNames == [] && classNames == [] ==> r == StringLiteral("")
  {
    if interpolatedClassNames == [] then StringLiteral(Join(classNames))
    else JSXExpressionContainer(TemplateLiteral(Join(interpolatedClassNames + classNames)))
  }

  /** The text of a class attribute's value: the literal's value or the template's text. */
  function ClassValueText(v: Node): string
  {
    match v
    case StringLiteral(s) => s
    case JSXExpressionContainer(TemplateLiteral(t)) => t
    case _ => ""
  }

  /** The text of the new value: the interpolated fragments joined by spaces, then the plain
      classes joined by spaces, with one space between the two only when both are present. */
  lemma TemplateText(classNames: seq<string>, interpolatedClassNames: seq<string>)
    ensures ClassValueText(GetExpression(classNames, interpolatedClassNames))
            == if interpolatedClassNames == [] then Join(classNames)
               else if classNames == [] then Join(interpolatedClassNames)
               else Join(interpolatedClassNames) + " " + Join(classNames)
  {
    if classNames == [] {
      assert interpolatedClassNames + classNames == interpolatedClassNames;
    } else if interpolatedClassNames != [] {
      JoinAppend(interpolatedClassNames, classNames);
    }
  }

  /** Reading the class list back from the new value gives the interpolated fragments first
      and then the plain classes, each list in its own order, as long as no class is empty or
      holds a space. */
  lemma ClassListRoundTrip(classNames: seq<string>, interpolatedClassNames: seq<string>)
    requires forall i :: 0 <= i < |classNames| ==> classNames[i] != "" && SpaceFree(classNames[i])
    requires forall i :: 0 <= i < |interpolatedClassNames| ==>
               interpolatedClassNames[i] != "" && SpaceFree(interpolatedClassNames[i])
    ensures Split(ClassValueText(GetExpression(classNames, interpolatedClassNames)))
            == interpolatedClassNames + classNames
  {
    var all := interpolatedClassNames + classNames;
    assert forall i :: 0 <= i < |all| ==> all[i] != "" && SpaceFree(all[i]) by {
      forall i | 0 <= i < |all| ensures all[i] != "" && SpaceFree(all[i]) {
        if i < |interpolatedClassNames| {
          assert all[i] == interpolatedClassNames[i];
        } else {
          assert all[i] == classNames[i - |interpolatedClassNames|];
        }
      }
    }
    SplitJoin(all);
    if interpolatedClassNames == [] {
      assert all == classNames;
    }
  }

  /** The `className` attribute built from the classes of an element. */
  function ClassNameAttribute(cs: seq<ClassName>): (r: Attribute)
    ensures r.JSXAttribute? && r.name == "className" && r.value.Some?
    ensures r.value.value.StringLiteral? <==> forall i :: 0 <= i < |cs| ==> cs[i].Static?
  {
    AllStatic(cs);
    JSXAttribute(ClassNameKey, Some(GetExpression(StaticTexts(cs), InterpolatedTexts(cs))))
  }

  /** There is no interpolated fragment exactly when every class is a plain one. */
  lemma {:induction false} AllStatic(cs: seq<ClassName>)
    ensures InterpolatedTexts(cs) == [] <==> forall i :: 0 <= i < |cs| ==> cs[i].Static?
    decreases |cs|
  {
    if cs != [] {
      var k := |cs| - 1;
      AllStatic(cs[..k]);
      assert forall i :: 0 <= i < k ==> cs[..k][i] == cs[i];
    }
  }

  /** What visiting an element does to its attribute list: every `JSXAttribute` is consumed
      and removed, the spread attributes stay in order, and one `className` attribute comes
      last, so it is the only `JSXAttribute` left. */
  function Rewrite(attrs: seq<Attribute>): (r: Result<seq<Attribute>>)
    ensures r.Err? <==> AttributesClassNames(attrs).Err?
    ensures r.Err? ==> r.error == AttributesClassNames(attrs).error
    ensures r.Ok? ==> |r.value| == |Kept(attrs)| + 1 && r.value[..|Kept(attrs)|] == Kept(attrs)
    ensures r.Ok? ==> forall i :: 0 <= i < |r.value| - 1 ==> r.value[i].JSXSpreadAttribute?
    ensures r.Ok? ==> var last := r.value[|r.value| - 1];
                      last.JSXAttribute? && last.name == "className" && last.value.Some?
    ensures r.Ok? ==> var cs := AttributesClassNames(attrs).value;
                      r.value[|r.value| - 1].value == Some(GetExpression(StaticTexts(cs), InterpolatedTexts(cs)))
  {
    match AttributesClassNames(attrs)
    case Err(e) => Err(e)
    case Ok(cs) => Ok(Kept(attrs) + [ClassNameAttribute(cs)])
  }

  /** Visiting fails exactly when some attribute has no value or a value the tables cannot
      handle. */
  lemma RewriteSucceeds(attrs: seq<Attribute>)
    ensures Rewrite(attrs).Ok? <==> forall i :: 0 <= i < |attrs| ==> Accepted(attrs[i])
  {
    AttributesSucceed(attrs);
  }

  /** An element without any `JSXAttribute` keeps its attributes and still gains a
      `className` attribute, whose value is the empty string literal. */
  lemma RewriteWithoutAttributes(attrs: seq<Attribute>)
    requires forall i :: 0 <= i < |attrs| ==> attrs[i].JSXSpreadAttribute?
    ensures Rewrite(attrs) == Ok(attrs + [JSXAttribute("className", Some(StringLiteral("")))])
  {
    SpreadsOnly(attrs);
  }

  /** A list of spread attributes is kept whole. */
  lemma {:induction false} KeptSpreads(attrs: seq<Attribute>)
    requires forall i :: 0 <= i < |attrs| ==> attrs[i].JSXSpreadAttribute?
    ensures Kept(attrs) == attrs
    decreases |attrs|
  {
    if attrs != [] {
      var k := |attrs| - 1;
      var init := attrs[..k];
      assert forall j :: 0 <= j < k ==> init[j] == attrs[j];
      KeptSpreads(init);
      assert init + [attrs[k]] == attrs;
    }
  }

  /** A list whose every element yields nothing yields nothing. */
  lemma {:induction false} CollectNothing(f: Attribute -> Result<seq<ClassName>>, attrs: seq<Attribute>)
    requires forall i :: 0 <= i < |attrs| ==> f(attrs[i]) == Ok([])
    ensures Collect(f, attrs) == Ok([])
    decreases |attrs|
  {
    if attrs != [] {
      var k := |attrs| - 1;
      var init := attrs[..k];
      assert forall j :: 0 <= j < k ==> init[j] == attrs[j];
      CollectNothing(f, init);
      var none: seq<ClassName> := [];
      assert none + none == none;
    }
  }

  /** A list of spread attributes yields no class and is kept whole. */
  lemma SpreadsOnly(attrs: seq<Attribute>)
    requires forall i :: 0 <= i < |attrs| ==> attrs[i].JSXSpreadAttribute?
    ensures AttributesClassNames(attrs) == Ok([]) && Kept(attrs) == attrs
  {
    KeptSpreads(attrs);
    CollectNothing(AttributeClassNames, attrs);
  }

  /** The element node under the visitor, with the attribute list it edits in place. */
  class OpeningElement {
    var attributes: seq<Attribute>

    constructor (attributes: seq<Attribute>)
      ensures this.attributes == attributes
    {
      this.attributes := attributes;
    }
  }

  /** Visiting a spread attribute changes neither the classes nor the list: it is kept. */
  lemma SpreadStep(attrs: seq<Attribute>, i: nat)
    requires i < |attrs| && attrs[i].JSXSpreadAttribute? && AttributesClassNames(attrs[..i]).Ok?
    ensures AttributesClassNames(attrs[..i + 1]) == AttributesClassNames(attrs[..i])
    ensures Kept(attrs[..i + 1]) == Kept(attrs[..i]) + [attrs[i]]
    ensures (Kept(attrs[..i]) + [attrs[i]]) + attrs[i + 1..] == Kept(attrs[..i]) + attrs[i..]
  {
    CollectStep(AttributeClassNames, attrs, i);
    var cs := AttributesClassNames(attrs[..i]).value;
    assert cs + [] == cs;
    assert attrs[..i + 1][..i] == attrs[..i];
    var kept := Kept(attrs[..i]);
    assert attrs[i..] == [attrs[i]] + attrs[i + 1..];
    assert kept + ([attrs[i]] + attrs[i + 1..]) == (kept + [attrs[i]]) + attrs[i + 1..];
  }

  /** The attribute the traversal reaches next sits right after the spread attributes kept
      so far, and removing it leaves the list the rest of the traversal sees. */
  lemma HandledPosition(attrs: seq<Attribute>, i: nat)
    requires i < |attrs|
    ensures var s, k := Kept(attrs[..i]) + attrs[i..], |Kept(attrs[..i])|;
            k < |s| && s[k] == attrs[i] && s[..k] + s[k + 1..] == Kept(attrs[..i]) + attrs[i + 1..]
  {
    var kept := Kept(attrs[..i]);
    var s := kept + attrs[i..];
    assert s[..|kept|] == kept;
    assert s[|kept| + 1..] == attrs[i + 1..];
  }

  /** Visiting a `JSXAttribute` that the tables handle appends its classes and keeps nothing. */
  lemma HandledStep(attrs: seq<Attribute>, i: nat)
    requires i < |attrs| && attrs[i].JSXAttribute? && AttributesClassNames(attrs[..i]).Ok?
    requires AttributeClassNames(attrs[i]).Ok?
    ensures var cs, ds := AttributesClassNames(attrs[..i]).value, AttributeClassNames(attrs[i]).value;
            AttributesClassNames(attrs[..i + 1]) == Ok(cs + ds) &&
            StaticTexts(cs + ds) == StaticTexts(cs) + StaticTexts(ds) &&
            InterpolatedTexts(cs + ds) == InterpolatedTexts(cs) + InterpolatedTexts(ds)
    ensures Kept(attrs[..i + 1]) == Kept(attrs[..i])
  {
    CollectStep(AttributeClassNames, attrs, i);
    assert attrs[..i + 1][..i] == attrs[..i];
    var kept := Kept(attrs[..i]);
    assert kept + [] == kept;
    PartitionAppend(AttributesClassNames(attrs[..i]).value, AttributeClassNames(attrs[i]).value);
  }

  /** `path.remove()` for the attribute at position `key`. */
  method RemoveAttribute(path: OpeningElement, key: nat)
    requires key < |path.attributes|
    modifies path
    ensures path.attributes == old(path.attributes[..key]) + old(path.attributes[key + 1..])
  {
    path.attributes := path.attributes[..key] + path.attributes[key + 1..];
  }

  /** A `JSXAttribute` that fails aborts the traversal with its own error. */
  lemma FailedStep(attrs: seq<Attribute>, i: nat)
    requires i < |attrs| && AttributesClassNames(attrs[..i]).Ok? && AttributeClassNames(attrs[i]).Err?
    ensures AttributesClassNames(attrs) == Err(AttributeClassNames(attrs[i]).error)
  {
    CollectStep(AttributeClassNames, attrs, i);
    AttributesErrorPrefix(attrs, i + 1);
  }

  /** `attributeVisitor.JSXAttribute` on the attribute at position `key`: its value goes to
      `nodeHandlers` under the attribute's name and the attribute is removed. An attribute
      without a value fails before anything is pushed. */
  method VisitAttribute(path: OpeningElement, key: nat, state: HandlerState) returns (err: Option<Error>)
    requires key < |path.attributes| && path.attributes[key].JSXAttribute?
    modifies path, state
    ensures err == ErrorOf(AttributeClassNames(old(path.attributes[key])))
    ensures err.None? ==> path.attributes == old(path.attributes[..key]) + old(path.attributes[key + 1..])
    ensures err.None? ==> state.Extends(old(state.classNames), old(state.interpolatedClassNames),
                                        AttributeClassNames(old(path.attributes[key])).value)
  {
    var attribute := path.attributes[key];
    var name := attribute.name;
    if true || name in Properties {
      if attribute.value.None? {
        return Some(NoValue(name));
      }
      err := state.HandleNode(name, attribute.value.value);
      if err.Some? {
        return;
      }
      RemoveAttribute(path, key);
    }
  }

  /** The traversal reaching the `JSXAttribute` at position `i` of the original list: the
      spread attributes before it are kept, so it sits at position `key`. A failure is the
      failure of the whole list; otherwise the attribute's classes join those before it. */
  method VisitNext(path: OpeningElement, state: HandlerState, ghost attributes: seq<Attribute>, i: nat,
                   key: nat, ghost classes: seq<ClassName>) returns (err: Option<Error>)
    requires i < |attributes| && attributes[i].JSXAttribute?
    requires AttributesClassNames(attributes[..i]) == Ok(classes)
    requires key == |Kept(attributes[..i])| && path.attributes == Kept(attributes[..i]) + attributes[i..]
    requires state.classNames == StaticTexts(classes) && state.interpolatedClassNames == InterpolatedTexts(classes)
    modifies path, state
    ensures err.Some? ==> err == ErrorOf(AttributesClassNames(attributes))
    ensures err.None? ==> var ds := AttributeClassNames(attributes[i]);
              ds.Ok? && AttributesClassNames(attributes[..i + 1]) == Ok(classes + ds.value) &&
              Kept(attributes[..i + 1]) == Kept(attributes[..i]) &&
              path.attributes == Kept(attributes[..i]) + attributes[i + 1..] &&
              state.classNames == StaticTexts(classes + ds.value) &&
              state.interpolatedClassNames == InterpolatedTexts(classes + ds.value)
  {
    HandledPosition(attributes, i);
    err := VisitAttribute(path, key, state);
    if err.Some? {
      FailedStep(attributes, i);
      return;
    }
    HandledStep(attributes, i);
  }

  /** `path.traverse(attributeVisitor, state)`: every attribute in document order, the
      `JSXAttribute` ones through the attribute visitor (which removes them), the spread ones
      left in place. On success only the spread attributes remain and the state holds the two
      lists of the element's classes. */
  method TraverseAttributes(path: OpeningElement, state: HandlerState) returns (err: Option<Error>)
    requires state.classNames == [] && state.interpolatedClassNames == []
    modifies path, state
    ensures err == ErrorOf(AttributesClassNames(old(path.attributes)))
    ensures err.None? ==> path.attributes == Kept(old(path.attributes))
    ensures err.None? ==> var cs := AttributesClassNames(old(path.attributes)).value;
                          state.classNames == StaticTexts(cs) && state.interpolatedClassNames == InterpolatedTexts(cs)
  {
    var attributes := path.attributes;
    var i, key := 0, 0;
    ghost var classes: seq<ClassName>, kept: seq<Attribute> := [], [];
    while i < |attributes|
      invariant 0 <= i <= |attributes|
      invariant AttributesClassNames(attributes[..i]) == Ok(classes) && Kept(attributes[..i]) == kept
      invariant key == |kept| && path.attributes == kept + attributes[i..]
      invariant state.classNames == StaticTexts(classes)
      invariant state.interpolatedClassNames == InterpolatedTexts(classes)
    {
      if attributes[i].JSXAttribute? {
        err := VisitNext(path, state, attributes, i, key, classes);
        if err.Some? {
          return;
        }
        classes := classes + AttributeClassNames(attributes[i]).value;
      } else {
        SpreadStep(attributes, i);
        kept := kept + [attributes[i]];
        key := key + 1;
      }
      i := i + 1;
    }
    assert attributes[..i] == attributes;
    assert path.attributes == kept + [];
    err := None;
  }

  /** `visitor.JSXOpeningElement`: the attribute traversal, then `getExpression` and the push
      of the new `className` attribute. After a failure the attribute list is left
      unspecified: the error aborts the whole transform. */
  method VisitOpeningElement(path: OpeningElement) returns (err: Option<Error>)
    modifies path
    ensures err == ErrorOf(Rewrite(old(path.attributes)))
    ensures err.None? ==> path.attributes == Rewrite(old(path.attributes)).value
  {
    var state := new HandlerState();
    err := TraverseAttributes(path, state);
    if err.Some? {
      return;
    }
    var result := GetExpression(state.classNames, state.interpolatedClassNames);
    var attribute := JSXAttribute(ClassNameKey, Some(result));
    path.attributes := path.attributes + [attribute];
  }

  /** The element of the sample input: `mb={[1, 2, mb, mb ? 1 : 2]} ml="5" mr={mb} mt={4}
      pt={[1,3]} pb={[2, height]}`. */
  function SampleAttributes(): seq<Attribute>
  {
    [ JSXAttribute("mb", Some(JSXExpressionContainer(ArrayExpression(
        [NumericLiteral(1), NumericLiteral(2), Identifier("mb"), ConditionalExpression("mb ? 1 : 2")])))),
      JSXAttribute("ml", Some(StringLiteral("5"))),
      JSXAttribute("mr", Some(JSXExpressionContainer(Identifier("mb")))),
      JSXAttribute("mt", Some(JSXExpressionContainer(NumericLiteral(4)))),
      JSXAttribute("pt", Some(JSXExpressionContainer(ArrayExpression([NumericLiteral(1), NumericLiteral(3)])))),
      JSXAttribute("pb", Some(JSXExpressionContainer(ArrayExpression([NumericLiteral(2), Identifier("height")])))) ]
  }

  /** The classes of the sample element's attributes, in attribute and element order. */
  function SampleClassNames(): seq<seq<ClassName>>
  {
    [ [Static("mb-1"), Static("mb-xs-2"), Interpolated("mb-md-${mb}"), Interpolated("mb-lg-${mb ? 1 : 2}")],
      [Static("ml-5")],
      [Interpolated("mr-${mb}")],
      [Static("mt-4")],
      [Static("pt-1"), Static("pt-xs-3")],
      [Static("pb-2"), Interpolated("pb-xs-${height}")] ]
  }

  /** The literal elements of the sample breakpoint array: positions 0 and 1. */
  lemma SampleBreakpointLiterals()
    ensures var elements, expected := SampleAttributes()[0].value.value.expression.elements, SampleClassNames()[0];
            LeafClassName(ElementName("mb", 0), elements[0]) == Ok(expected[0]) &&
            LeafClassName(ElementName("mb", 1), elements[1]) == Ok(expected[1])
  {
    assert Decimal(1) == "1" && Decimal(2) == "2";
    assert ElementName("mb", 1) == "mb-xs";
    assert StaticClassName("mb", "1") == "mb-1";
    assert StaticClassName("mb-xs", "2") == "mb-xs-2";
  }

  /** The identifier of the sample breakpoint array, at position 2. */
  lemma SampleBreakpointIdentifier()
    ensures LeafClassName(ElementName("mb", 2), Identifier("mb")) == Ok(Interpolated("mb-md-${mb}"))
  {
    assert ElementName("mb", 2) == "mb-md";
    assert InterpolatedClassName("mb-md", "mb") == "mb-md-${mb}";
  }

  /** The conditional of the sample breakpoint array, at position 3. */
  lemma SampleBreakpointConditional()
    ensures LeafClassName(ElementName("mb", 3), ConditionalExpression("mb ? 1 : 2"))
            == Ok(Interpolated("mb-lg-${mb ? 1 : 2}"))
  {
    assert ElementName("mb", 3) == "mb-lg";
    assert InterpolatedClassName("mb-lg", "mb ? 1 : 2") == "mb-lg-${mb ? 1 : 2}";
  }

  /** The breakpoint array `mb={[1, 2, mb, mb ? 1 : 2]}`: one class per element, each under
      the name of its position. */
  lemma SampleBreakpointArray()
    ensures AttributeClassNames(SampleAttributes()[0]) == Ok(SampleClassNames()[0])
  {
    var elements := SampleAttributes()[0].value.value.expression.elements;
    var expected := SampleClassNames()[0];
    SampleBreakpointLiterals();
    SampleBreakpointIdentifier();
    SampleBreakpointConditional();
    ArrayClassNamesFrom("mb", elements, expected);
  }

  /** The three scalar attributes of the sample element: `ml="5"`, `mr={mb}`, `mt={4}`. */
  lemma SampleScalarAttributes()
    ensures var attrs, parts := SampleAttributes(), SampleClassNames();
            AttributeClassNames(attrs[1]) == Ok(parts[1]) && AttributeClassNames(attrs[2]) == Ok(parts[2]) &&
            AttributeClassNames(attrs[3]) == Ok(parts[3])
  {
    var attrs, expected := SampleAttributes(), SampleClassNames();
    assert Decimal(4) == "4";
    assert StaticClassName("ml", "5") == "ml-5";
    assert InterpolatedClassName("mr", "mb") == "mr-${mb}";
    assert StaticClassName("mt", "4") == "mt-4";
    assert AttributeClassNames(attrs[1]) == Ok(expected[1]);
    assert AttributeClassNames(attrs[2]) == Ok(expected[2]);
  }

  /** The literal array `pt={[1,3]}`. */
  lemma SampleLiteralArray()
    ensures AttributeClassNames(SampleAttributes()[4]) == Ok(SampleClassNames()[4])
  {
    var pt, expected := SampleAttributes()[4].value.value.expression.elements, SampleClassNames()[4];
    assert Decimal(1) == "1" && Decimal(3) == "3";
    assert ElementName("pt", 1) == "pt-xs";
    assert StaticClassName("pt", "1") == "pt-1";
    assert StaticClassName("pt-xs", "3") == "pt-xs-3";
    assert LeafClassName(ElementName("pt", 0), pt[0]) == Ok(expected[0]);
    assert LeafClassName(ElementName("pt", 1), pt[1]) == Ok(expected[1]);
    ArrayClassNamesFrom("pt", pt, expected);
  }

  /** The literal element of the mixed array `pb={[2, height]}`. */
  lemma SampleMixedLiteral()
    ensures LeafClassName(ElementName("pb", 0), NumericLiteral(2)) == Ok(Static("pb-2"))
  {
    assert Decimal(2) == "2";
    assert StaticClassName("pb", "2") == "pb-2";
  }

  /** The dynamic element of the mixed array `pb={[2, height]}`. */
  lemma SampleMixedDynamic()
    ensures LeafClassName(ElementName("pb", 1), Identifier("height")) == Ok(Interpolated("pb-xs-${height}"))
  {
    assert ElementName("pb", 1) == "pb-xs";
    assert InterpolatedClassName("pb-xs", "height") == "pb-xs-${height}";
  }

  /** The mixed array `pb={[2, height]}`. */
  lemma SampleMixedArray()
    ensures AttributeClassNames(SampleAttributes()[5]) == Ok(SampleClassNames()[5])
  {
    SampleMixedLiteral();
    SampleMixedDynamic();
    ArrayClassNamesFrom("pb", SampleAttributes()[5].value.value.expression.elements, SampleClassNames()[5]);
  }

  /** The classes of a list of class lists, one list after the other. */
  function Flatten(parts: seq<seq<ClassName>>): seq<ClassName>
    decreases |parts|
  {
    if parts == [] then [] else Flatten(parts[..|parts| - 1]) + parts[|parts| - 1]
  }

  /** When attribute `i` yields `parts[i]` for every `i`, the list yields the parts in order. */
  lemma {:induction false} CollectEach(f: Attribute -> Result<seq<ClassName>>, attrs: seq<Attribute>,
                                       parts: seq<seq<ClassName>>)
    requires |parts| == |attrs| && forall i :: 0 <= i < |attrs| ==> f(attrs[i]) == Ok(parts[i])
    ensures Collect(f, attrs) == Ok(Flatten(parts))
    decreases |attrs|
  {
    if attrs != [] {
      var k := |attrs| - 1;
      assert forall i :: 0 <= i < k ==> attrs[..k][i] == attrs[i] && parts[..k][i] == parts[i];
      CollectEach(f, attrs[..k], parts[..k]);
    }
  }

  /** A list without spread attributes keeps nothing. */
  lemma {:induction false} KeptNone(attrs: seq<Attribute>)
    requires forall i :: 0 <= i < |attrs| ==> attrs[i].JSXAttribute?
    ensures Kept(attrs) == []
    decreases |attrs|
  {
    if attrs != [] {
      var k := |attrs| - 1;
      assert forall j :: 0 <= j < k ==> attrs[..k][j] == attrs[j];
      KeptNone(attrs[..k]);
    }
  }

  /** An element whose attributes are all `JSXAttribute` nodes that compile becomes a single
      `className` attribute holding the classes of every attribute, in attribute order. */
  lemma RewriteEach(attrs: seq<Attribute>, parts: seq<seq<ClassName>>)
    requires |parts| == |attrs|
    requires forall i :: 0 <= i < |attrs| ==> attrs[i].JSXAttribute? && AttributeClassNames(attrs[i]) == Ok(parts[i])
    ensures Rewrite(attrs) == Ok([ClassNameAttribute(Flatten(parts))])
  {
    CollectEach(AttributeClassNames, attrs, parts);
    KeptNone(attrs);
  }

  /** Each sample attribute yields its own classes. */
  lemma SampleEach()
    ensures var attrs, parts := SampleAttributes(), SampleClassNames();
            |parts| == |attrs| &&
            forall i :: 0 <= i < |attrs| ==> attrs[i].JSXAttribute? && AttributeClassNames(attrs[i]) == Ok(parts[i])
  {
    var attrs, parts := SampleAttributes(), SampleClassNames();
    forall i | 0 <= i < |attrs| ensures attrs[i].JSXAttribute? && AttributeClassNames(attrs[i]) == Ok(parts[i]) {
      if i == 0 {
        SampleBreakpointArray();
      } else if i < 4 {
        SampleScalarAttributes();
      } else if i == 4 {
        SampleLiteralArray();
      } else {
        SampleMixedArray();
      }
    }
  }

  /** One more part extends both lists by the part's own lists. */
  lemma TextsStep(parts: seq<seq<ClassName>>, k: nat, plain: seq<string>, dynamic: seq<string>,
                  plainHere: seq<string>, dynamicHere: seq<string>)
    requires k < |parts| && StaticTexts(parts[k]) == plainHere && InterpolatedTexts(parts[k]) == dynamicHere
    requires StaticTexts(Flatten(parts[..k])) == plain && InterpolatedTexts(Flatten(parts[..k])) == dynamic
    ensures StaticTexts(Flatten(parts[..k + 1])) == plain + plainHere
    ensures InterpolatedTexts(Flatten(parts[..k + 1])) == dynamic + dynamicHere
  {
    assert parts[..k + 1][..k] == parts[..k];
    assert Flatten(parts[..k + 1]) == Flatten(parts[..k]) + parts[k];
    PartitionAppend(Flatten(parts[..k]), parts[k]);
  }

  /** How the classes of the sample breakpoint array split into the two lists. */
  lemma SampleBreakpointPartition()
    ensures var mb := SampleClassNames()[0];
            StaticTexts(mb) == ["mb-1", "mb-xs-2"] && InterpolatedTexts(mb) == ["mb-md-${mb}", "mb-lg-${mb ? 1 : 2}"]
  {
    var mb := SampleClassNames()[0];
    PartitionAppend([mb[0]], [mb[1]]);
    assert [mb[0]] + [mb[1]] == [mb[0], mb[1]];
    PartitionAppend([mb[2]], [mb[3]]);
    assert [mb[2]] + [mb[3]] == [mb[2], mb[3]];
    PartitionAppend([mb[0], mb[1]], [mb[2], mb[3]]);
    assert [mb[0], mb[1]] + [mb[2], mb[3]] == mb;
  }

  /** How the classes of the two-element arrays `pt={[1,3]}` and `pb={[2, height]}` split. */
  lemma SamplePairPartitions()
    ensures var pt, pb := SampleClassNames()[4], SampleClassNames()[5];
            StaticTexts(pt) == ["pt-1", "pt-xs-3"] && InterpolatedTexts(pt) == [] &&
            StaticTexts(pb) == ["pb-2"] && InterpolatedTexts(pb) == ["pb-xs-${height}"]
  {
    var pt, pb := SampleClassNames()[4], SampleClassNames()[5];
    PartitionAppend([pt[0]], [pt[1]]);
    assert [pt[0]] + [pt[1]] == pt;
    PartitionAppend([pb[0]], [pb[1]]);
    assert [pb[0]] + [pb[1]] == pb;
  }

  /** The two lists after the first sample attribute. */
  lemma SampleFirstOne()
    ensures var parts := SampleClassNames();
            StaticTexts(Flatten(parts[..1])) == ["mb-1", "mb-xs-2"] &&
            InterpolatedTexts(Flatten(parts[..1])) == ["mb-md-${mb}", "mb-lg-${mb ? 1 : 2}"]
  {
    var parts := SampleClassNames();
    var none: seq<string> := [];
    assert parts[..0] == [];
    SampleBreakpointPartition();
    TextsStep(parts, 0, none, none, ["mb-1", "mb-xs-2"], ["mb-md-${mb}", "mb-lg-${mb ? 1 : 2}"]);
    assert none + ["mb-1", "mb-xs-2"] == ["mb-1", "mb-xs-2"];
    assert none + ["mb-md-${mb}", "mb-lg-${mb ? 1 : 2}"] == ["mb-md-${mb}", "mb-lg-${mb ? 1 : 2}"];
  }

  /** The two lists after the first two sample attributes. */
  lemma SampleFirstTwo()
    ensures var parts := SampleClassNames();
            StaticTexts(Flatten(parts[..2])) == ["mb-1", "mb-xs-2", "ml-5"] &&
            InterpolatedTexts(Flatten(parts[..2])) == ["mb-md-${mb}", "mb-lg-${mb ? 1 : 2}"]
  {
    var none: seq<string> := [];
    SampleFirstOne();
    TextsStep(SampleClassNames(), 1, ["mb-1", "mb-xs-2"], ["mb-md-${mb}", "mb-lg-${mb ? 1 : 2}"], ["ml-5"], none);
    assert ["mb-md-${mb}", "mb-lg-${mb ? 1 : 2}"] + none == ["mb-md-${mb}", "mb-lg-${mb ? 1 : 2}"];
  }

  /** The two lists after the first three sample attributes. */
  lemma SampleFirstHalf()
    ensures var parts := SampleClassNames();
            StaticTexts(Flatten(parts[..3])) == ["mb-1", "mb-xs-2", "ml-5"] &&
            InterpolatedTexts(Flatten(parts[..3])) == ["mb-md-${mb}", "mb-lg-${mb ? 1 : 2}", "mr-${mb}"]
  {
    var none: seq<string> := [];
    SampleFirstTwo();
    TextsStep(SampleClassNames(), 2, ["mb-1", "mb-xs-2", "ml-5"], ["mb-md-${mb}", "mb-lg-${mb ? 1 : 2}"], none, ["mr-${mb}"]);
    assert ["mb-1", "mb-xs-2", "ml-5"] + none == ["mb-1", "mb-xs-2", "ml-5"];
  }

  /** The two lists after the first five sample attributes. */
  lemma SampleFirstFive()
    ensures var parts := SampleClassNames();
            StaticTexts(Flatten(parts[..5])) == ["mb-1", "mb-xs-2", "ml-5", "mt-4", "pt-1", "pt-xs-3"] &&
            InterpolatedTexts(Flatten(parts[..5])) == ["mb-md-${mb}", "mb-lg-${mb ? 1 : 2}", "mr-${mb}"]
  {
    var parts := SampleClassNames();
    var none: seq<string> := [];
    var dynamic := ["mb-md-${mb}", "mb-lg-${mb ? 1 : 2}", "mr-${mb}"];
    SampleFirstHalf();
    SamplePairPartitions();
    TextsStep(parts, 3, ["mb-1", "mb-xs-2", "ml-5"], dynamic, ["mt-4"], none);
    assert dynamic + none == dynamic;
    TextsStep(parts, 4, ["mb-1", "mb-xs-2", "ml-5", "mt-4"], dynamic, ["pt-1", "pt-xs-3"], none);
  }

  /** The two lists after all six sample attributes. */
  lemma SampleTexts()
    ensures var cs := Flatten(SampleClassNames());
            StaticTexts(cs) == ["mb-1", "mb-xs-2", "ml-5", "mt-4", "pt-1", "pt-xs-3", "pb-2"] &&
            InterpolatedTexts(cs) == ["mb-md-${mb}", "mb-lg-${mb ? 1 : 2}", "mr-${mb}", "pb-xs-${height}"]
  {
    var parts := SampleClassNames();
    SampleFirstFive();
    SamplePairPartitions();
    TextsStep(parts, 5, ["mb-1", "mb-xs-2", "ml-5", "mt-4", "pt-1", "pt-xs-3"], ["mb-md-${mb}", "mb-lg-${mb ? 1 : 2}", "mr-${mb}"],
              ["pb-2"], ["pb-xs-${height}"]);
    assert parts[..6] == parts;
  }

  /** The `className` attribute built from the sample's classes: a template of the four
      interpolated fragments followed by the seven plain classes. */
  lemma SampleClassNameAttribute()
    ensures ClassNameAttribute(Flatten(SampleClassNames())) == JSXAttribute("className", Some(JSXExpressionContainer(TemplateLiteral(
              Join(["mb-md-${mb}", "mb-lg-${mb ? 1 : 2}", "mr-${mb}", "pb-xs-${height}",
                    "mb-1", "mb-xs-2", "ml-5", "mt-4", "pt-1", "pt-xs-3", "pb-2"])))))
  {
    SampleTexts();
    var dynamic := ["mb-md-${mb}", "mb-lg-${mb ? 1 : 2}", "mr-${mb}", "pb-xs-${height}"];
    var plain := ["mb-1", "mb-xs-2", "ml-5", "mt-4", "pt-1", "pt-xs-3", "pb-2"];
    assert dynamic + plain == ["mb-md-${mb}", "mb-lg-${mb ? 1 : 2}", "mr-${mb}", "pb-xs-${height}",
                               "mb-1", "mb-xs-2", "ml-5", "mt-4", "pt-1", "pt-xs-3", "pb-2"];
  }

  /** On the sample element every attribute is replaced by one `className` whose template
      lists the four interpolated fragments first and the seven plain classes after them. */
  lemma SampleRewrite()
    ensures Rewrite(SampleAttributes()) == Ok([JSXAttribute("className", Some(JSXExpressionContainer(TemplateLiteral(
              Join(["mb-md-${mb}", "mb-lg-${mb ? 1 : 2}", "mr-${mb}", "pb-xs-${height}",
                    "mb-1", "mb-xs-2", "ml-5", "mt-4", "pt-1", "pt-xs-3", "pb-2"])))))])
  {
    SampleEach();
    RewriteEach(SampleAttributes(), SampleClassNames());
    SampleClassNameAttribute();
  }
}

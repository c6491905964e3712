# babel-atomic-jsx: the attribute-to-class compiler, in Dafny

`index.js` is a Babel plugin. For every JSX opening element it walks the element's attributes.
It turns each value into class names through three dispatch tables keyed on the value's node type:
`leafNodeHandlers`, `expressionNodeHandlers` and `nodeHandlers`.

- A literal (`ml="5"`, `mt={4}`) yields the plain class `name-value`.
- A dynamic leaf (an identifier, a conditional or a logical expression) yields the interpolated fragment `name-${code}`.
- An array (`mb={[1, 2, mb]}`) hands element `i` to the leaf table under the name `name-<breakpoint i>`.
  The breakpoint table is `[null, 'xs', 'md', 'lg']`.

Each handled attribute is removed. Afterwards a single `className` attribute is appended:
- a string literal of the plain classes when there is no interpolated fragment;
- otherwise a template literal listing the interpolated fragments first and then the plain classes.

The model has four modules.

- `Syntax` (`syntax.dfy`) covers the slice of the Babel tree the compiler reads: value nodes, attributes and the two ways dispatch fails.
- `ClassNames` (`class_names.dfy`) holds:
  - the breakpoint table and the element-name rule;
  - the decimal text of numeric literals;
  - the two class-name templates;
  - `join(' ')` and its inverse `split(' ')`.
- `Handlers` (`handlers.dfy`) has two parts:
  - The handler tables, as functions from an attribute name and a value node to the class names or the dispatch error.
  - The class `HandlerState`, holding the two lists (`classNames`, `interpolatedClassNames`) that the handlers push into. Its methods are the handlers themselves and are proved against those functions. `HandleArray` is the `forEach` loop.
- `Element` (`element.dfy`) covers:
  - the attribute visitor;
  - the traversal over an `OpeningElement` whose attribute list is edited in place;
  - `getExpression`;
  - the `JSXOpeningElement` visitor.

  `Rewrite` states the visitor's outcome as a function of the original attribute list. The methods are proved to produce exactly that outcome. The module ends with the element of `test.js`, worked through to its final `className`.

Errors are values:
- `NoHandler(table, type)` is a table lookup that finds no entry, where the source throws.
- `NoValue(name)` is an attribute written without a value, where reading `value.type` throws.

Behaviour of `index.js` worth noting:
- The allow-list check is `true || properties[name]`, so every `JSXAttribute` is compiled and removed, whatever its name.
- A `className` attribute is appended even when both lists are empty. Its value is then the empty string literal.
- A `className` already on the element is a `JSXAttribute` like any other. It is consumed (a string value becomes `className-<value>`), so no duplicate arises.
- A template-literal value has no handler and aborts.
- There is no stylesheet, rule table, unit scaling or media query anywhere in `index.js`. Numbers are written as they are: `mt={4}` gives `mt-4`.
- A breakpoint array's position 1 is labelled `xs`, so `[1, 2]` gives `mb-1 mb-xs-2`.

## Model

| member | source | states |
|---|---|---|
| ClassNames.BreakpointAt | index.js:23-28 | positions 1 to 3 carry a label and position 0 and every position past the table carry none; each label is a non-empty string, hence truthy |
| ClassNames.ElementName | index.js:48-50 | position 0 and positions past the table keep the bare name; positions 1, 2, 3 append `-xs`, `-md`, `-lg` |
| ClassNames.Decimal | index.js:30 | a numeric literal's text is a non-empty string of digits, with a leading `0` only for zero |
| ClassNames.DecimalRoundTrip | index.js:30 | the decimal text reads back as the same number |
| ClassNames.NumericClassNamesDistinct | index.js:30 | two numeric literals under one name give the same class only when they are equal |
| ClassNames.StaticClassName | index.js:30 | the plain class is the name, then `-`, then the value's text, with nothing else |
| ClassNames.InterpolatedClassName | index.js:34 | the fragment is the name, then `-${`, then the leaf's source text, then `}` |
| ClassNames.JoinEnds | index.js:77 | `join(' ')` of no class is the empty text; otherwise the text starts with the first class and ends with the last |
| ClassNames.JoinAppend | index.js:80 | joining two non-empty lists puts exactly one space between the two joined texts |
| ClassNames.SplitJoin | index.js:77 | splitting the space-joined class list on spaces gives back the list, when no class is empty or holds a space |
| Handlers.Code | index.js:33 | the printed source text of an identifier is its name |
| Handlers.LeafClassName | index.js:37-43 | the leaf table has an entry exactly for the five leaf types; a missing entry fails with that node's type; literals give plain classes and dynamic leaves give interpolated ones |
| Handlers.ArrayClassNames | index.js:47-53 | on success, one class name per array element |
| Handlers.ArraySucceeds | index.js:47-53 | the array handler succeeds exactly when every element is a leaf |
| Handlers.ArrayClassNameAt | index.js:48-51 | class name `i` is the leaf handler's result for element `i` under the breakpoint name of position `i`, so index order is kept |
| Handlers.ArrayClassNamesFrom | index.js:48-51 | a list agreeing with the leaf handler at every position, under that position's name, is the array's result |
| Handlers.ArrayFirstError | index.js:48-51 | the array fails with the leaf-table error of its first non-leaf element |
| Handlers.ExpressionClassNames | index.js:45-54 | succeeds exactly on a leaf or an array of leaves; yields one class for a leaf and one per element for an array; any other node fails in the expression table with its type |
| Handlers.NodeClassNames | index.js:56-62 | succeeds exactly on handleable values, bare or inside one expression container; the width matches the handled expression; other bare nodes fail in the node table with their type |
| Handlers.PartitionSize | index.js:30-35 | every class name lands in exactly one of the two lists |
| Handlers.PartitionAppend | index.js:30-35 | each of the two lists of a concatenation is the concatenation of the lists |
| Handlers.StaticTextAt | index.js:30 | a plain class keeps its relative position among the plain classes |
| Handlers.InterpolatedTextAt | index.js:32-35 | an interpolated fragment keeps its relative position among the interpolated fragments |
| Handlers.HandlerState.constructor | index.js:90-91 | the per-element state starts with both lists empty |
| Handlers.HandlerState.PushClassName | index.js:30 | appends `name-value` to `classNames` and leaves `interpolatedClassNames` unchanged |
| Handlers.HandlerState.PushInterpolatedClassName | index.js:32-35 | appends `name-${code}` to `interpolatedClassNames` and leaves `classNames` unchanged |
| Handlers.HandlerState.HandleLeaf | index.js:37-43 | fails exactly as `LeafClassName` does; on success, pushes exactly its class into the matching list |
| Handlers.HandlerState.HandleElement | index.js:48-51 | the `forEach` callback: the leaf handler under the name of the element's position |
| Handlers.HandlerState.HandleArray | index.js:47-53 | the loop fails exactly as `ArrayClassNames` does; on success, both lists are extended by the array's classes in element order |
| Handlers.HandlerState.HandleExpression | index.js:45-54 | fails exactly as `ExpressionClassNames` does; on success, both lists are extended by its classes |
| Handlers.HandlerState.HandleNode | index.js:56-61 | fails exactly as `NodeClassNames` does; on success, both lists are extended by its classes |
| Element.Kept | index.js:65-66 | the attributes the attribute visitor never fires on are all spread attributes |
| Element.KeptMembers | index.js:65-66 | every spread attribute is kept and no other attribute is |
| Element.KeptAppend | index.js:65-66 | the kept attributes of two lists in sequence are those of the first followed by those of the second, so spread attributes keep their order |
| Element.AttributeClassNames | index.js:66-69 | a spread attribute yields no class; an attribute without a value fails with `NoValue` for its name |
| Element.AttributesClassNames | index.js:92 | a failing attribute list fails with the error of one of its own `JSXAttribute`s |
| Element.AttributesSucceed | index.js:65-73 | an attribute list compiles exactly when every attribute is a spread or has a handleable value |
| Element.FailedStep | index.js:66-72 | when every attribute before it compiles, a failing attribute's own error is the error of the whole list |
| Element.AttributesErrorPrefix | index.js:65-73 | the first failing attribute decides the error of the whole element |
| Element.AttributesAppend | index.js:65-73 | the classes of two attribute lists in sequence are the classes of the first followed by those of the second |
| Element.GetExpression | index.js:75-86 | a string literal exactly when there is no interpolated fragment, otherwise a template in an expression container; empty lists give `""` |
| Element.TemplateText | index.js:75-86 | for all inputs, the new value's text is the joined fragments, then the joined plain classes, with one space between them only when both lists are non-empty |
| Element.ClassListRoundTrip | index.js:75-86 | when no class is empty and none holds a space, splitting the new value's text on spaces gives the interpolated fragments followed by the plain classes, each in its own order; a fragment with a space in it, such as a conditional's `mb ? 1 : 2`, is outside this lemma |
| Element.ClassNameAttribute | index.js:94-98 | the appended attribute is named `className`, has a value, and that value is a string literal exactly when every class is a plain one |
| Element.Rewrite | index.js:88-100 | fails exactly when compiling the attributes fails, with the same error; on success, the kept spread attributes come first and one `className` attribute comes last, holding `getExpression` of the element's two lists |
| Element.RewriteEach | index.js:88-100 | an element whose attributes are all `JSXAttribute`s that compile becomes one `className` attribute holding every attribute's classes in attribute order |
| Element.RewriteSucceeds | index.js:88-100 | visiting succeeds exactly when every attribute is a spread or has a handleable value |
| Element.RewriteWithoutAttributes | index.js:88-100 | an element with no `JSXAttribute` keeps its attributes and gains `className=""` |
| Element.RemoveAttribute | index.js:70 | `path.remove()` deletes exactly the attribute at its position |
| Element.VisitAttribute | index.js:66-72 | fails exactly as the attribute's value fails in the node table, or as a missing value does; on success, the attribute is removed and its classes are pushed |
| Element.TraverseAttributes | index.js:92 | fails exactly as the attribute list does; on success, only the spread attributes remain and the two lists hold the element's classes |
| Element.VisitOpeningElement | index.js:89-100 | the in-place visitor fails exactly as `Rewrite` does and otherwise leaves exactly `Rewrite`'s attribute list |
| Element.SampleBreakpointArray | test.js:5 | `mb={[1, 2, mb, mb ? 1 : 2]}` gives `mb-1`, `mb-xs-2`, `mb-md-${mb}`, `mb-lg-${mb ? 1 : 2}` |
| Element.SampleRewrite | test.js:4-11 | the sample element becomes a single `className` template: its four fragments, then its seven plain classes |

## Left out

- Babel plumbing is not modelled: the plugin factory, `babel.transformFileSync`, the `console.log` calls (index.js:59, 109-113) and the registration of the visitors. These are I/O.
- `generate(node).code` is not modelled. A dynamic leaf carries its printed source text as a string, and the printer's formatting is not modelled.
- The re-parse of the synthesized template and `t.cloneDeep` in `getExpression` are modelled as yielding a template literal node with the joined text. A fragment that does not parse is not modelled: a backtick or `${` would make the parser fail or split the template.
- Numeric literals are natural numbers. JavaScript's rendering of fractions is not modelled, and neither is its exponent notation for numbers from 10^21 up (`1e+21`).
- Array holes are not modelled: `[1, , 2]` has a `null` element, and reading its `type` throws.
- Namespaced attribute names (`xlink:href`) are not modelled.
- JSX nested inside spread-attribute arguments is not modelled; the traversal would also visit it.
- Babel's re-queueing of paths after `path.remove()` is not modelled. Removal is an index into the attribute list.
- Handlers.HandlerState.HandleLeaf: the lists after a failure are left unspecified, because the error aborts the whole transform.
- Handlers.HandlerState.HandleElement: the lists after a failure are left unspecified, because the error aborts the whole transform.
- Handlers.HandlerState.HandleArray: the lists after a failure are left unspecified, because the error aborts the whole transform.
- Handlers.HandlerState.HandleExpression: the lists after a failure are left unspecified, because the error aborts the whole transform.
- Handlers.HandlerState.HandleNode: the lists after a failure are left unspecified, because the error aborts the whole transform.
- Element.VisitAttribute: the list and the state after a failure are left unspecified, because the error aborts the whole transform.
- Element.TraverseAttributes: the list and the state after a failure are left unspecified, because the error aborts the whole transform.
- Element.VisitOpeningElement: the attribute list after a failure is left unspecified, because the error aborts the whole transform.

/** How class names are spelled: the breakpoint table, the rendering of numeric literals,
    the two class-name templates and the space-joined class list. */
module ClassNames {
  import opened Syntax

  /** The breakpoint labels by array position; position 0 carries none. */
  const Breakpoints: seq<Option<string>> := [None, Some("xs"), Some("md"), Some("lg")]

  /** `breakpoints[index]`: a position past the table reads `undefined`, which is falsy like `null`. */
  function BreakpointAt(index: nat): (r: Option<string>)
    ensures r.None? <==> index == 0 || index >= 4
    ensures r.Some? ==> r.value != ""
  {
    if index < |Breakpoints| then Breakpoints[index] else None
  }

  /** The name an array element at `index` is handled under: the attribute name, followed by
      `-` and the breakpoint label when the table has one for that position. */
  function ElementName(name: string, index: nat): (r: string)
    ensures index == 0 || index >= 4 ==> r == name
    ensures index == 1 ==> r == name + "-xs"
    ensures index == 2 ==> r == name + "-md"
    ensures index == 3 ==> r == name + "-lg"
  {
    match BreakpointAt(index)
    case Some(breakpoint) => name + "-" + breakpoint
    case None => name
  }

  predicate IsDigits(s: string)
  {
    forall i :: 0 <= i < |s| ==> '0' <= s[i] <= '9'
  }

  function DigitChar(d: nat): (c: char)
    requires d < 10
    ensures '0' <= c <= '9' && c as int - '0' as int == d
  {
    ('0' as int + d) as char
  }

  /** The decimal text JavaScript gives a natural number below 10^21 in a template: digits
      only, and no leading zero except for zero itself. (From 10^21 on JavaScript switches to
      exponent notation, which is not modelled.) */
  function Decimal(n: nat): (s: string)
    ensures |s| > 0 && IsDigits(s)
    ensures s[0] == '0' ==> n == 0
    decreases n
  {
    if n < 10 then [DigitChar(n)] else Decimal(n / 10) + [DigitChar(n % 10)]
  }

  /** The number a string of decimal digits denotes. */
  function DecimalValue(s: string): nat
    requires IsDigits(s)
    decreases |s|
  {
    if s == [] then 0
    else 10 * DecimalValue(s[..|s| - 1]) + (s[|s| - 1] as int - '0' as int)
  }

  /** Rendering a numeric literal loses nothing: its text reads back as the same number. */
  lemma {:induction false} DecimalRoundTrip(n: nat)
    ensures DecimalValue(Decimal(n)) == n
    decreases n
  {
    if n >= 10 {
      DecimalRoundTrip(n / 10);
      var s := Decimal(n);
      assert s[..|s| - 1] == Decimal(n / 10);
    }
  }

  /** Two numeric literals under one name give the same class only if they are equal. */
  lemma NumericClassNamesDistinct(name: string, m: nat, n: nat)
    requires StaticClassName(name, Decimal(m)) == StaticClassName(name, Decimal(n))
    ensures m == n
  {
    var pre := |name| + 1;
    assert Decimal(m) == StaticClassName(name, Decimal(m))[pre..];
    assert Decimal(n) == StaticClassName(name, Decimal(n))[pre..];
    DecimalRoundTrip(m);
    DecimalRoundTrip(n);
  }

  /** `${name}-${value}`: the class a literal leaf yields. It is the name, a hyphen, then the value. */
  function StaticClassName(name: string, value: string): (r: string)
    ensures |r| == |name| + 1 + |value|
    ensures r[..|name|] == name && r[|name|] == '-' && r[|name| + 1..] == value
  {
    name + "-" + value
  }

  /** `${name}-\${${code}}`: the class fragment a dynamic leaf yields, a template placeholder
      around the leaf's source text. */
  function InterpolatedClassName(name: string, code: string): (r: string)
    ensures |r| == |name| + |code| + 4
    ensures r[..|name|] == name && r[|name|..|name| + 3] == "-${"
    ensures r[|name| + 3..|r| - 1] == code && r[|r| - 1] == '}'
  {
    name + "-${" + code + "}"
  }

  /** `parts.join(' ')`. */
  function Join(parts: seq<string>): string
    decreases |parts|
  {
    if |parts| == 0 then ""
    else if |parts| == 1 then parts[0]
    else Join(parts[..|parts| - 1]) + " " + parts[|parts| - 1]
  }

  /** The joined text of no class is empty; otherwise it starts with the first class and
      ends with the last. */
  lemma {:induction false} JoinEnds(parts: seq<string>)
    ensures |parts| == 0 ==> Join(parts) == ""
    ensures |parts| > 0 ==> |parts[0]| <= |Join(parts)| && Join(parts)[..|parts[0]|] == parts[0]
    ensures |parts| > 0 ==> var last, r := parts[|parts| - 1], Join(parts);
                            |last| <= |r| && r[|r| - |last|..] == last
    decreases |parts|
  {
    if |parts| > 1 {
      var init := parts[..|parts| - 1];
      JoinEnds(init);
      assert init[0] == parts[0];
      var front := Join(init);
      assert (front + " " + parts[|parts| - 1])[..|parts[0]|] == front[..|parts[0]|];
    }
  }

  /** Joining two non-empty lists puts exactly one space between their joined texts. */
  lemma {:induction false} JoinAppend(a: seq<string>, b: seq<string>)
    requires |a| > 0 && |b| > 0
    ensures Join(a + b) == Join(a) + " " + Join(b)
    decreases |b|
  {
    if |b| == 1 {
      assert (a + b)[..|a + b| - 1] == a;
    } else {
      var b' := b[..|b| - 1];
      assert (a + b)[..|a + b| - 1] == a + b';
      JoinAppend(a, b');
    }
  }

  predicate SpaceFree(s: string)
  {
    forall i :: 0 <= i < |s| ==> s[i] != ' '
  }

  /** The space-separated fields of a string, `s.split(' ')`. */
  function Fields(s: string): (r: seq<string>)
    ensures |r| > 0
    decreases |s|
  {
    if s == [] then [""]
    else
      var f := Fields(s[..|s| - 1]);
      var c := s[|s| - 1];
      if c == ' ' then f + [""] else f[..|f| - 1] + [f[|f| - 1] + [c]]
  }

  /** The class list a class attribute's text denotes; the empty text denotes no class. */
  function Split(s: string): seq<string>
  {
    if s == [] then [] else Fields(s)
  }

  /** One more character: a space opens a new field, any other character extends the last. */
  lemma FieldsSnoc(s: string, c: char)
    ensures var f := Fields(s);
            Fields(s + [c]) == if c == ' ' then f + [""] else f[..|f| - 1] + [f[|f| - 1] + [c]]
  {
    assert (s + [c])[..|s|] == s;
  }

  /** Extending the last of a list of fields twice is extending it once by both. */
  lemma ExtendLast(f: seq<string>, w: string, c: char)
    requires |f| > 0
    ensures var g := f[..|f| - 1] + [f[|f| - 1] + w];
            g[..|g| - 1] + [g[|g| - 1] + [c]] == f[..|f| - 1] + [f[|f| - 1] + (w + [c])]
  {
    var g := f[..|f| - 1] + [f[|f| - 1] + w];
    assert g[..|g| - 1] == f[..|f| - 1];
    assert (f[|f| - 1] + w) + [c] == f[|f| - 1] + (w + [c]);
  }

  /** A character other than a space, after a word that extends the last field, extends it too. */
  lemma FieldsExtend(p: string, w: string, c: char)
    requires c != ' '
    requires var f := Fields(p); Fields(p + w) == f[..|f| - 1] + [f[|f| - 1] + w]
    ensures var f := Fields(p); Fields((p + w) + [c]) == f[..|f| - 1] + [f[|f| - 1] + (w + [c])]
  {
    FieldsSnoc(p + w, c);
    ExtendLast(Fields(p), w, c);
  }

  /** Appending a word without spaces extends the last field. */
  lemma {:induction false} FieldsAppendWord(p: string, w: string)
    requires SpaceFree(w)
    ensures var f := Fields(p); Fields(p + w) == f[..|f| - 1] + [f[|f| - 1] + w]
    decreases |w|
  {
    if w == [] {
      var f := Fields(p);
      assert p + w == p;
      assert f[..|f| - 1] + [f[|f| - 1]] == f;
      assert f[|f| - 1] + w == f[|f| - 1];
    } else {
      var w', c := w[..|w| - 1], w[|w| - 1];
      assert SpaceFree(w') by {
        forall i | 0 <= i < |w'| ensures w'[i] != ' ' { assert w'[i] == w[i]; }
      }
      FieldsAppendWord(p, w');
      FieldsExtend(p, w', c);
      assert w' + [c] == w;
      assert (p + w') + [c] == p + w;
    }
  }

  /** Splitting the joined text gives back the class list, when no class is empty or holds a space. */
  lemma {:induction false} SplitJoin(parts: seq<string>)
    requires forall i :: 0 <= i < |parts| ==> parts[i] != "" && SpaceFree(parts[i])
    ensures Split(Join(parts)) == parts
    decreases |parts|
  {
    if |parts| == 1 {
      FieldsAppendWord("", parts[0]);
      assert "" + parts[0] == parts[0];
    } else if |parts| > 1 {
      var init := parts[..|parts| - 1];
      SplitJoin(init);
      var j := Join(init);
      assert j != "";
      assert (j + " ")[..|j + " "| - 1] == j;
      assert Fields(j + " ") == Fields(j) + [""];
      var last := parts[|parts| - 1];
      FieldsAppendWord(j + " ", last);
      assert "" + last == last;
      assert Fields((j + " ") + last) == Fields(j) + [last];
      assert Join(parts) == (j + " ") + last;
      assert init + [last] == parts;
    }
  }
}

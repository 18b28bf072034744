/** Bounded page output (chrome-extension/src/content.js): HTML cut to a number of
    characters and a depth, and visible text handed out in pages.  Both are cuts of an
    output without bounds. */
module PageOutput {
  import opened Text

  const REDACTED := "[REDACTED]"
  const MAX_TEXT_SCAN_CHARS := 2_000_001
  const MAX_TEXT_CHARS := 1_000_000
  const MAX_CURSOR := 1_000_000

  const VOID_ELEMENTS := {"area", "base", "br", "col", "embed", "hr", "img", "input", "link", "meta", "param", "source",
                          "track", "wbr"}

  /** `secret` if the value must not be shown. */
  datatype Attribute = Attribute(name: string, value: string, secret: bool)

  /** A page: what is visible, sensitive or excluded is known of every element. */
  datatype Node =
    | TextNode(value: string)
    | Element(tag: string, attributes: seq<Attribute>, children: seq<Node>, shadow: seq<Node>,
              sensitive: bool, visible: bool, excluded: bool)
    | OtherNode

  // ---------------------------------------------------------------------
  // Escaping
  // ---------------------------------------------------------------------

  function ReplaceAll(s: string, c: char, r: string): string {
    if s == "" then "" else (if s[0] == c then r else [s[0]]) + ReplaceAll(s[1..], c, r)
  }

  function EscapeHTML(s: string): string {
    ReplaceAll(ReplaceAll(ReplaceAll(s, '&', "&amp;"), '<', "&lt;"), '>', "&gt;")
  }

  function EscapeAttribute(s: string): string {
    ReplaceAll(EscapeHTML(s), '"', "&quot;")
  }

  function Entity(c: char): string {
    if c == '&' then "&amp;" else if c == '<' then "&lt;" else if c == '>' then "&gt;"
    else if c == '"' then "&quot;" else [c]
  }

  /** One character at a time; quotes only where `quotes` asks for it. */
  function Escaped(s: string, quotes: bool): string {
    if s == "" then "" else (if s[0] == '"' && !quotes then "\"" else Entity(s[0])) + Escaped(s[1..], quotes)
  }

  lemma {:induction false} ReplaceAllOfConcat(a: string, b: string, c: char, r: string)
    ensures ReplaceAll(a + b, c, r) == ReplaceAll(a, c, r) + ReplaceAll(b, c, r)
  {
    if a == "" {
      assert a + b == b;
    } else {
      var first := if a[0] == c then r else [a[0]];
      ReplaceAllOfConcat(a[1..], b, c, r);
      assert (a + b)[1..] == a[1..] + b && (a + b)[0] == a[0];
      assert first + (ReplaceAll(a[1..], c, r) + ReplaceAll(b, c, r)) ==
        first + ReplaceAll(a[1..], c, r) + ReplaceAll(b, c, r);
    }
  }

  lemma {:induction false} ReplaceAllLeaves(s: string, c: char, r: string)
    requires c !in s
    ensures ReplaceAll(s, c, r) == s
  {
    if s != "" {
      ReplaceAllLeaves(s[1..], c, r);
      assert s == [s[0]] + s[1..];
    }
  }

  /** The passes of `escapeHTML` and `escapeAttribute`, one after the other, do not disturb
      each other. */
  lemma {:induction false} EscapingIsCharacterwise(s: string)
    ensures EscapeHTML(s) == Escaped(s, false) && EscapeAttribute(s) == Escaped(s, true)
  {
    if s != "" {
      var head := [s[0]];
      var amp := if s[0] == '&' then "&amp;" else head;
      var lt := if s[0] == '<' then "&lt;" else amp;
      var gt := if s[0] == '>' then "&gt;" else lt;
      EscapingIsCharacterwise(s[1..]);
      var s1 := ReplaceAll(s[1..], '&', "&amp;");
      var s2 := ReplaceAll(s1, '<', "&lt;");
      var s3 := ReplaceAll(s2, '>', "&gt;");
      FirstPass(s, '&', "&amp;");
      hide ReplaceAll;
      NextPass(s[0], '<', amp, "&lt;", s1);
      NextPass(s[0], '>', lt, "&gt;", s2);
      NextPass(s[0], '"', gt, "&quot;", s3);
    }
  }

  lemma FirstPass(s: string, target: char, r: string)
    requires s != ""
    ensures ReplaceAll(s, target, r) == (if s[0] == target then r else [s[0]]) + ReplaceAll(s[1..], target, r)
  {
  }

  /** A pass over what earlier passes made of one character and of the rest. */
  lemma NextPass(c: char, target: char, made: string, r: string, rest: string)
    requires made == [c] || (c != target && target !in made)
    ensures ReplaceAll(made + rest, target, r) == (if c == target then r else made) + ReplaceAll(rest, target, r)
  {
    ReplaceAllOfConcat(made, rest, target, r);
    if c != target {
      ReplaceAllLeaves(made, target, r);
    }
  }

  /** Reading the entities back. */
  function Unescaped(s: string): string {
    if s == "" then ""
    else if "&amp;" <= s then "&" + Unescaped(s[5..])
    else if "&lt;" <= s then "<" + Unescaped(s[4..])
    else if "&gt;" <= s then ">" + Unescaped(s[4..])
    else if "&quot;" <= s then "\"" + Unescaped(s[6..])
    else [s[0]] + Unescaped(s[1..])
  }

  /** Escaped text cannot end a tag, nor an attribute in quotes. */
  lemma {:induction false} EscapedIsSafe(s: string, quotes: bool)
    ensures '<' !in Escaped(s, quotes) && '>' !in Escaped(s, quotes) && (quotes ==> '"' !in Escaped(s, quotes))
  {
    if s != "" { EscapedIsSafe(s[1..], quotes); }
  }

  /** Escaped text means the text it was made from. */
  lemma {:induction false} EscapingIsLossless(s: string, quotes: bool)
    ensures Unescaped(Escaped(s, quotes)) == s
  {
    if s != "" {
      EscapingIsLossless(s[1..], quotes);
      var head := if s[0] == '"' && !quotes then "\"" else Entity(s[0]);
      var rest := Escaped(s[1..], quotes);
      hide Escaped;
      UnescapedOfEntity(s[0], head, rest);
      assert s == [s[0]] + s[1..];
    }
  }

  lemma UnescapedOfEntity(c: char, head: string, rest: string)
    requires head == Entity(c) || (c == '"' && head == "\"")
    ensures Unescaped(head + rest) == [c] + Unescaped(rest)
  {
    var s := head + rest;
    assert s[|head|..] == rest;
    if |head| > 1 {
      assert head <= s && s[1] == head[1];
      assert "&lt;" <= s ==> s[1] == 'l';
      assert "&gt;" <= s ==> s[1] == 'g';
      assert "&quot;" <= s ==> s[1] == 'q';
      assert "&amp;" <= s ==> s[1] == 'a';
    } else {
      assert s[0] == c != '&';
    }
  }

  // ---------------------------------------------------------------------
  // HTML
  // ---------------------------------------------------------------------

  function AttributeText(a: Attribute): string {
    " " + a.name + "=\"" + EscapeAttribute(if a.secret then REDACTED else a.value) + "\""
  }

  function AttributesText(attributes: seq<Attribute>): string {
    if attributes == [] then "" else AttributeText(attributes[0]) + AttributesText(attributes[1..])
  }

  function OpenTag(n: Node): string
    requires n.Element?
  {
    "<" + n.tag + AttributesText(n.attributes) + ">"
  }

  function CloseTag(n: Node): string
    requires n.Element?
  {
    "</" + n.tag + ">"
  }

  /** The serialization without bounds. */
  function Whole(n: Node): string {
    match n
    case TextNode(value) => EscapeHTML(value)
    case OtherNode => ""
    case Element(tag, _, children, _, sensitive, _, excluded) =>
      if excluded then ""
      else if tag in VOID_ELEMENTS then OpenTag(n)
      else OpenTag(n) + (if sensitive then REDACTED else WholeAll(children)) + CloseTag(n)
  }

  function WholeAll(nodes: seq<Node>): string {
    if nodes == [] then "" else WholeAll(nodes[..|nodes| - 1]) + Whole(nodes[|nodes| - 1])
  }

  /** Selected elements, one per line. */
  function WholeLines(nodes: seq<Node>): string {
    if nodes == [] then ""
    else
      WholeLines(nodes[..|nodes| - 1]) + (if |nodes| > 1 then "\n" else "") + Whole(nodes[|nodes| - 1])
  }

  /** Serialized text that may stop early, at a node that is too deep. */
  datatype Output = Output(text: string, cut: bool)

  /** Nothing is written after a cut. */
  function Then(a: Output, b: Output): Output {
    if a.cut then a else Output(a.text + b.text, b.cut)
  }

  lemma ThenJoins(a: Output, b: Output, c: Output)
    ensures Then(Then(a, b), c) == Then(a, Then(b, c))
  {
  }

  /** The serialization of a node that has `left` more levels to show. */
  function ToDepth(n: Node, left: nat): Output {
    match n
    case TextNode(value) => Output(EscapeHTML(value), false)
    case OtherNode => Output("", false)
    case Element(tag, _, children, _, sensitive, _, excluded) =>
      if excluded then Output("", false)
      else if tag in VOID_ELEMENTS then Output(OpenTag(n), false)
      else
        var inner :=
          if sensitive then Output(REDACTED, false)
          else if 0 < left then ToDepthAll(children, left - 1)
          else Output("", children != []);
        Then(Then(Output(OpenTag(n), false), inner), Output(CloseTag(n), false))
  }

  function ToDepthAll(nodes: seq<Node>, left: nat): Output {
    if nodes == [] then Output("", false)
    else Then(ToDepthAll(nodes[..|nodes| - 1], left), ToDepth(nodes[|nodes| - 1], left))
  }

  /** Selected elements, one per line, to a depth. */
  function LinesToDepth(nodes: seq<Node>, maxDepth: nat): Output {
    if nodes == [] then Output("", false)
    else
      var lines := LinesToDepth(nodes[..|nodes| - 1], maxDepth);
      Then(if |nodes| > 1 then Then(lines, Output("\n", false)) else lines, ToDepth(nodes[|nodes| - 1], maxDepth))
  }

  /** Some node has shown children below the last level. */
  ghost predicate TooDeep(n: Node, left: nat) {
    && n.Element? && !n.excluded && n.tag !in VOID_ELEMENTS && !n.sensitive && n.children != []
    && (left == 0 || exists i :: 0 <= i < |n.children| && TooDeep(n.children[i], left - 1))
  }

  /** `value` is `whole` cut off, if `cut`. */
  predicate IsCut(value: string, cut: bool, whole: string) {
    value <= whole && (cut <==> |value| < |whole|)
  }

  lemma ThenIsCut(a: Output, b: Output, whole: string, more: string)
    requires IsCut(a.text, a.cut, whole) && IsCut(b.text, b.cut, more)
    ensures IsCut(Then(a, b).text, Then(a, b).cut, whole + more)
  {
    if !a.cut { assert a.text == whole; }
  }

  /** Serializing to a depth cuts the whole serialization off, exactly if a node is too
      deep. */
  lemma {:induction false} ToDepthIsCut(n: Node, left: nat)
    ensures IsCut(ToDepth(n, left).text, ToDepth(n, left).cut, Whole(n))
    ensures ToDepth(n, left).cut <==> TooDeep(n, left)
  {
    if n.Element? && !n.excluded && n.tag !in VOID_ELEMENTS {
      var inner := if n.sensitive then Output(REDACTED, false)
                   else if 0 < left then ToDepthAll(n.children, left - 1) else Output("", n.children != []);
      var whole := if n.sensitive then REDACTED else WholeAll(n.children);
      if !n.sensitive && 0 < left { AllToDepthIsCut(n.children, left - 1); }
      if !n.sensitive && left == 0 && n.children != [] {
        CutIsShort(n, whole);
      } else {
        ThenIsCut(Output(OpenTag(n), false), inner, OpenTag(n), whole);
        ThenIsCut(Then(Output(OpenTag(n), false), inner), Output(CloseTag(n), false), OpenTag(n) + whole, CloseTag(n));
      }
    }
  }

  lemma CutIsShort(n: Node, whole: string)
    requires n.Element?
    ensures IsCut(OpenTag(n) + "", true, OpenTag(n) + whole + CloseTag(n))
  {
    assert OpenTag(n) + "" == OpenTag(n);
    assert OpenTag(n) + whole + CloseTag(n) == OpenTag(n) + (whole + CloseTag(n));
  }

  lemma {:induction false} AllToDepthIsCut(nodes: seq<Node>, left: nat)
    ensures IsCut(ToDepthAll(nodes, left).text, ToDepthAll(nodes, left).cut, WholeAll(nodes))
    ensures ToDepthAll(nodes, left).cut <==> exists i :: 0 <= i < |nodes| && TooDeep(nodes[i], left)
  {
    if nodes != [] {
      var init, last := nodes[..|nodes| - 1], nodes[|nodes| - 1];
      AllToDepthIsCut(init, left);
      ToDepthIsCut(last, left);
      ThenIsCut(ToDepthAll(init, left), ToDepth(last, left), WholeAll(init), Whole(last));
      assert forall i :: 0 <= i < |init| ==> init[i] == nodes[i];
    }
  }

  /** The same of all that is selected. */
  lemma {:induction false} LinesToDepthAreCut(nodes: seq<Node>, maxDepth: nat)
    ensures IsCut(LinesToDepth(nodes, maxDepth).text, LinesToDepth(nodes, maxDepth).cut, WholeLines(nodes))
    ensures LinesToDepth(nodes, maxDepth).cut <==> exists i :: 0 <= i < |nodes| && TooDeep(nodes[i], maxDepth)
  {
    if nodes != [] {
      var init, last := nodes[..|nodes| - 1], nodes[|nodes| - 1];
      LinesToDepthAreCut(init, maxDepth);
      ToDepthIsCut(last, maxDepth);
      var lines := LinesToDepth(init, maxDepth);
      var newline := Output("\n", false);
      ThenIsCut(lines, newline, WholeLines(init), "\n");
      if |nodes| > 1 {
        ThenIsCut(Then(lines, newline), ToDepth(last, maxDepth), WholeLines(init) + "\n", Whole(last));
      } else {
        ThenIsCut(lines, ToDepth(last, maxDepth), WholeLines(init), Whole(last));
        assert WholeLines(init) + "" == WholeLines(init);
      }
      assert forall i :: 0 <= i < |init| ==> init[i] == nodes[i];
    }
  }

  function Front(s: string, n: nat): string {
    if |s| <= n then s else s[..n]
  }

  class Serializer {
    const maxChars: nat
    const maxDepth: nat
    var value: string
    var truncated: bool

    constructor (maxChars: nat, maxDepth: nat)
      ensures this.maxChars == maxChars && this.maxDepth == maxDepth && Wrote(Output("", false))
    {
      this.maxChars, this.maxDepth, value, truncated := maxChars, maxDepth, "", false;
    }

    /** `o` is what would have been written so far without the bound on characters. */
    ghost predicate Wrote(o: Output)
      reads this
    {
      value == Front(o.text, maxChars) && truncated == (o.cut || maxChars < |o.text|)
    }

    lemma TruncatedStays(o: Output, more: Output)
      requires Wrote(o) && truncated
      ensures Wrote(Then(o, more))
    {
    }

    method Append(chunk: string, ghost o: Output)
      requires Wrote(o)
      modifies this
      ensures Wrote(Then(o, Output(chunk, false)))
    {
      if truncated {
        TruncatedStays(o, Output(chunk, false));
        return;
      }
      if chunk == "" {
        assert o.text + chunk == o.text;
        return;
      }
      var remaining := maxChars - |value|;
      if |chunk| > remaining {
        value := value + chunk[..remaining];
        truncated := true;
        return;
      }
      value := value + chunk;
    }

    method Serialize(n: Node, depth: nat, ghost o: Output)
      requires Wrote(o) && depth <= maxDepth
      modifies this
      ensures Wrote(Then(o, ToDepth(n, maxDepth - depth)))
      decreases n, 2
    {
      if truncated {
        TruncatedStays(o, ToDepth(n, maxDepth - depth));
        return;
      }
      match n
      case TextNode(text) => Append(EscapeHTML(text), o);
      case OtherNode => assert o.text + "" == o.text;
      case Element(_, _, _, _, _, _, excluded) =>
        if excluded {
          assert o.text + "" == o.text;
        } else {
          SerializeElement(n, depth, o);
        }
    }

    method SerializeElement(n: Node, depth: nat, ghost o: Output)
      requires Wrote(o) && n.Element? && !n.excluded && depth <= maxDepth
      modifies this
      ensures Wrote(Then(o, ToDepth(n, maxDepth - depth)))
      decreases n, 1
    {
      ghost var open, close := Output(OpenTag(n), false), Output(CloseTag(n), false);
      Append(OpenTag(n), o);
      if n.tag in VOID_ELEMENTS { return; }
      ghost var inner := Output(REDACTED, false);
      if n.sensitive {
        Append(REDACTED, Then(o, open));
      } else if depth >= maxDepth {
        inner := Output("", n.children != []);
        if |n.children| > 0 { truncated := true; }
        assert Then(o, open).text + "" == Then(o, open).text;
      } else {
        inner := ToDepthAll(n.children, maxDepth - depth - 1);
        SerializeAll(n, n.children, depth + 1, Then(o, open));
      }
      assert Wrote(Then(Then(o, open), inner));
      if !truncated {
        Append(CloseTag(n), Then(Then(o, open), inner));
      } else {
        TruncatedStays(Then(Then(o, open), inner), close);
      }
      ThenJoins(o, open, inner);
      ThenJoins(o, Then(open, inner), close);
    }

    method SerializeAll(ghost parent: Node, nodes: seq<Node>, depth: nat, ghost o: Output)
      requires Wrote(o) && depth <= maxDepth && forall i :: 0 <= i < |nodes| ==> nodes[i] < parent
      modifies this
      ensures Wrote(Then(o, ToDepthAll(nodes, maxDepth - depth)))
      decreases parent, 0
    {
      assert o.text + "" == o.text;
      for i := 0 to |nodes|
        invariant Wrote(Then(o, ToDepthAll(nodes[..i], maxDepth - depth)))
      {
        ghost var before := ToDepthAll(nodes[..i], maxDepth - depth);
        Serialize(nodes[i], depth, Then(o, before));
        assert nodes[..i + 1][..i] == nodes[..i];
        ThenJoins(o, before, ToDepth(nodes[i], maxDepth - depth));
      }
      assert nodes[..|nodes|] == nodes;
    }
  }

  /** The output is what fits of the serialization to the depth asked for; it is marked as
      truncated exactly when it is not the whole serialization. */
  method SerializeElements(elements: seq<Node>, maxChars: nat, maxDepth: nat) returns (value: string, truncated: bool)
    ensures value == Front(LinesToDepth(elements, maxDepth).text, maxChars)
    ensures value <= WholeLines(elements) && (truncated <==> value != WholeLines(elements))
  {
    var s := new Serializer(maxChars, maxDepth);
    for i := 0 to |elements|
      invariant s.maxChars == maxChars && s.maxDepth == maxDepth && fresh(s)
      invariant s.Wrote(LinesToDepth(elements[..i], maxDepth))
    {
      ghost var o := LinesToDepth(elements[..i], maxDepth);
      if i > 0 {
        s.Append("\n", o);
        o := Then(o, Output("\n", false));
      }
      s.Serialize(elements[i], 0, o);
      assert elements[..i + 1][..i] == elements[..i];
    }
    assert elements[..|elements|] == elements;
    LinesToDepthAreCut(elements, maxDepth);
    value, truncated := s.value, s.truncated;
  }

  // ---------------------------------------------------------------------
  // What the HTML says, and what it does not
  // ---------------------------------------------------------------------

  /** `html` is a list of attributes with these names and, once read back, these values;
      secret ones say that they are redacted. */
  ghost predicate AttributesReadAs(html: string, attributes: seq<Attribute>)
    decreases attributes
  {
    if attributes == [] then html == ""
    else
      var a := attributes[0];
      exists value: string, rest: string ::
        && html == " " + a.name + "=\"" + value + "\"" + rest && '"' !in value
        && Unescaped(value) == (if a.secret then REDACTED else a.value)
        && AttributesReadAs(rest, attributes[1..])
  }

  /** `html` is the text of a node, read back; or an element with its attributes and, unless
      it is sensitive, its content in order. */
  ghost predicate ReadsAs(html: string, n: Node)
    decreases n, 1
  {
    match n
    case TextNode(value) => '<' !in html && '>' !in html && Unescaped(html) == value
    case OtherNode => html == ""
    case Element(tag, attributes, _, _, _, _, excluded) =>
      if excluded then html == ""
      else
        exists list: string, inner: string ::
          && html == "<" + tag + list + ">" + inner + (if tag in VOID_ELEMENTS then "" else "</" + tag + ">")
          && AttributesReadAs(list, attributes) && ContentReadsAs(inner, n)
  }

  ghost predicate ContentReadsAs(html: string, n: Node)
    requires n.Element?
    decreases n, 0
  {
    if n.tag in VOID_ELEMENTS then html == "" else if n.sensitive then html == REDACTED
    else AllReadAs(html, n.children)
  }

  ghost predicate AllReadAs(html: string, nodes: seq<Node>)
    decreases nodes, 2
  {
    if nodes == [] then html == ""
    else
      exists init: string, last: string ::
        && html == init + last && AllReadAs(init, nodes[..|nodes| - 1]) && ReadsAs(last, nodes[|nodes| - 1])
  }

  lemma {:induction false} AttributesReadBack(attributes: seq<Attribute>)
    ensures AttributesReadAs(AttributesText(attributes), attributes)
  {
    if attributes != [] {
      var a := attributes[0];
      var value := EscapeAttribute(if a.secret then REDACTED else a.value);
      var rest := AttributesText(attributes[1..]);
      AttributesReadBack(attributes[1..]);
      EscapingIsCharacterwise(if a.secret then REDACTED else a.value);
      EscapedIsSafe(if a.secret then REDACTED else a.value, true);
      EscapingIsLossless(if a.secret then REDACTED else a.value, true);
      hide EscapeAttribute, Escaped, Unescaped;
      assert AttributesText(attributes) == " " + a.name + "=\"" + value + "\"" + rest;
    }
  }

  /** The serialization says just what the page shows: names, values and text read back
      unchanged, in order, but for what is redacted or excluded. */
  lemma {:induction false} SerializationReadsBack(n: Node)
    ensures ReadsAs(Whole(n), n)
  {
    match n
    case TextNode(value) =>
      EscapingIsCharacterwise(value);
      EscapedIsSafe(value, false);
      EscapingIsLossless(value, false);
    case OtherNode =>
    case Element(tag, attributes, children, _, sensitive, _, excluded) =>
      AttributesReadBack(attributes);
      AllReadBack(children);
      var list := AttributesText(attributes);
      var inner := if tag in VOID_ELEMENTS then "" else if sensitive then REDACTED else WholeAll(children);
      assert ContentReadsAs(inner, n);
      hide AttributesText, WholeAll, AllReadAs, AttributesReadAs, ContentReadsAs;
      assert !excluded ==>
        Whole(n) == "<" + tag + list + ">" + inner + (if tag in VOID_ELEMENTS then "" else "</" + tag + ">");
  }

  lemma {:induction false} AllReadBack(nodes: seq<Node>)
    ensures AllReadAs(WholeAll(nodes), nodes)
  {
    if nodes != [] {
      AllReadBack(nodes[..|nodes| - 1]);
      SerializationReadsBack(nodes[|nodes| - 1]);
    }
  }

  /** Attributes that differ at most in the values of secret ones. */
  predicate SameAttributes(a: seq<Attribute>, b: seq<Attribute>) {
    |a| == |b| && forall i :: 0 <= i < |a| ==>
      a[i].name == b[i].name && a[i].secret == b[i].secret && (a[i].secret || a[i].value == b[i].value)
  }

  /** Nodes that differ at most in what the HTML may not tell: secret attribute values, and
      what is inside sensitive and excluded elements, and in shadow trees. */
  predicate SameHTML(a: Node, b: Node) {
    if a.Element? && b.Element? then
      && a.excluded == b.excluded
      && (a.excluded ||
          (a.tag == b.tag && a.sensitive == b.sensitive && SameAttributes(a.attributes, b.attributes) &&
           (a.tag in VOID_ELEMENTS || a.sensitive || AllSameHTML(a.children, b.children))))
    else a == b
  }

  predicate AllSameHTML(a: seq<Node>, b: seq<Node>) {
    |a| == |b| && (a == [] ||
      (AllSameHTML(a[..|a| - 1], b[..|b| - 1]) && SameHTML(a[|a| - 1], b[|b| - 1])))
  }

  lemma {:induction false} SameAttributesText(a: seq<Attribute>, b: seq<Attribute>)
    requires SameAttributes(a, b)
    ensures AttributesText(a) == AttributesText(b)
  {
    if a != [] {
      assert forall i :: 0 <= i < |a| - 1 ==> a[1..][i] == a[i + 1] && b[1..][i] == b[i + 1];
      SameAttributesText(a[1..], b[1..]);
    }
  }

  /** What is sensitive or excluded has no influence on the HTML. */
  lemma {:induction false} HiddenContentStaysHidden(a: Node, b: Node, left: nat)
    requires SameHTML(a, b)
    ensures Whole(a) == Whole(b) && ToDepth(a, left) == ToDepth(b, left)
  {
    if a.Element? && b.Element? && !a.excluded {
      SameAttributesText(a.attributes, b.attributes);
      if a.tag !in VOID_ELEMENTS && !a.sensitive {
        HiddenContentOfAll(a.children, b.children, if 0 < left then left - 1 else 0);
      }
    }
  }

  lemma {:induction false} HiddenContentOfAll(a: seq<Node>, b: seq<Node>, left: nat)
    requires AllSameHTML(a, b)
    ensures WholeAll(a) == WholeAll(b) && ToDepthAll(a, left) == ToDepthAll(b, left)
    ensures a == [] <==> b == []
  {
    if a != [] {
      HiddenContentOfAll(a[..|a| - 1], b[..|b| - 1], left);
      HiddenContentStaysHidden(a[|a| - 1], b[|b| - 1], left);
    }
  }

  // ---------------------------------------------------------------------
  // Text
  // ---------------------------------------------------------------------

  /** Every run of white space becomes one blank. */
  function Collapsed(s: string): string {
    if s == "" then ""
    else if !IsJSSpace(s[0]) then [s[0]] + Collapsed(s[1..])
    else if |s| > 1 && IsJSSpace(s[1]) then Collapsed(s[1..])
    else " " + Collapsed(s[1..])
  }

  function NormalizeText(s: string): string {
    JSTrim(Collapsed(s))
  }

  /** The pieces of visible text, in document order; shadow content after children. */
  function Pieces(n: Node): seq<string> {
    match n
    case TextNode(value) => if NormalizeText(value) == "" then [] else [NormalizeText(value)]
    case OtherNode => []
    case Element(_, _, children, shadow, sensitive, visible, excluded) =>
      if excluded || !visible then []
      else if sensitive then [REDACTED]
      else PiecesOfAll(children) + PiecesOfAll(shadow)
  }

  function PiecesOfAll(nodes: seq<Node>): seq<string> {
    if nodes == [] then [] else PiecesOfAll(nodes[..|nodes| - 1]) + Pieces(nodes[|nodes| - 1])
  }

  /** Pieces with a blank between them. */
  function Joined(pieces: seq<string>): string {
    if pieces == [] then ""
    else Joined(pieces[..|pieces| - 1]) + (if |pieces| > 1 then " " else "") + pieces[|pieces| - 1]
  }

  lemma {:induction false} JoinedOfMore(pieces: seq<string>, more: seq<string>)
    ensures Joined(pieces) <= Joined(pieces + more)
  {
    if more == [] {
      assert pieces + more == pieces;
    } else {
      var init := more[..|more| - 1];
      JoinedOfMore(pieces, init);
      assert (pieces + more)[..|pieces + more| - 1] == pieces + init;
    }
  }

  function Concat(chunks: seq<string>): string {
    if chunks == [] then "" else Concat(chunks[..|chunks| - 1]) + chunks[|chunks| - 1]
  }

  class TextCollector {
    const scanLimit: nat
    var collected: seq<string>
    var scannedChars: int
    var scanTruncated: bool

    constructor (scanLimit: nat)
      ensures this.scanLimit == scanLimit && Holds([])
    {
      this.scanLimit, collected, scannedChars, scanTruncated := scanLimit, [], 0, false;
    }

    /** What was collected of `pieces`: all of their text, or its first `scanLimit`
        characters. */
    ghost predicate Holds(pieces: seq<string>)
      reads this
    {
      if scanTruncated then
        scanLimit < |Joined(pieces)| && Concat(collected) == Joined(pieces)[..scanLimit]
      else
        |collected| == |pieces| && Concat(collected) == Joined(pieces) && scannedChars == |Joined(pieces)| <= scanLimit
    }

    /** After the scan stopped, further text makes no difference. */
    lemma HoldsOfMore(pieces: seq<string>, more: seq<string>)
      requires Holds(pieces) && scanTruncated
      ensures Holds(pieces + more)
    {
      JoinedOfMore(pieces, more);
    }

    method Append(value: string, ghost pieces: seq<string>)
      requires Holds(pieces)
      modifies this
      ensures Holds(pieces + if NormalizeText(value) == "" then [] else [NormalizeText(value)])
    {
      var normalized := NormalizeText(value);
      Add(normalized, pieces);
    }

    method Add(normalized: string, ghost pieces: seq<string>)
      requires Holds(pieces)
      modifies this
      ensures Holds(pieces + if normalized == "" then [] else [normalized])
    {
      if scanTruncated {
        HoldsOfMore(pieces, if normalized == "" then [] else [normalized]);
        return;
      }
      if normalized == "" {
        assert pieces + [] == pieces;
        return;
      }
      var separator := if |collected| > 0 then " " else "";
      var remaining := scanLimit - scannedChars;
      var chunk := separator + normalized;
      assert (pieces + [normalized])[..|pieces|] == pieces;
      assert Joined(pieces + [normalized]) == Joined(pieces) + chunk;
      var part := if |chunk| > remaining then chunk[..remaining] else chunk;
      assert (collected + [part])[..|collected|] == collected;
      collected := collected + [part];
      if |chunk| > remaining {
        scannedChars := scanLimit;
        scanTruncated := true;
      } else {
        scannedChars := scannedChars + |chunk|;
      }
    }

    method Visit(n: Node, ghost pieces: seq<string>)
      requires Holds(pieces)
      modifies this
      ensures Holds(pieces + Pieces(n))
      decreases n, 1
    {
      if scanTruncated {
        HoldsOfMore(pieces, Pieces(n));
        return;
      }
      match n
      case TextNode(value) => Append(value, pieces);
      case OtherNode => assert pieces + [] == pieces;
      case Element(_, _, children, shadow, sensitive, visible, excluded) =>
        if excluded || !visible {
          assert pieces + [] == pieces;
        } else if sensitive {
          Add(REDACTED, pieces);
        } else {
          VisitAll(n, children, pieces);
          VisitAll(n, shadow, pieces + PiecesOfAll(children));
          assert pieces + PiecesOfAll(children) + PiecesOfAll(shadow) == pieces + Pieces(n);
        }
    }

    method VisitAll(ghost parent: Node, nodes: seq<Node>, ghost pieces: seq<string>)
      requires Holds(pieces) && forall i :: 0 <= i < |nodes| ==> nodes[i] < parent
      modifies this
      ensures Holds(pieces + PiecesOfAll(nodes))
      decreases parent, 0
    {
      assert pieces + [] == pieces;
      for i := 0 to |nodes|
        invariant Holds(pieces + PiecesOfAll(nodes[..i]))
      {
        Visit(nodes[i], pieces + PiecesOfAll(nodes[..i]));
        assert nodes[..i + 1][..i] == nodes[..i];
        assert pieces + PiecesOfAll(nodes[..i + 1]) == pieces + PiecesOfAll(nodes[..i]) + Pieces(nodes[i]);
      }
      assert nodes[..|nodes|] == nodes;
    }
  }

  /** JavaScript's `slice`. */
  function Slice(s: string, from: nat, to: nat): string
    requires from <= to
  {
    s[if from <= |s| then from else |s|..if to <= |s| then to else |s|]
  }

  function VisibleText(roots: seq<Node>): string {
    Joined(PiecesOfAll(roots))
  }

  // ---------------------------------------------------------------------
  // What the text says, and what it does not
  // ---------------------------------------------------------------------

  /** The words of a text: its longest runs of characters that are not white space. */
  function WordsOf(s: string): seq<string> {
    if s == "" then []
    else
      var rest := WordsOf(s[1..]);
      if IsJSSpace(s[0]) then rest
      else if |s| == 1 || IsJSSpace(s[1]) || rest == [] then [[s[0]]] + rest
      else [[s[0]] + rest[0]] + rest[1..]
  }

  /** A blank for white space at index `i`. */
  function Blank(s: string, i: int): string {
    if 0 <= i < |s| && IsJSSpace(s[i]) then " " else ""
  }

  lemma {:induction false} JoinedFromLeft(w: string, words: seq<string>)
    ensures Joined([w] + words) == if words == [] then w else w + " " + Joined(words)
  {
    if words == [] {
      assert [w] + words == [w] && [w][..0] == [];
    } else {
      var init, last := words[..|words| - 1], words[|words| - 1];
      JoinedFromLeft(w, init);
      assert ([w] + words)[..|words|] == [w] + init;
      assert Joined([w] + words) == Joined([w] + init) + " " + last;
      if init == [] {
        assert words == [last] && Joined([last]) == "" + last;
      } else {
        BlankBetween(w, Joined(init), last);
      }
    }
  }

  lemma BlankBetween(a: string, b: string, c: string)
    ensures a + " " + b + " " + c == a + " " + (b + " " + c)
  {
  }

  lemma LongerWord(c: char, words: seq<string>)
    requires words != []
    ensures Joined([[c] + words[0]] + words[1..]) == [c] + Joined(words)
  {
    JoinedFromLeft([c] + words[0], words[1..]);
    JoinedFromLeft(words[0], words[1..]);
    assert [words[0]] + words[1..] == words;
  }

  lemma {:induction false} WordsHaveNoSpace(s: string)
    ensures s != "" && !IsJSSpace(s[0]) ==> WordsOf(s) != []
    ensures forall w :: w in WordsOf(s) ==> w != "" && forall i :: 0 <= i < |w| ==> !IsJSSpace(w[i])
  {
    if s != "" { WordsHaveNoSpace(s[1..]); }
  }

  /** What collapsing leaves: the words with a blank between them, and at most a blank at
      either end. */
  function Spaced(s: string): string {
    if WordsOf(s) == [] then Blank(s, 0) else Blank(s, 0) + Joined(WordsOf(s)) + Blank(s, |s| - 1)
  }

  /** The blanks and words of a text, from those of its tail. */
  lemma PartsOfSpaced(s: string)
    requires s != ""
    ensures var rest := s[1..];
      && Blank(s, 0) == (if IsJSSpace(s[0]) then " " else "")
      && Blank(rest, 0) == (if |s| > 1 && IsJSSpace(s[1]) then " " else "")
      && (|s| > 1 ==> Blank(s, |s| - 1) == Blank(rest, |rest| - 1))
      && (|s| == 1 ==> WordsOf(rest) == [] && Blank(s, |s| - 1) == Blank(s, 0))
      && (WordsOf(rest) == [] && |s| > 1 ==> IsJSSpace(s[1]) && Blank(s, |s| - 1) == " ")
  {
    hide IsJSSpace;
    if |s| > 1 {
      assert s[|s| - 1] == s[1..][|s| - 2];
      if WordsOf(s[1..]) == [] { OnlySpace(s[1..]); }
    }
  }

  lemma {:induction false} OnlySpace(s: string)
    requires WordsOf(s) == [] && s != ""
    ensures IsJSSpace(s[0]) && IsJSSpace(s[|s| - 1])
  {
    WordsHaveNoSpace(s);
    hide IsJSSpace;
    if |s| > 1 { OnlySpace(s[1..]); }
  }

  lemma SpacedIs(s: string)
    ensures Spaced(s) ==
      if WordsOf(s) == [] then Blank(s, 0) else Blank(s, 0) + Joined(WordsOf(s)) + Blank(s, |s| - 1)
  {
  }

  lemma WordsOfSpace(s: string)
    requires s != "" && IsJSSpace(s[0])
    ensures WordsOf(s) == WordsOf(s[1..])
  {
  }

  lemma WordsOfWord(s: string)
    requires s != "" && !IsJSSpace(s[0])
    ensures var rest := WordsOf(s[1..]);
      WordsOf(s) == if |s| == 1 || IsJSSpace(s[1]) then [[s[0]]] + rest else [[s[0]] + rest[0]] + rest[1..]
    ensures |s| == 1 || IsJSSpace(s[1]) || WordsOf(s[1..]) != []
  {
    WordsHaveNoSpace(s[1..]);
    hide IsJSSpace;
  }

  lemma SpacedBySpace(s: string)
    requires s != "" && IsJSSpace(s[0])
    ensures Spaced(s) == if |s| > 1 && IsJSSpace(s[1]) then Spaced(s[1..]) else " " + Spaced(s[1..])
  {
    hide *;
    PartsOfSpaced(s);
    SpacedIs(s);
    SpacedIs(s[1..]);
    WordsOfSpace(s);
    assert "" + Joined(WordsOf(s)) == Joined(WordsOf(s));
    assert " " + (Joined(WordsOf(s)) + Blank(s, |s| - 1)) == " " + Joined(WordsOf(s)) + Blank(s, |s| - 1);
  }

  lemma SpacedByWord(s: string)
    requires s != "" && !IsJSSpace(s[0])
    ensures Spaced(s) == [s[0]] + Spaced(s[1..])
  {
    hide *;
    PartsOfSpaced(s);
    SpacedIs(s);
    SpacedIs(s[1..]);
    WordsOfWord(s);
    var words, end := WordsOf(s[1..]), Blank(s, |s| - 1);
    if |s| == 1 || IsJSSpace(s[1]) {
      JoinedFromLeft([s[0]], words);
      WordThenBlanks(s[0], Joined(words), end);
    } else {
      LongerWord(s[0], words);
      WordThenText(s[0], Joined(words), end);
    }
  }

  lemma WordThenBlanks(c: char, text: string, end: string)
    ensures "" + [c] + end == [c] + end
    ensures "" + ([c] + " " + text) + end == [c] + (" " + text + end)
  {
  }

  lemma WordThenText(c: char, text: string, end: string)
    ensures "" + ([c] + text) + end == [c] + ("" + text + end)
  {
  }

  lemma {:induction false} CollapsedIsSpaced(s: string)
    ensures Collapsed(s) == Spaced(s)
  {
    if s != "" {
      CollapsedIsSpaced(s[1..]);
      if IsJSSpace(s[0]) { SpacedBySpace(s); } else { SpacedByWord(s); }
      hide Spaced;
    }
  }

  lemma {:induction false} JoinedHasCleanEnds(words: seq<string>)
    requires words != [] && forall w :: w in words ==> w != "" && forall i :: 0 <= i < |w| ==> !IsJSSpace(w[i])
    ensures var text := Joined(words);
      text != "" && !IsJSSpace(text[0]) && !IsJSSpace(text[|text| - 1])
  {
    hide IsJSSpace;
    var last := words[|words| - 1];
    assert last in words;
    if |words| > 1 {
      var init := words[..|words| - 1];
      assert forall w :: w in init ==> w in words;
      JoinedHasCleanEnds(init);
    } else {
      assert Joined(words) == "" + "" + last;
    }
  }

  /** Normalized text is the words, with one blank between them. */
  lemma NormalizedTextIsItsWords(s: string)
    ensures NormalizeText(s) == Joined(WordsOf(s))
  {
    CollapsedIsSpaced(s);
    WordsHaveNoSpace(s);
    if WordsOf(s) != [] {
      JoinedHasCleanEnds(WordsOf(s));
      BlanksGo(Blank(s, 0), Joined(WordsOf(s)), Blank(s, |s| - 1));
    } else {
      assert TrimStart(Blank(s, 0)) == "";
    }
  }

  lemma BlanksGo(left: string, text: string, right: string)
    requires left in {"", " "} && right in {"", " "}
    requires text != "" && !IsJSSpace(text[0]) && !IsJSSpace(text[|text| - 1])
    ensures JSTrim(left + text + right) == text
  {
    StartGoes(left, text + right);
    EndGoes(text, right);
    hide TrimStart, TrimEnd, IsJSSpace;
    assert left + text + right == left + (text + right);
  }

  lemma StartGoes(left: string, text: string)
    requires left in {"", " "} && text != "" && !IsJSSpace(text[0])
    ensures TrimStart(left + text) == text
  {
    assert left == " " ==> (left + text)[1..] == text;
    assert left == "" ==> left + text == text;
  }

  lemma EndGoes(text: string, right: string)
    requires right in {"", " "} && text != "" && !IsJSSpace(text[|text| - 1])
    ensures TrimEnd(text + right) == text
  {
    assert right == " " ==> (text + right)[..|text|] == text;
    assert right == "" ==> text + right == text;
  }

  /** Text is shown from `n`: of a text node that is in no excluded, invisible or sensitive
      element. */
  ghost predicate Shows(n: Node, text: string)
    decreases n
  {
    match n
    case TextNode(value) => text == value
    case OtherNode => false
    case Element(_, _, children, shadow, sensitive, visible, excluded) =>
      && !excluded && visible && !sensitive
      && ((exists i :: 0 <= i < |children| && Shows(children[i], text)) ||
          (exists i :: 0 <= i < |shadow| && Shows(shadow[i], text)))
  }

  /** A sensitive element is visible in `n`, not inside another one. */
  ghost predicate ShowsSecret(n: Node)
    decreases n
  {
    && n.Element? && !n.excluded && n.visible
    && (n.sensitive || (exists i :: 0 <= i < |n.children| && ShowsSecret(n.children[i])) ||
        (exists i :: 0 <= i < |n.shadow| && ShowsSecret(n.shadow[i])))
  }

  /** A piece is the words of a text that is shown, or stands for a sensitive element. */
  ghost predicate IsPiece(n: Node, piece: string) {
    (piece == REDACTED && ShowsSecret(n)) ||
    exists text: string :: Shows(n, text) && WordsOf(text) != [] && piece == Joined(WordsOf(text))
  }

  ghost predicate IsPieceOfAny(nodes: seq<Node>, piece: string) {
    exists i :: 0 <= i < |nodes| && IsPiece(nodes[i], piece)
  }

  lemma WordsShow(s: string)
    ensures NormalizeText(s) == Joined(WordsOf(s)) && (NormalizeText(s) == "" <==> WordsOf(s) == [])
  {
    NormalizedTextIsItsWords(s);
    WordsHaveNoSpace(s);
    if WordsOf(s) != [] { JoinedHasCleanEnds(WordsOf(s)); }
  }

  /** Exactly what is visible is shown. */
  lemma {:induction false} PiecesAreTheVisibleText(n: Node, piece: string)
    ensures piece in Pieces(n) <==> IsPiece(n, piece)
  {
    match n
    case TextNode(value) =>
      WordsShow(value);
      hide WordsOf, Joined, NormalizeText;
      assert Shows(n, value);
    case OtherNode =>
    case Element(_, _, children, shadow, sensitive, visible, excluded) =>
      PiecesOfAnyVisible(children, piece);
      PiecesOfAnyVisible(shadow, piece);
      hide WordsOf, Joined, NormalizeText, PiecesOfAll;
      if !excluded && visible && !sensitive { PieceOfElement(n, piece); }
  }

  lemma PieceOfElement(n: Node, piece: string)
    requires n.Element? && !n.excluded && n.visible && !n.sensitive
    ensures IsPiece(n, piece) <==> IsPieceOfAny(n.children, piece) || IsPieceOfAny(n.shadow, piece)
  {
    hide WordsOf, Joined;
    if IsPieceOfAny(n.children, piece) {
      var i :| 0 <= i < |n.children| && IsPiece(n.children[i], piece);
      if text: string :| Shows(n.children[i], text) && WordsOf(text) != [] && piece == Joined(WordsOf(text)) {
        assert Shows(n, text);
      }
    }
    if IsPieceOfAny(n.shadow, piece) {
      var i :| 0 <= i < |n.shadow| && IsPiece(n.shadow[i], piece);
      if text: string :| Shows(n.shadow[i], text) && WordsOf(text) != [] && piece == Joined(WordsOf(text)) {
        assert Shows(n, text);
      }
    }
  }

  lemma {:induction false} PiecesOfAnyVisible(nodes: seq<Node>, piece: string)
    ensures piece in PiecesOfAll(nodes) <==> IsPieceOfAny(nodes, piece)
  {
    if nodes != [] {
      var init, last := nodes[..|nodes| - 1], nodes[|nodes| - 1];
      PiecesOfAnyVisible(init, piece);
      PiecesAreTheVisibleText(last, piece);
      hide IsPiece, Pieces;
      assert forall i :: 0 <= i < |init| ==> init[i] == nodes[i];
    }
  }

  /** Text is shown in document order, a shadow tree after the other content. */
  lemma {:induction false} PiecesAreInOrder(a: seq<Node>, b: seq<Node>)
    ensures PiecesOfAll(a + b) == PiecesOfAll(a) + PiecesOfAll(b)
  {
    if b == [] {
      assert a + b == a;
    } else {
      var init := b[..|b| - 1];
      PiecesAreInOrder(a, init);
      assert (a + b)[..|a + b| - 1] == a + init;
    }
  }

  lemma ShadowComesLast(n: Node)
    requires n.Element? && !n.excluded && n.visible && !n.sensitive
    ensures Pieces(n) == PiecesOfAll(n.children + n.shadow)
  {
    PiecesAreInOrder(n.children, n.shadow);
  }

  /** Nodes that differ at most in what the text may not tell: the content of excluded,
      invisible and sensitive elements, and attributes. */
  predicate SameText(a: Node, b: Node) {
    match (a, b)
    case (TextNode(v), TextNode(w)) => WordsOf(v) == WordsOf(w)
    case (OtherNode, OtherNode) => true
    case (Element(_, _, children, shadow, sensitive, visible, excluded), Element(_, _, _, _, _, _, _)) =>
      && (excluded || !visible) == (b.excluded || !b.visible)
      && (excluded || !visible ||
          (sensitive == b.sensitive &&
           (sensitive || (AllSameText(children, b.children) && AllSameText(shadow, b.shadow)))))
    case _ => false
  }

  predicate AllSameText(a: seq<Node>, b: seq<Node>) {
    |a| == |b| && (a == [] ||
      (AllSameText(a[..|a| - 1], b[..|b| - 1]) && SameText(a[|a| - 1], b[|b| - 1])))
  }

  /** What is sensitive, invisible or excluded has no influence on the text. */
  lemma {:induction false} HiddenTextStaysHidden(a: Node, b: Node)
    requires SameText(a, b)
    ensures Pieces(a) == Pieces(b)
  {
    if a.TextNode? {
      NormalizedTextIsItsWords(a.value);
      NormalizedTextIsItsWords(b.value);
    } else if a.Element? && !a.excluded && a.visible && !a.sensitive {
      HiddenTextOfAll(a.children, b.children);
      HiddenTextOfAll(a.shadow, b.shadow);
    }
  }

  lemma {:induction false} HiddenTextOfAll(a: seq<Node>, b: seq<Node>)
    requires AllSameText(a, b)
    ensures PiecesOfAll(a) == PiecesOfAll(b) && VisibleText(a) == VisibleText(b)
  {
    if a != [] {
      HiddenTextOfAll(a[..|a| - 1], b[..|b| - 1]);
      HiddenTextStaysHidden(a[|a| - 1], b[|b| - 1]);
    }
  }

  datatype TextPage = TextPage(text: string, next: Option<nat>)

  /** One page of a text. */
  function PageOf(text: string, offset: nat, maxChars: nat): TextPage {
    var page := Slice(text, offset, offset + maxChars);
    TextPage(page, if offset + maxChars < |text| then Some(offset + |page|) else None)
  }

  predicate Validated(offset: nat, maxChars: nat) {
    offset <= MAX_CURSOR && 1 <= maxChars <= MAX_TEXT_CHARS
  }

  /** A page is a slice of the whole visible text, with a next cursor exactly when more
      remains: the limit of the scan never shows. */
  method GetText(roots: seq<Node>, offset: nat, maxChars: nat) returns (page: TextPage)
    requires Validated(offset, maxChars)
    ensures page == PageOf(VisibleText(roots), offset, maxChars)
  {
    var scanLimit := if MAX_TEXT_SCAN_CHARS < offset + maxChars + 1 then MAX_TEXT_SCAN_CHARS else offset + maxChars + 1;
    var c := new TextCollector(scanLimit);
    for i := 0 to |roots|
      invariant c.scanLimit == scanLimit && c.Holds(PiecesOfAll(roots[..i])) && fresh(c)
    {
      c.Visit(roots[i], PiecesOfAll(roots[..i]));
      assert roots[..i + 1][..i] == roots[..i];
    }
    assert roots[..|roots|] == roots;
    var allText := Concat(c.collected);
    var text := Slice(allText, offset, offset + maxChars);
    var hasMore := c.scanTruncated || |allText| > offset + maxChars;
    page := TextPage(text, if hasMore then Some(offset + |text|) else None);
  }

  // ---------------------------------------------------------------------
  // Reading page after page
  // ---------------------------------------------------------------------

  /** Following the cursors from `offset`; `None` if a cursor is refused. */
  function ReadAll(text: string, offset: nat, maxChars: nat): Option<string>
    requires 1 <= maxChars
    decreases |text| - offset
  {
    if !Validated(offset, maxChars) then None
    else
      var page := PageOf(text, offset, maxChars);
      if page.next.None? then Some(page.text)
      else
        var rest := ReadAll(text, page.next.value, maxChars);
        if rest.None? then None else Some(page.text + rest.value)
  }

  /** The last cursor that is handed out for a text, from `offset`. */
  function LastCursor(length: nat, offset: nat, maxChars: nat): nat
    requires 1 <= maxChars
    decreases length - offset
  {
    if offset + maxChars < length then LastCursor(length, offset + maxChars, maxChars) else offset
  }

  /** Paging returns the text exactly once and whole, unless it needs a cursor beyond the
      largest that is accepted. */
  lemma {:induction false} PagingIsWholeIff(text: string, offset: nat, maxChars: nat)
    requires 1 <= maxChars <= MAX_TEXT_CHARS && offset <= |text|
    ensures ReadAll(text, offset, maxChars) ==
      if LastCursor(|text|, offset, maxChars) <= MAX_CURSOR then Some(text[offset..]) else None
    decreases |text| - offset
  {
    if offset + maxChars < |text| {
      PagingIsWholeIff(text, offset + maxChars, maxChars);
      LastCursorGrows(|text|, offset + maxChars, maxChars);
      assert text[offset..] == text[offset..offset + maxChars] + text[offset + maxChars..];
    } else {
      assert Slice(text, offset, offset + maxChars) == text[offset..];
    }
  }

  lemma {:induction false} LastCursorGrows(length: nat, offset: nat, maxChars: nat)
    requires 1 <= maxChars
    ensures offset <= LastCursor(length, offset, maxChars)
    decreases length - offset
  {
    if offset + maxChars < length { LastCursorGrows(length, offset + maxChars, maxChars); }
  }

  /** From the start, cursors are multiples of the page size: a text is read whole exactly
      if its last page starts no later than the largest cursor. */
  lemma {:induction false} LastCursorIs(length: nat, k: nat, maxChars: nat)
    requires 1 <= maxChars && k * maxChars < length
    ensures LastCursor(length, k * maxChars, maxChars) == (length - 1) / maxChars * maxChars
    decreases length - k * maxChars
  {
    assert (k + 1) * maxChars == k * maxChars + maxChars;
    if k * maxChars + maxChars < length {
      LastCursorIs(length, k + 1, maxChars);
    } else {
      QuotientIs(length - 1, k, maxChars);
    }
  }

  lemma QuotientIs(n: nat, k: nat, m: nat)
    requires 1 <= m && k * m <= n < k * m + m
    ensures n / m == k
  {
    var q := n / m;
    assert q * m <= n < q * m + m;
    if q < k {
      ProductsGrow(q + 1, k, m);
    } else if k < q {
      ProductsGrow(k + 1, q, m);
    }
  }

  lemma ProductsGrow(a: nat, b: nat, m: nat)
    requires a <= b
    ensures a * m <= b * m && (a >= 1 ==> a * m == (a - 1) * m + m)
  {
  }

  /** Reading from the start: whole and exactly once, if and only if the last page starts
      at a cursor that is accepted. */
  lemma PagingFromTheStart(text: string, maxChars: nat)
    requires 1 <= maxChars <= MAX_TEXT_CHARS
    ensures ReadAll(text, 0, maxChars) ==
      if text == "" || (|text| - 1) / maxChars * maxChars <= MAX_CURSOR then Some(text) else None
  {
    PagingIsWholeIff(text, 0, maxChars);
    assert text[0..] == text;
    if text != "" {
      assert 0 * maxChars == 0;
      LastCursorIs(|text|, 0, maxChars);
    }
  }
}

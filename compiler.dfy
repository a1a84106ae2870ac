/**
 * The template parser of lib/compiler.cjs.js: `baseParse` reads one node
 * from the front of the template (an interpolation `{{ ... }}`, an element
 * `<tag></tag>`, or text) by advancing a cursor over the remaining source.
 *
 * The JavaScript library calls it relies on are written out: `slice` with
 * negative and out-of-range indices, `indexOf` from a position, `trim`, and
 * the two regular expressions, whose `i` flag without `u` matches only the
 * ASCII letters. A `TypeError` thrown while parsing is the `TypeError`
 * result, with the cursor where it was when the exception was thrown.
 */
module Compiler {
  import opened Wrappers

  // ----- The nodes -----

  /** `{ type: SIMPLE_EXPRESSION, content }`. */
  datatype SimpleExpression = SimpleExpression(content: string)

  /** The three node objects the parser builds. */
  datatype PNode =
    | Interpolation(expr: SimpleExpression)
    | Element(tag: string)
    | Text(text: string)

  /** `createRoot(children)`. */
  datatype Root = Root(children: seq<PNode>)

  /** The `NodeTypes` constants. */
  const INTERPOLATION: nat := 0
  const SIMPLE_EXPRESSION: nat := 1
  const ELEMENT: nat := 2
  const TEXT: nat := 3

  /** The `type` field of a node. */
  function TypeOf(n: PNode): (t: nat)
    ensures t == INTERPOLATION <==> n.Interpolation?
    ensures t == ELEMENT <==> n.Element?
    ensures t == TEXT <==> n.Text?
    ensures t != SIMPLE_EXPRESSION
  {
    match n
    case Interpolation(_) => INTERPOLATION
    case Element(_) => ELEMENT
    case Text(_) => TEXT
  }

  /** What a parsing step produced, and the source left after it. */
  datatype Parsed<T> = Parsed(out: Result<T>, rest: string)

  /** The two modes of `parseTag`. */
  datatype TagType = Start | End

  // ----- JavaScript string operations -----

  /** How `slice` turns an index into a position: negative counts from the end, both clamped to the string. */
  function Clamp(k: int, len: nat): (p: nat)
    ensures p <= len
  {
    if k < 0 then (if len + k < 0 then 0 else len + k)
    else if k > len then len
    else k
  }

  /** `s.slice(start, end)`. */
  function Slice(s: string, start: int, end: int): string
  {
    var from := Clamp(start, |s|);
    var to := Clamp(end, |s|);
    if to <= from then "" else s[from..to]
  }

  /** `s.slice(start)`. */
  function SliceFrom(s: string, start: int): string
  {
    s[Clamp(start, |s|)..]
  }

  /** `s.startsWith(p)`. */
  predicate StartsWith(s: string, p: string)
  {
    |p| <= |s| && s[..|p|] == p
  }

  /** `"}}"` occurs at position `j` of `s`. */
  predicate CloseAt(s: string, j: int)
  {
    0 <= j && j + 2 <= |s| && s[j] == '}' && s[j + 1] == '}'
  }

  /** `s.indexOf("}}", from)` for `0 <= from`: the first occurrence at or after `from`, or -1. */
  function IndexOfClose(s: string, from: nat): (k: int)
    ensures k == -1 || (from <= k && CloseAt(s, k))
    decreases |s| - from
  {
    if from + 2 > |s| then -1
    else if CloseAt(s, from) then from
    else IndexOfClose(s, from + 1)
  }

  /** `IndexOfClose` finds the first `"}}"` at or after `from`, and -1 only when there is none. */
  lemma {:induction false} IndexOfCloseFirst(s: string, from: nat)
    ensures var k := IndexOfClose(s, from);
      forall j | from <= j && (k == -1 || j < k) :: !CloseAt(s, j)
    decreases |s| - from
  {
    if from + 2 <= |s| && !CloseAt(s, from) {
      IndexOfCloseFirst(s, from + 1);
    }
  }

  /** What `/[a-z]/i` matches: an ASCII letter of either case. */
  predicate IsLetter(c: char)
  {
    'a' <= c <= 'z' || 'A' <= c <= 'Z'
  }

  /** The longest run of letters at the front of `s`: the group `([a-z]*)`. */
  function LetterRun(s: string): (r: string)
    ensures |r| <= |s|
    decreases |s|
  {
    if s != [] && IsLetter(s[0]) then [s[0]] + LetterRun(s[1..]) else ""
  }

  /** `LetterRun` is a prefix of letters that stops at the end or at a non-letter. */
  lemma {:induction false} LetterRunMaximal(s: string)
    ensures var t := LetterRun(s);
      && |t| <= |s| && s[..|t|] == t
      && (forall i | 0 <= i < |t| :: IsLetter(t[i]))
      && (|t| == |s| || !IsLetter(s[|t|]))
    decreases |s|
  {
    if s != [] && IsLetter(s[0]) {
      LetterRunMaximal(s[1..]);
      var t := LetterRun(s[1..]);
      assert LetterRun(s) == [s[0]] + t;
      assert s == [s[0]] + s[1..];
    }
  }

  /** The characters `trim` removes: white space and line terminators. */
  predicate IsJsSpace(c: char)
  {
    || c == '\t' || c == '\n' || c == '\U{000B}' || c == '\U{000C}' || c == '\r' || c == ' '
    || c == '\U{00A0}' || c == '\U{1680}' || ('\U{2000}' <= c <= '\U{200A}')
    || c == '\U{2028}' || c == '\U{2029}' || c == '\U{202F}' || c == '\U{205F}' || c == '\U{3000}' || c == '\U{FEFF}'
  }

  function TrimStart(s: string): string
    decreases |s|
  {
    if s != [] && IsJsSpace(s[0]) then TrimStart(s[1..]) else s
  }

  function TrimEnd(s: string): string
    decreases |s|
  {
    if s != [] && IsJsSpace(s[|s| - 1]) then TrimEnd(s[..|s| - 1]) else s
  }

  /** `s.trim()`. */
  function Trim(s: string): string
  {
    TrimEnd(TrimStart(s))
  }

  /** `TrimStart` drops a run of spaces from the front and stops at a non-space. */
  lemma {:induction false} TrimStartCut(s: string)
    ensures var t := TrimStart(s);
      && |t| <= |s| && s[|s| - |t|..] == t
      && (forall i | 0 <= i < |s| - |t| :: IsJsSpace(s[i]))
      && (t != [] ==> !IsJsSpace(t[0]))
    decreases |s|
  {
    if s != [] && IsJsSpace(s[0]) {
      TrimStartCut(s[1..]);
    }
  }

  /** `TrimEnd` drops a run of spaces from the back and stops at a non-space. */
  lemma {:induction false} TrimEndCut(s: string)
    ensures var t := TrimEnd(s);
      && |t| <= |s| && s[..|t|] == t
      && (forall i | |t| <= i < |s| :: IsJsSpace(s[i]))
      && (t != [] ==> !IsJsSpace(t[|t| - 1]))
    decreases |s|
  {
    if s != [] && IsJsSpace(s[|s| - 1]) {
      TrimEndCut(s[..|s| - 1]);
    }
  }

  /**
   * `trim` keeps a contiguous middle of the string, drops only white space
   * around it, and the result neither starts nor ends with white space.
   */
  lemma TrimMiddle(s: string)
    ensures exists i, j | 0 <= i <= j <= |s| ::
      && Trim(s) == s[i..j]
      && (forall k | 0 <= k < i :: IsJsSpace(s[k]))
      && (forall k | j <= k < |s| :: IsJsSpace(s[k]))
    ensures Trim(s) != [] ==> !IsJsSpace(Trim(s)[0]) && !IsJsSpace(Trim(s)[|Trim(s)| - 1])
  {
    var a := TrimStart(s);
    TrimStartCut(s);
    TrimEndCut(a);
    var i := |s| - |a|;
    var j := i + |TrimEnd(a)|;
    assert s[i..j] == a[..|TrimEnd(a)|];
    forall k | j <= k < |s| ensures IsJsSpace(s[k]) {
      assert s[k] == a[k - i];
    }
  }

  // ----- The parser, as functions of the remaining source -----

  /** `advanceBy(context, length)`: `source = source.slice(length)`. */
  function AdvanceByS(src: string, length: int): string
  {
    SliceFrom(src, length)
  }

  /**
   * `advanceBy` drops exactly `length` leading characters (all of them when
   * there are fewer); a negative length keeps only that many trailing ones.
   */
  lemma AdvanceByDrops(src: string, length: int)
    ensures 0 <= length <= |src| ==> src == src[..length] + AdvanceByS(src, length) && |AdvanceByS(src, length)| == |src| - length
    ensures length > |src| ==> AdvanceByS(src, length) == ""
    ensures length < 0 ==>
      && AdvanceByS(src, length) == src[Clamp(length, |src|)..]
      && |AdvanceByS(src, length)| == (if -length < |src| then -length else |src|)
  {
    if 0 <= length <= |src| {
      assert src == src[..length] + src[length..];
    }
  }

  /** `parseTextData(context, length)`: the text `source.slice(0, length)`, then advance by `length`. */
  function ParseTextDataS(src: string, length: int): (r: Parsed<string>)
  {
    Parsed(Ok(Slice(src, 0, length)), AdvanceByS(src, length))
  }

  /** `parseText`: the whole remaining source is one text node. */
  function ParseTextS(src: string): (r: Parsed<PNode>)
  {
    var d := ParseTextDataS(src, |src|);
    Parsed(Ok(Text(d.out.value)), d.rest)
  }

  /**
   * `parseTag`: `/^<\/?([a-z]*)/i` must match (it throws otherwise), then
   * the match and one more character are consumed; the start mode returns
   * an element of the matched letters, the end mode nothing.
   */
  function ParseTagS(src: string, mode: TagType): (r: Parsed<Option<string>>)
    ensures r.out.TypeError? <==> src == "" || src[0] != '<'
    ensures r.out.Ok? ==> (r.out.value.Some? <==> mode == Start)
  {
    if |src| == 0 || src[0] != '<' then Parsed(TypeError, src)
    else
      var open := if |src| >= 2 && src[1] == '/' then 2 else 1;
      var tag := LetterRun(src[open..]);
      var afterMatch := AdvanceByS(src, open + |tag|);
      Parsed(Ok(if mode == Start then Some(tag) else None), AdvanceByS(afterMatch, 1))
  }

  /** `parseElement`: a start tag, then an end tag; the element is the start tag's. */
  function ParseElementS(src: string): (r: Parsed<PNode>)
  {
    var open := ParseTagS(src, Start);
    if open.out.TypeError? then Parsed(TypeError, open.rest)
    else
      var close := ParseTagS(open.rest, End);
      if close.out.TypeError? then Parsed(TypeError, close.rest)
      else Parsed(Ok(Element(open.out.value.value)), close.rest)
  }

  /**
   * `parseInterpolation`: the text between `"{{"` and the first `"}}"` after
   * it, trimmed; a missing `"}}"` makes the length -3, which `slice` reads
   * from the end of the string.
   */
  function ParseInterpolationS(src: string): (r: Parsed<PNode>)
  {
    var closeIndex := IndexOfClose(src, 2);
    var s1 := AdvanceByS(src, 2);
    var rawContentLength := closeIndex - 2;
    var raw := ParseTextDataS(s1, rawContentLength);
    var content := Trim(raw.out.value);
    Parsed(Ok(Interpolation(SimpleExpression(content))), AdvanceByS(raw.rest, 2))
  }

  /**
   * The element test of `parseChildren` as written: `s[1]` of a one-character
   * source is `undefined`, which `test` reads as the string "undefined", so
   * the test passes.
   */
  predicate LetterTestAsWritten(s: string)
  {
    |s| < 2 || IsLetter(s[1])
  }

  /** The element test as intended: a letter follows the `"<"`. */
  predicate LetterFollows(s: string)
  {
    |s| >= 2 && IsLetter(s[1])
  }

  /** `parseChildren` with the element branch taken when `element` holds: one node, in a list. */
  function ParseChildrenWith(s: string, element: bool): (r: Parsed<seq<PNode>>)
  {
    var p :=
      if StartsWith(s, "{{") then ParseInterpolationS(s)
      else if |s| > 0 && s[0] == '<' && element then ParseElementS(s)
      else ParseTextS(s);
    if p.out.TypeError? then Parsed(TypeError, p.rest) else Parsed(Ok([p.out.value]), p.rest)
  }

  /** `parseChildren` as written in lib/compiler.cjs.js:9-26. */
  function ParseChildrenAsWritten(s: string): Parsed<seq<PNode>>
  {
    ParseChildrenWith(s, LetterTestAsWritten(s))
  }

  /** `parseChildren` with the element test asking for a second character. */
  function ParseChildrenS(s: string): Parsed<seq<PNode>>
  {
    ParseChildrenWith(s, LetterFollows(s))
  }

  /**
   * `baseParse(content)`: a root over the one node read from a fresh
   * context, with the corrected element test of `ParseChildrenS`.
   */
  function BaseParseS(content: string): (r: Result<Root>)
  {
    var p := ParseChildrenS(content);
    if p.out.TypeError? then TypeError else Ok(Root(p.out.value))
  }

  // ----- Properties -----

  /** A successful parse gives a root with exactly one child. */
  lemma BaseParseOneChild(content: string)
    ensures BaseParseS(content).Ok? ==> |BaseParseS(content).value.children| == 1
    ensures BaseParseS(content).Ok? <==> !(LetterFollows(content) && content[0] == '<' && !StartsWith(content, "{{") && ParseElementS(content).out.TypeError?)
  {
  }

  /**
   * A source starting with `"{{"` gives an interpolation of the trimmed text
   * before the first `"}}"` found from index 2, and the source after that
   * `"}}"` is left.
   */
  lemma InterpolationContent(src: string)
    requires StartsWith(src, "{{") && IndexOfClose(src, 2) != -1
    ensures var p := ParseInterpolationS(src);
      var k := IndexOfClose(src, 2);
      && (forall j | 2 <= j < k :: !CloseAt(src, j))
      && p.out == Ok(Interpolation(SimpleExpression(Trim(src[2..k]))))
      && p.rest == src[k + 2..]
  {
    IndexOfCloseFirst(src, 2);
    var k := IndexOfClose(src, 2);
    var s1 := src[2..];
    assert AdvanceByS(src, 2) == s1;
    assert Slice(s1, 0, k - 2) == src[2..k];
    assert AdvanceByS(s1, k - 2) == src[k..];
    assert AdvanceByS(src[k..], 2) == src[k + 2..];
  }

  /**
   * Without a `"}}"` the raw length is -3, and `slice` reads it from the
   * end: the content is all but the last three characters after the
   * `"{{"`, trimmed, and at most one character is left.
   */
  lemma InterpolationUnclosed(src: string)
    requires StartsWith(src, "{{") && IndexOfClose(src, 2) == -1
    ensures var p := ParseInterpolationS(src);
      var s1 := src[2..];
      var cut := if |s1| < 3 then 0 else |s1| - 3;
      && (forall j | 2 <= j :: !CloseAt(src, j))
      && p.out == Ok(Interpolation(SimpleExpression(Trim(s1[..cut]))))
      && p.rest == s1[cut..][if |s1| - cut < 2 then |s1| - cut else 2..]
  {
    IndexOfCloseFirst(src, 2);
    var s1 := src[2..];
    assert AdvanceByS(src, 2) == s1;
  }

  /**
   * `"<"` and a letter give an element whose tag is the longest run of
   * letters after the `"<"`; when the start tag and the character after it
   * are followed by an end tag, the end tag and one more character are
   * consumed too.
   */
  lemma ElementTag(src: string)
    requires |src| >= 2 && src[0] == '<' && IsLetter(src[1])
    ensures var tag := LetterRun(src[1..]);
      var rest := AdvanceByS(src, |tag| + 2);
      var p := ParseElementS(src);
      && |tag| >= 1 && src[1..1 + |tag|] == tag
      && (forall i | 0 <= i < |tag| :: IsLetter(tag[i]))
      && (1 + |tag| == |src| || !IsLetter(src[1 + |tag|]))
      && (p.out.Ok? <==> rest != "" && rest[0] == '<')
      && (p.out.Ok? ==> p.out.value == Element(tag) && p.rest == ParseTagS(rest, End).rest)
  {
    var tag := LetterRun(src[1..]);
    LetterRunMaximal(src[1..]);
    assert src[1..][..|tag|] == src[1..1 + |tag|];
    assert AdvanceByS(AdvanceByS(src, 1 + |tag|), 1) == AdvanceByS(src, |tag| + 2);
  }

  /** The end tag: `"<"`, an optional `"/"` and letters are consumed, then one more character. */
  lemma EndTagConsumed(src: string)
    requires |src| >= 1 && src[0] == '<'
    ensures var open := if |src| >= 2 && src[1] == '/' then 2 else 1;
      var tag := LetterRun(src[open..]);
      var r := ParseTagS(src, End);
      && r.out == Ok(None)
      && r.rest == AdvanceByS(src, open + |tag| + 1)
  {
    var open := if |src| >= 2 && src[1] == '/' then 2 else 1;
    var tag := LetterRun(src[open..]);
    LetterRunMaximal(src[open..]);
    assert AdvanceByS(AdvanceByS(src, open + |tag|), 1) == AdvanceByS(src, open + |tag| + 1);
  }

  /**
   * Any other source, `"<"` not followed by a letter included, is one text
   * node holding the whole source, and nothing is left.
   */
  lemma OtherIsText(src: string)
    requires !StartsWith(src, "{{") && !(|src| > 0 && src[0] == '<' && LetterFollows(src))
    ensures ParseChildrenS(src) == Parsed(Ok([Text(src)]), "")
  {
    assert Slice(src, 0, |src|) == src;
  }

  /**
   * As written, a source that is just `"<"` throws: the letter test passes
   * on `undefined`, the start tag consumes the `"<"`, and the end tag finds
   * an empty source that the regular expression does not match.
   */
  lemma LoneAngleThrows()
    ensures ParseChildrenAsWritten("<").out.TypeError?
    ensures ParseChildrenS("<") == Parsed(Ok([Text("<")]), "")
  {
    assert ParseTagS("<", Start).rest == "";
    OtherIsText("<");
  }

  /** The written and the intended element tests differ only on that one-character source. */
  lemma AsWrittenAgreesElsewhere(src: string)
    requires src != "<"
    ensures ParseChildrenAsWritten(src) == ParseChildrenS(src)
  {
  }

  // ----- The parser context, in place -----

  class ParserContext {
    var source: string

    /** `createParserContext(content)`. */
    constructor (content: string)
      ensures source == content
    {
      source := content;
    }

    method AdvanceBy(length: int)
      modifies this
      ensures source == AdvanceByS(old(source), length)
    {
      source := SliceFrom(source, length);
    }

    method ParseTextData(length: int) returns (content: string)
      modifies this
      ensures Parsed(Ok(content), source) == ParseTextDataS(old(source), length)
    {
      content := Slice(source, 0, length);
      AdvanceBy(length);
    }

    method ParseText() returns (node: PNode)
      modifies this
      ensures Parsed(Ok(node), source) == ParseTextS(old(source))
    {
      var content := ParseTextData(|source|);
      node := Text(content);
    }

    method ParseTag(mode: TagType) returns (r: Result<Option<string>>)
      modifies this
      ensures Parsed(r, source) == ParseTagS(old(source), mode)
    {
      if |source| == 0 || source[0] != '<' {
        return TypeError;
      }
      var open := if |source| >= 2 && source[1] == '/' then 2 else 1;
      var tag := LetterRun(source[open..]);
      AdvanceBy(open + |tag|);
      AdvanceBy(1);
      if mode == End {
        return Ok(None);
      }
      return Ok(Some(tag));
    }

    method ParseElement() returns (r: Result<PNode>)
      modifies this
      ensures Parsed(r, source) == ParseElementS(old(source))
    {
      var element := ParseTag(Start);
      if element.TypeError? {
        return TypeError;
      }
      var close := ParseTag(End);
      if close.TypeError? {
        return TypeError;
      }
      return Ok(Element(element.value.value));
    }

    method ParseInterpolation() returns (node: PNode)
      modifies this
      ensures Parsed(Ok(node), source) == ParseInterpolationS(old(source))
    {
      var closeIndex := IndexOfClose(source, 2);
      AdvanceBy(2);
      var rawContentLength := closeIndex - 2;
      var rawContent := ParseTextData(rawContentLength);
      var content := Trim(rawContent);
      AdvanceBy(2);
      node := Interpolation(SimpleExpression(content));
    }

    method ParseChildren() returns (r: Result<seq<PNode>>)
      modifies this
      ensures Parsed(r, source) == ParseChildrenS(old(source))
    {
      var s := source;
      var node: PNode;
      if StartsWith(s, "{{") {
        node := ParseInterpolation();
      } else if |s| > 0 && s[0] == '<' && LetterFollows(s) {
        var e := ParseElement();
        if e.TypeError? {
          return TypeError;
        }
        node := e.value;
      } else {
        node := ParseText();
      }
      return Ok([node]);
    }
  }

  /** `baseParse(content)`, on a fresh parser context. */
  method BaseParse(content: string) returns (r: Result<Root>)
    ensures r == BaseParseS(content)
  {
    var context := new ParserContext(content);
    var children := context.ParseChildren();
    if children.TypeError? {
      return TypeError;
    }
    return Ok(Root(children.value));
  }
}

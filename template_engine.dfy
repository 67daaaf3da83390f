/** The line classifier of the HTML template engine: a template line is a
    for-tag, an if-tag, a line with a `{{variable}}`, a literal, or
    unrecognised; a variable line splits into head, variable and tail, and
    renders with the variable's value from a context map. Strings are
    sequences of characters, so an index is a character position. */
module TemplateEngine {
  import opened Opt

  datatype TagType = ForTag | IfTag

  /** `ExpressionData`: the text before `{{`, the variable, the text after `}}`. */
  datatype ExpressionData = ExpressionData(head: Option<string>, variable: string, tail: Option<string>)

  datatype ContentType =
    | Literal(text: string)
    | TemplateVariable(data: ExpressionData)
    | Tag(tag: TagType)
    | Unrecognized

  /** The result of an operation that can panic (an out-of-range slice). */
  datatype Outcome<T> = Done(value: T) | Panics

  // ---------------------------------------------------------------------
  // Substrings

  predicate OccursAt(s: string, needle: string, i: int) {
    0 <= i && i + |needle| <= |s| && s[i..i + |needle|] == needle
  }

  /** `str::contains`. */
  predicate Contains(s: string, needle: string) {
    exists i :: 0 <= i <= |s| && OccursAt(s, needle, i)
  }

  /** Containment is being a middle part of the string. */
  lemma ContainsIsInfix(s: string, needle: string)
    ensures Contains(s, needle) <==> exists a: string, b: string :: s == a + needle + b
  {
    if Contains(s, needle) {
      var i :| 0 <= i <= |s| && OccursAt(s, needle, i);
      assert s == s[..i] + needle + s[i + |needle|..];
    }
    if exists a: string, b: string :: s == a + needle + b {
      var a: string, b: string :| s == a + needle + b;
      assert s[|a|..|a| + |needle|] == needle;
      assert OccursAt(s, needle, |a|);
    }
  }

  /** A string lacking one of the needle's characters does not contain it. */
  lemma MissingCharacter(s: string, needle: string, j: nat)
    requires j < |needle| && needle[j] !in s
    ensures !Contains(s, needle)
  {
  }

  /** `check_symbol_string`. */
  predicate CheckSymbolString(input: string, symbol: string) {
    Contains(input, symbol)
  }

  /** `check_matching_pair`: both symbols occur, whatever their order. */
  predicate CheckMatchingPair(input: string, symbol1: string, symbol2: string) {
    Contains(input, symbol1) && Contains(input, symbol2)
  }

  lemma MatchingPairUnordered(input: string, symbol1: string, symbol2: string)
    ensures CheckMatchingPair(input, symbol1, symbol2) <==> CheckMatchingPair(input, symbol2, symbol1)
    ensures CheckMatchingPair(input, symbol1, symbol2) <==> CheckSymbolString(input, symbol1) && CheckSymbolString(input, symbol2)
  {
  }

  // ---------------------------------------------------------------------
  // Finding a character

  /** The position of the first `c` in `s`, `|s|` when there is none. */
  function Find(s: string, c: char): (r: nat)
    ensures r <= |s|
    ensures r < |s| ==> s[r] == c
    ensures forall j :: 0 <= j < r ==> s[j] != c
    decreases |s|
  {
    if s == [] || s[0] == c then 0 else 1 + Find(s[1..], c)
  }

  /** The position of the first `c` in `s`, 0 when there is none. */
  function FirstIndex(s: string, c: char): (r: nat)
    ensures c in s ==> r < |s| && s[r] == c && forall j :: 0 <= j < r ==> s[j] != c
    ensures c !in s ==> r == 0
  {
    if Find(s, c) < |s| then Find(s, c) else 0
  }

  /** `get_index_for_symbol`: scans the characters and stops at the first `c`. */
  method GetIndexForSymbol(input: string, symbol: char) returns (doesExist: bool, index: nat)
    ensures doesExist <==> symbol in input
    ensures doesExist ==> index < |input| && input[index] == symbol
    ensures doesExist ==> forall j :: 0 <= j < index ==> input[j] != symbol
    ensures !doesExist ==> index == 0
    ensures index == FirstIndex(input, symbol)
  {
    doesExist := false;
    index := 0;
    var i := 0;
    while i < |input|
      invariant 0 <= i <= |input|
      invariant !doesExist && index == 0
      invariant forall j :: 0 <= j < i ==> input[j] != symbol
    {
      if input[i] == symbol {
        doesExist := true;
        index := i;
        break;
      }
      i := i + 1;
    }
  }

  lemma IndexForSymbolExample()
    ensures '{' in "Hi {name} , welcome" && FirstIndex("Hi {name} , welcome", '{') == 3
  {
    var s := "Hi {name} , welcome";
    assert s[3] == '{';
  }

  // ---------------------------------------------------------------------
  // Splitting a variable line

  /** `get_expression_data`: head before the first '{', variable between two
      past it and the first '}', tail two past that; a slice out of range
      panics. */
  function GetExpressionData(line: string): (r: Outcome<ExpressionData>)
    ensures r.Done? <==> FirstIndex(line, '{') + 2 <= FirstIndex(line, '}') && FirstIndex(line, '}') + 2 <= |line|
    ensures r.Done? ==> r.value.head.Some? && r.value.tail.Some?
  {
    var i := FirstIndex(line, '{');
    var k := FirstIndex(line, '}');
    if i + 2 <= k && k + 2 <= |line| then
      Done(ExpressionData(Some(line[..i]), line[i + 2..k], Some(line[k + 2..])))
    else Panics
  }

  lemma CharOfOccurrence(s: string, needle: string, i: int, j: nat)
    requires OccursAt(s, needle, i) && j < |needle|
    ensures s[i + j] == needle[j]
  {
    assert s[i..i + |needle|][j] == needle[j];
  }

  /** The first index is pinned down by an occurrence with none before it. */
  lemma FirstIndexIs(s: string, c: char, i: nat)
    requires i < |s| && s[i] == c && forall j :: 0 <= j < i ==> s[j] != c
    ensures FirstIndex(s, c) == i
  {
  }

  /** A prefix followed by the slice after it is the longer prefix. */
  lemma PrefixThenSlice(s: string, a: nat, b: nat)
    requires a <= b <= |s|
    ensures s[..a] + s[a..b] == s[..b]
  {
  }

  /** Cutting out "{{" at i and "}}" at k and gluing the parts back with
      them gives the line again. */
  lemma Reassemble(s: string, i: nat, k: nat)
    requires i + 2 <= k && OccursAt(s, "{{", i) && OccursAt(s, "}}", k)
    ensures s[..i] + "{{" + s[i + 2..k] + "}}" + s[k + 2..] == s
  {
    PrefixThenSlice(s, i, i + 2);
    PrefixThenSlice(s, i + 2, k);
    PrefixThenSlice(s, k, k + 2);
    PrefixThenSlice(s, k + 2, |s|);
    assert s[..|s|] == s;
  }

  /** A line whose first '{' opens "{{" and whose first '}' later opens "}}"
      is put back together by its parts. */
  lemma ExpressionDataReassembles(line: string)
    requires '{' in line && '}' in line
    requires OccursAt(line, "{{", FirstIndex(line, '{')) && OccursAt(line, "}}", FirstIndex(line, '}'))
    requires FirstIndex(line, '{') < FirstIndex(line, '}')
    ensures GetExpressionData(line).Done?
    ensures var d := GetExpressionData(line).value;
            d.head.value + "{{" + d.variable + "}}" + d.tail.value == line
  {
    var i := FirstIndex(line, '{');
    var k := FirstIndex(line, '}');
    CharOfOccurrence(line, "{{", i, 1);
    assert GetExpressionData(line) == Done(ExpressionData(Some(line[..i]), line[i + 2..k], Some(line[k + 2..])));
    Reassemble(line, i, k);
  }

  /** Where the parts of a built line are. */
  lemma BuiltLineParts(head: string, variable: string, tail: string)
    ensures var line := head + "{{" + variable + "}}" + tail;
            var k := |head| + 2 + |variable|;
            |line| == k + 2 + |tail| &&
            line[|head|] == '{' && line[|head| + 1] == '{' && line[k] == '}' &&
            (forall j :: 0 <= j < |head| ==> line[j] == head[j]) &&
            (forall j :: |head| + 2 <= j < k ==> line[j] == variable[j - |head| - 2]) &&
            line[..|head|] == head && line[|head| + 2..k] == variable && line[k + 2..] == tail
  {
    var line := head + "{{" + variable + "}}" + tail;
    var k := |head| + 2 + |variable|;
    assert line == head + ("{{" + (variable + ("}}" + tail)));
    assert line[..|head|] == head;
    assert line[|head| + 2..k] == variable;
    assert line[k + 2..] == tail;
  }

  /** In a built line, the first '{' opens the "{{" and the first '}' opens the "}}". */
  lemma BuiltLineBraces(head: string, variable: string, tail: string)
    requires '{' !in head && '}' !in head && '}' !in variable
    ensures FirstIndex(head + "{{" + variable + "}}" + tail, '{') == |head|
    ensures FirstIndex(head + "{{" + variable + "}}" + tail, '}') == |head| + 2 + |variable|
  {
    var line := head + "{{" + variable + "}}" + tail;
    var i := |head|;
    var k := |head| + 2 + |variable|;
    BuiltLineParts(head, variable, tail);
    FirstIndexIs(line, '{', i);
    forall j | 0 <= j < k
      ensures line[j] != '}'
    {
      if j >= i + 2 {
        assert line[j] == variable[j - i - 2];
      }
    }
    FirstIndexIs(line, '}', k);
  }

  /** Splitting the line built from a head without braces, a variable
      without '}' and any tail gives back those three parts. */
  lemma ExpressionDataOfBuiltLine(head: string, variable: string, tail: string)
    requires '{' !in head && '}' !in head && '}' !in variable
    ensures GetExpressionData(head + "{{" + variable + "}}" + tail)
         == Done(ExpressionData(Some(head), variable, Some(tail)))
  {
    BuiltLineParts(head, variable, tail);
    BuiltLineBraces(head, variable, tail);
  }

  lemma ExpressionDataExample()
    ensures GetExpressionData("Hi {{name}} , welcome") == Done(ExpressionData(Some("Hi "), "name", Some(" , welcome")))
  {
    assert "Hi {{name}} , welcome" == "Hi " + "{{" + "name" + "}}" + " , welcome";
    ExpressionDataOfBuiltLine("Hi ", "name", " , welcome");
  }

  // ---------------------------------------------------------------------
  // Classifying a line

  predicate IsTagExpression(line: string) {
    CheckMatchingPair(line, "{%", "%}")
  }

  predicate IsForTag(line: string) {
    (CheckSymbolString(line, "for") && CheckSymbolString(line, "in")) || CheckSymbolString(line, "endfor")
  }

  predicate IsIfTag(line: string) {
    CheckSymbolString(line, "if") || CheckSymbolString(line, "endif")
  }

  predicate IsTemplateVariable(line: string) {
    CheckMatchingPair(line, "{{", "}}")
  }

  /** `get_content_type`; a variable line whose slices are out of range panics. */
  function GetContentType(line: string): (r: Outcome<ContentType>)
    ensures r.Panics? ==> IsTemplateVariable(line) && GetExpressionData(line).Panics?
    ensures r.Done? && r.value.TemplateVariable? ==> GetExpressionData(line) == Done(r.value.data)
  {
    if IsTagExpression(line) && IsForTag(line) then Done(Tag(ForTag))
    else if IsTagExpression(line) && IsIfTag(line) then Done(Tag(IfTag))
    else if IsTemplateVariable(line) then
      match GetExpressionData(line)
      case Done(content) => Done(TemplateVariable(content))
      case Panics => Panics
    else if !IsTagExpression(line) && !IsTemplateVariable(line) then Done(Literal(line))
    else Done(Unrecognized)
  }

  /** The classification, case by case, in both directions: a for-tag wins
      over an if-tag, a tag over a variable, and a literal is the line itself. */
  lemma ContentTypePriority(line: string)
    ensures GetContentType(line) == Done(Tag(ForTag)) <==> IsTagExpression(line) && IsForTag(line)
    ensures GetContentType(line) == Done(Tag(IfTag)) <==> IsTagExpression(line) && !IsForTag(line) && IsIfTag(line)
    ensures (GetContentType(line).Panics? || (GetContentType(line).Done? && GetContentType(line).value.TemplateVariable?)) <==>
              !(IsTagExpression(line) && (IsForTag(line) || IsIfTag(line))) && IsTemplateVariable(line)
    ensures (GetContentType(line).Done? && GetContentType(line).value.Literal?) <==> !IsTagExpression(line) && !IsTemplateVariable(line)
    ensures GetContentType(line).Done? && GetContentType(line).value.Literal? ==> GetContentType(line).value.text == line
  {
  }

  /** Unrecognized: a tag pair with neither tag keyword, and no variable pair. */
  lemma UnrecognizedExactly(line: string)
    ensures GetContentType(line) == Done(Unrecognized) <==>
              IsTagExpression(line) && !IsForTag(line) && !IsIfTag(line) && !IsTemplateVariable(line)
  {
  }

  /** A line with the variable pair and no tag pair is a variable line,
      carrying its split, or panics where the split does. */
  lemma VariableLine(line: string)
    requires !IsTagExpression(line) && IsTemplateVariable(line)
    ensures GetContentType(line) == if GetExpressionData(line).Done? then Done(TemplateVariable(GetExpressionData(line).value)) else Panics
  {
  }

  lemma ContentTypeExample()
    ensures GetContentType("Hi {{name}} , welcome")
         == Done(TemplateVariable(ExpressionData(Some("Hi "), "name", Some(" , welcome"))))
  {
    var line := "Hi {{name}} , welcome";
    assert '%' !in line;
    MissingCharacter(line, "{%", 1);
    assert OccursAt(line, "{{", 3);
    assert OccursAt(line, "}}", 9);
    VariableLine(line);
    ExpressionDataExample();
  }

  lemma SymbolExamples()
    ensures CheckSymbolString("{{Hello}}", "{{")
    ensures CheckMatchingPair("{{Hello}}", "{{", "}}")
  {
    assert OccursAt("{{Hello}}", "{{", 0);
    assert OccursAt("{{Hello}}", "}}", 7);
  }

  // ---------------------------------------------------------------------
  // Rendering a variable line

  function Text(part: Option<string>): string {
    if part.Some? then part.value else ""
  }

  /** What a variable line renders to: head, the variable's value (nothing
      when it is unbound), tail. */
  function Rendered(content: ExpressionData, context: map<string, string>): string {
    Text(content.head) + (if content.variable in context then context[content.variable] else "") + Text(content.tail)
  }

  /** `generate_html_template_var`: appends the three parts to a new string. */
  method GenerateHtmlTemplateVar(content: ExpressionData, context: map<string, string>) returns (html: string)
    ensures html == Rendered(content, context)
  {
    html := "";
    if content.head.Some? {
      html := html + content.head.value;
    }
    if content.variable in context {
      html := html + context[content.variable];
    }
    if content.tail.Some? {
      html := html + content.tail.value;
    }
  }

  /** Rendering a split line replaces its `{{variable}}` by the variable's
      value, and drops it when the variable is unbound. */
  lemma RenderSubstitutes(head: string, variable: string, tail: string, context: map<string, string>)
    requires '{' !in head && '}' !in head && '}' !in variable
    ensures var parsed := GetExpressionData(head + "{{" + variable + "}}" + tail);
            parsed.Done? &&
            Rendered(parsed.value, context) == head + (if variable in context then context[variable] else "") + tail
  {
    ExpressionDataOfBuiltLine(head, variable, tail);
  }
}

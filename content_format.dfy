/**
 * The `formatContent` helpers that turn an article's raw text into HTML.
 *
 * The create and edit pages share one formatter (`FormatContent`): split on
 * blank lines, trim and wrap each paragraph in a styled `<p>`, then split the
 * result again on single line breaks, drop blank pieces and wrap each
 * trimmed piece in an `<li>`, the whole in a `<ul>`. The article modal uses
 * only the paragraph pass, with a plain `<p>` (`FormatParagraphs`).
 */
module ContentFormat {
  import opened JsString

  const ParagraphBreak := "\n\n"
  const LineBreak := "\n"
  const ListOpen := "<ul class=\"list-disc pl-6\">"
  const ListClose := "</ul>"
  const ItemOpen := "<li class=\"mb-2\">"
  const ItemClose := "</li>"
  const StyledParagraphOpen := "<p class=\"mb-4\">"
  const ParagraphOpen := "<p>"
  const ParagraphClose := "</p>"

  /** `segments.map(p => open + p.trim() + '</p>').join('')` */
  function WrapParagraphs(segments: seq<string>, open: string): string
  {
    if segments == [] then ""
    else open + Trim(segments[0]) + ParagraphClose + WrapParagraphs(segments[1..], open)
  }

  /** The paragraph pass: split on blank lines, then trim and wrap each segment. */
  function Paragraphs(content: string, open: string): string
  {
    WrapParagraphs(Split(content, ParagraphBreak), open)
  }

  /** What one line contributes to the list: nothing when blank, otherwise its trimmed text. */
  function LineItem(line: string): seq<string>
  {
    var t := Trim(line);
    if t == "" then [] else [t]
  }

  /** `lines.filter(l => l.trim() !== '').map(l => l.trim())` */
  function NonBlankTrimmed(lines: seq<string>): (items: seq<string>)
    ensures |items| <= |lines|
  {
    if lines == [] then [] else LineItem(lines[0]) + NonBlankTrimmed(lines[1..])
  }

  /** `items.map(i => '<li class="mb-2">' + i + '</li>').join('')` */
  function WrapItems(items: seq<string>): string
  {
    if items == [] then "" else ItemOpen + items[0] + ItemClose + WrapItems(items[1..])
  }

  /** The texts of the list items the create/edit formatter emits, in order. */
  function ListItems(content: string): seq<string>
  {
    NonBlankTrimmed(Split(Paragraphs(content, StyledParagraphOpen), LineBreak))
  }

  /** `formatContent` of the create and edit pages. */
  function FormatContent(content: string): string
  {
    ListOpen + WrapItems(ListItems(content)) + ListClose
  }

  /** `formatContent` of the article modal: the paragraph pass alone, with a plain `<p>`. */
  function FormatParagraphs(content: string): string
  {
    Paragraphs(content, ParagraphOpen)
  }

  // ---------------------------------------------------------------------
  // One-element lists

  lemma WrapParagraphsOne(segment: string, open: string)
    ensures WrapParagraphs([segment], open) == open + Trim(segment) + ParagraphClose
  {
    assert [segment][1..] == [];
  }

  lemma WrapItemsOne(item: string)
    ensures WrapItems([item]) == ItemOpen + item + ItemClose
  {
    assert [item][1..] == [];
  }

  // ---------------------------------------------------------------------
  // Filtering blank lines

  /** The filter-and-trim pass works line by line: it distributes over concatenation. */
  lemma {:induction false} NonBlankTrimmedAppend(a: seq<string>, b: seq<string>)
    ensures NonBlankTrimmed(a + b) == NonBlankTrimmed(a) + NonBlankTrimmed(b)
  {
    if a == [] {
      assert a + b == b;
    } else {
      var ab := a + b;
      assert ab[0] == a[0] && ab[1..] == a[1..] + b;
      calc {
        NonBlankTrimmed(ab);
        LineItem(a[0]) + NonBlankTrimmed(a[1..] + b);
        { NonBlankTrimmedAppend(a[1..], b); }
        LineItem(a[0]) + (NonBlankTrimmed(a[1..]) + NonBlankTrimmed(b));
        (LineItem(a[0]) + NonBlankTrimmed(a[1..])) + NonBlankTrimmed(b);
      }
    }
  }

  /** A line contributes nothing exactly when it is blank, and otherwise one clean item. */
  lemma LineItemClean(line: string)
    ensures LineItem(line) == [] <==> AllWhitespace(line)
    ensures LineItem(line) != [] ==> LineItem(line) == [Trim(line)] && Trim(line) != "" && IsTrimmed(Trim(line))
  {
    TrimShape(line);
  }

  lemma SingleLine(line: string)
    ensures NonBlankTrimmed([line]) == LineItem(line)
  {
    assert [line][1..] == [];
  }

  /** The items of `a`, one line and `b`, as the items of the three parts in order. */
  lemma NonBlankTrimmedAround(a: seq<string>, line: string, b: seq<string>)
    ensures NonBlankTrimmed(a + [line] + b) == NonBlankTrimmed(a) + LineItem(line) + NonBlankTrimmed(b)
  {
    NonBlankTrimmedAppend(a + [line], b);
    NonBlankTrimmedAppend(a, [line]);
    SingleLine(line);
  }

  /** A blank line yields no list item, wherever it stands. */
  lemma BlankLineDropped(a: seq<string>, blank: string, b: seq<string>)
    requires AllWhitespace(blank)
    ensures NonBlankTrimmed(a + [blank] + b) == NonBlankTrimmed(a + b)
  {
    NonBlankTrimmedAround(a, blank, b);
    LineItemClean(blank);
    DropNoItems(NonBlankTrimmed(a), LineItem(blank), NonBlankTrimmed(b));
    NonBlankTrimmedAppend(a, b);
  }

  // Reassociation steps. Each is stated on plain variables, so the solver
  // proves it away from the formatter's definitions in the callers' context.

  lemma DropNoItems(x: seq<string>, none: seq<string>, z: seq<string>)
    requires none == []
    ensures x + none + z == x + z
  {
  }

  /** A non-blank line yields exactly its trimmed text. */
  lemma NonBlankLineKept(a: seq<string>, line: string, b: seq<string>)
    requires !AllWhitespace(line)
    ensures NonBlankTrimmed(a + [line] + b) == NonBlankTrimmed(a) + [Trim(line)] + NonBlankTrimmed(b)
  {
    NonBlankTrimmedAround(a, line, b);
    LineItemClean(line);
  }

  /** Lines that are already trimmed and non-blank pass through unchanged. */
  lemma {:induction false} NonBlankTrimmedOfTrimmed(lines: seq<string>)
    requires forall k :: 0 <= k < |lines| ==> lines[k] != "" && IsTrimmed(lines[k])
    ensures NonBlankTrimmed(lines) == lines
  {
    if lines != [] {
      var rest := lines[1..];
      assert forall k :: 0 <= k < |rest| ==> rest[k] == lines[k + 1];
      NonBlankTrimmedOfTrimmed(rest);
      assert Trim(lines[0]) == lines[0] by { TrimOfTrimmed(lines[0]); }
      assert lines == [lines[0]] + rest;
    }
  }

  /** Items that are non-empty and carry no whitespace at either end. */
  predicate CleanItems(items: seq<string>)
  {
    forall k :: 0 <= k < |items| ==> items[k] != "" && IsTrimmed(items[k])
  }

  lemma CleanConcat(a: seq<string>, b: seq<string>)
    requires CleanItems(a) && CleanItems(b)
    ensures CleanItems(a + b)
  {
    forall k | 0 <= k < |a + b| ensures (a + b)[k] != "" && IsTrimmed((a + b)[k]) {
      if k >= |a| {
        assert (a + b)[k] == b[k - |a|];
      }
    }
  }

  /** Every item is non-blank and already trimmed. */
  lemma {:induction false} NonBlankTrimmedShape(lines: seq<string>)
    ensures forall k :: 0 <= k < |NonBlankTrimmed(lines)| ==>
      NonBlankTrimmed(lines)[k] != "" && IsTrimmed(NonBlankTrimmed(lines)[k])
  {
    if lines != [] {
      assert CleanItems(LineItem(lines[0])) by {
        LineItemClean(lines[0]);
      }
      NonBlankTrimmedShape(lines[1..]);
      CleanConcat(LineItem(lines[0]), NonBlankTrimmed(lines[1..]));
    }
  }

  /** A character absent from every line is absent from every item. */
  lemma {:induction false} NonBlankTrimmedOmits(lines: seq<string>, c: char)
    requires forall k :: 0 <= k < |lines| ==> c !in lines[k]
    ensures forall k :: 0 <= k < |NonBlankTrimmed(lines)| ==> c !in NonBlankTrimmed(lines)[k]
  {
    if lines != [] {
      TrimSubstring(lines[0]);
      NonBlankTrimmedOmits(lines[1..], c);
    }
  }

  /** Wrapping items adds only the item tags' characters. */
  lemma {:induction false} WrapItemsOmits(items: seq<string>, c: char)
    requires c !in ItemOpen && c !in ItemClose
    requires forall k :: 0 <= k < |items| ==> c !in items[k]
    ensures c !in WrapItems(items)
  {
    if items != [] {
      WrapItemsOmits(items[1..], c);
    }
  }

  // ---------------------------------------------------------------------
  // Properties of the create/edit formatter

  /** The output always opens with the list tag and ends with its closing tag. */
  lemma FormatContentFramed(content: string)
    ensures |FormatContent(content)| >= |ListOpen| + |ListClose|
    ensures FormatContent(content)[..|ListOpen|] == ListOpen
    ensures FormatContent(content)[|FormatContent(content)| - |ListClose|..] == ListClose
  {
  }

  /** Every list item is non-blank, already trimmed and free of line breaks. */
  lemma ListItemsShape(content: string)
    ensures forall k :: 0 <= k < |ListItems(content)| ==>
      var item := ListItems(content)[k];
      item != "" && IsTrimmed(item) && '\n' !in item
  {
    var lines := Split(Paragraphs(content, StyledParagraphOpen), LineBreak);
    LinesOmitBreak(lines);
    NonBlankTrimmedOmits(lines, '\n');
    NonBlankTrimmedShape(lines);
  }

  /** Every line break of the input is consumed: the HTML has none. */
  lemma FormatContentHasNoLineBreak(content: string)
    ensures '\n' !in FormatContent(content)
  {
    ListItemsShape(content);
    ListOmitsBreak(ListItems(content));
  }

  /** A list of items without line breaks is wrapped without line breaks. */
  lemma ListOmitsBreak(items: seq<string>)
    requires forall k :: 0 <= k < |items| ==> '\n' !in items[k]
    ensures '\n' !in ListOpen + WrapItems(items) + ListClose
  {
    assert '\n' !in ItemOpen && '\n' !in ItemClose;
    WrapItemsOmits(items, '\n');
    assert '\n' !in ListOpen && '\n' !in ListClose;
  }

  lemma LinesOmitBreak(lines: seq<string>)
    requires forall k :: 0 <= k < |lines| ==> !Contains(lines[k], LineBreak)
    ensures forall k :: 0 <= k < |lines| ==> '\n' !in lines[k]
  {
    forall k | 0 <= k < |lines| ensures '\n' !in lines[k] {
      ContainsChar(lines[k], '\n');
    }
  }

  /** A string whose first separator character is absent cannot contain the separator. */
  lemma MissingFirstChar(s: string, sep: string)
    requires sep != [] && sep[0] !in s
    ensures !Contains(s, sep)
  {
    forall i: nat | i <= |s| ensures !OccursAt(s, sep, i) {
      if i + |sep| <= |s| {
        assert s[i..i + |sep|][0] == s[i];
      }
    }
  }

  /** Text without line breaks becomes a single item holding a single paragraph. */
  lemma FormatContentSingleLine(content: string)
    requires '\n' !in content
    ensures FormatContent(content) ==
      ListOpen + ItemOpen + StyledParagraphOpen + Trim(content) + ParagraphClose + ItemClose + ListClose
  {
    SingleParagraph(content, StyledParagraphOpen);
    assert '\n' !in Trim(content) by {
      TrimSubstring(content);
    }
    ParagraphTags();
    FormatOfOneParagraph(content, StyledParagraphOpen, Trim(content), ParagraphClose);
  }

  /** The styled paragraph's tags start with `<`, end with `>` and hold no line break. */
  lemma ParagraphTags()
    ensures StyledParagraphOpen != [] && StyledParagraphOpen[0] == '<' && '\n' !in StyledParagraphOpen
    ensures ParagraphClose != [] && ParagraphClose[|ParagraphClose| - 1] == '>' && '\n' !in ParagraphClose
  {
  }

  /** Content without line breaks is one paragraph segment. */
  lemma SingleParagraph(content: string, open: string)
    requires '\n' !in content
    ensures Paragraphs(content, open) == open + Trim(content) + ParagraphClose
  {
    MissingFirstChar(content, ParagraphBreak);
    SplitWithout(content, ParagraphBreak);
    WrapParagraphsOne(content, open);
  }

  /** When the paragraph pass yields one clean line, the list has exactly that item. */
  lemma FormatOfOneParagraph(content: string, open: string, text: string, close: string)
    requires Paragraphs(content, StyledParagraphOpen) == open + text + close
    requires open != [] && open[0] == '<' && close != [] && close[|close| - 1] == '>'
    requires '\n' !in open && '\n' !in text && '\n' !in close
    ensures FormatContent(content) == ListOpen + ItemOpen + open + text + close + ItemClose + ListClose
  {
    var p := open + text + close;
    TagsTrimmed(open, text, close);
    OneItem(p);
    var body := WrapItems(ListItems(content));
    assert body == ItemOpen + p + ItemClose;
    calc {
      FormatContent(content);
      ListOpen + body + ListClose;
      { Reassociate(ListOpen, ItemOpen, open, text, close, ItemClose, ListClose); }
      ListOpen + ItemOpen + open + text + close + ItemClose + ListClose;
    }
  }

  lemma Reassociate(a: string, b: string, c: string, d: string, e: string, f: string, g: string)
    ensures a + (b + (c + d + e) + f) + g == a + b + c + d + e + f + g
  {
  }

  /** Text between a tag that opens and one that closes is trimmed as a whole. */
  lemma TagsTrimmed(open: string, text: string, close: string)
    requires open != [] && open[0] == '<'
    requires close != [] && close[|close| - 1] == '>'
    ensures IsTrimmed(open + text + close)
  {
    var s := open + text + close;
    assert s[0] == '<' && s[|s| - 1] == '>';
  }

  /** A trimmed, non-empty line without line breaks becomes exactly one item. */
  lemma OneItem(p: string)
    requires p != [] && IsTrimmed(p) && '\n' !in p
    ensures WrapItems(NonBlankTrimmed(Split(p, LineBreak))) == ItemOpen + p + ItemClose
  {
    ContainsChar(p, '\n');
    SplitWithout(p, LineBreak);
    TrimOfTrimmed(p);
    assert [p][1..] == [];
    WrapItemsOne(p);
  }

  /** The empty text, in particular, becomes one item with an empty paragraph. */
  lemma FormatContentEmpty()
    ensures FormatContent("") == ListOpen + ItemOpen + StyledParagraphOpen + ParagraphClose + ItemClose + ListClose
  {
    assert FormatContent("") ==
      ListOpen + ItemOpen + StyledParagraphOpen + "" + ParagraphClose + ItemClose + ListClose by {
      FormatContentSingleLine("");
      TrimShape("");
    }
    DropEmpty(ListOpen + ItemOpen + StyledParagraphOpen, ParagraphClose, ItemClose, ListClose);
  }

  lemma DropEmpty(a: string, b: string, c: string, d: string)
    ensures a + "" + b + c + d == a + b + c + d
  {
    assert a + "" == a;
  }

  /** `x + "\n" + y` holds no blank line when neither part has a line break and `y` is not empty. */
  lemma NoBlankLineAround(x: string, y: string)
    requires '\n' !in x && '\n' !in y && y != ""
    ensures !Contains(x + "\n" + y, ParagraphBreak)
  {
    var content := x + "\n" + y;
    forall j | 0 <= j < |content| && j != |x| ensures content[j] != '\n' {
      if j < |x| { assert content[j] == x[j]; } else { assert content[j] == y[j - |x| - 1]; }
    }
    forall i: nat | i <= |content| ensures !OccursAt(content, ParagraphBreak, i) {
      if i + 2 <= |content| {
        assert content[i..i + 2][0] == content[i] && content[i..i + 2][1] == content[i + 1];
      }
    }
  }

  /**
   * A single line break inside a paragraph splits it into two items, so the
   * paragraph's opening tag ends up in the first item and its closing tag in
   * the second.
   */
  lemma FormatContentTwoLines(x: string, y: string)
    requires x != "" && IsTrimmed(x) && '\n' !in x
    requires y != "" && IsTrimmed(y) && '\n' !in y
    ensures FormatContent(x + "\n" + y) ==
      ListOpen + ItemOpen + StyledParagraphOpen + x + ItemClose
               + ItemOpen + y + ParagraphClose + ItemClose + ListClose
  {
    var content := x + "\n" + y;
    TwoLinesParagraph(x, y);
    assert FormatContent(content) ==
      ListOpen + ItemOpen + (StyledParagraphOpen + x) + ItemClose
               + ItemOpen + (y + ParagraphClose) + ItemClose + ListClose by {
      TaggedLinesClean(x, y);
      FormatOfTwoLines(content, StyledParagraphOpen + x, y + ParagraphClose);
    }
    RegroupItems(ListOpen, ItemOpen, StyledParagraphOpen, x, ItemClose, y, ParagraphClose, ListClose);
  }

  /** The paragraph pass keeps the single line break, between the opening tag's line and the closing tag's. */
  lemma TwoLinesParagraph(x: string, y: string)
    requires x != "" && IsTrimmed(x) && '\n' !in x
    requires y != "" && IsTrimmed(y) && '\n' !in y
    ensures Paragraphs(x + "\n" + y, StyledParagraphOpen) ==
      (StyledParagraphOpen + x) + "\n" + (y + ParagraphClose)
  {
    NoBlankLineAround(x, y);
    TwoLinesTrimmed(x, y);
    SingleSegment(x + "\n" + y, StyledParagraphOpen);
    Regroup(StyledParagraphOpen, x, "\n", y, ParagraphClose);
  }

  lemma TaggedLinesClean(x: string, y: string)
    requires x != "" && IsTrimmed(x) && '\n' !in x
    requires y != "" && IsTrimmed(y) && '\n' !in y
    ensures var first := StyledParagraphOpen + x;
      first != [] && IsTrimmed(first) && '\n' !in first
    ensures var second := y + ParagraphClose;
      second != [] && IsTrimmed(second) && '\n' !in second
  {
    var first := StyledParagraphOpen + x;
    var second := y + ParagraphClose;
    assert first[0] == '<' && first[|first| - 1] == x[|x| - 1];
    assert second[0] == y[0] && second[|second| - 1] == '>';
  }

  lemma TwoLinesTrimmed(x: string, y: string)
    requires x != "" && IsTrimmed(x) && y != "" && IsTrimmed(y)
    ensures IsTrimmed(x + "\n" + y)
  {
    var s := x + "\n" + y;
    assert s[0] == x[0] && s[|s| - 1] == y[|y| - 1];
  }

  /** A segment without blank lines that is already trimmed is wrapped as it stands. */
  lemma SingleSegment(content: string, open: string)
    requires !Contains(content, ParagraphBreak) && IsTrimmed(content)
    ensures Paragraphs(content, open) == open + content + ParagraphClose
  {
    SplitWithout(content, ParagraphBreak);
    TrimOfTrimmed(content);
    WrapParagraphsOne(content, open);
  }

  lemma Regroup(a: string, b: string, c: string, d: string, e: string)
    ensures a + (b + c + d) + e == (a + b) + c + (d + e)
  {
  }

  lemma RegroupItems(lo: string, io: string, po: string, x: string, ic: string, y: string, pc: string, lc: string)
    ensures lo + io + (po + x) + ic + io + (y + pc) + ic + lc ==
            lo + io + po + x + ic + io + y + pc + ic + lc
  {
  }

  /** When the paragraph pass yields two clean lines, the list has exactly those two items. */
  lemma FormatOfTwoLines(content: string, first: string, second: string)
    requires Paragraphs(content, StyledParagraphOpen) == first + "\n" + second
    requires first != [] && IsTrimmed(first) && '\n' !in first
    requires second != [] && IsTrimmed(second) && '\n' !in second
    ensures FormatContent(content) ==
      ListOpen + ItemOpen + first + ItemClose + ItemOpen + second + ItemClose + ListClose
  {
    TwoItems(content, first, second);
    assert FormatContent(content) == ListOpen + WrapItems([first, second]) + ListClose;
    WrapItemsTwo(first, second);
    RegroupTwo(ListOpen, ItemOpen, first, ItemClose, second, ListClose);
  }

  lemma TwoItems(content: string, first: string, second: string)
    requires Paragraphs(content, StyledParagraphOpen) == first + "\n" + second
    requires first != [] && IsTrimmed(first) && '\n' !in first
    requires second != [] && IsTrimmed(second) && '\n' !in second
    ensures ListItems(content) == [first, second]
  {
    SplitAtBreak(first, second);
    NonBlankTrimmedOfTrimmed([first, second]);
  }

  lemma WrapItemsTwo(a: string, b: string)
    ensures WrapItems([a, b]) == ItemOpen + a + ItemClose + (ItemOpen + b + ItemClose)
  {
    assert [a, b][1..] == [b];
    WrapItemsOne(b);
  }

  lemma SplitAtBreak(first: string, second: string)
    requires '\n' !in first && '\n' !in second
    ensures Split(first + "\n" + second, LineBreak) == [first, second]
  {
    var p := first + "\n" + second;
    forall j: nat | j < |first| ensures !OccursAt(p, LineBreak, j) {
      assert p[j] == first[j];
      assert p[j..j + 1][0] == p[j];
    }
    assert OccursAt(p, LineBreak, |first|);
    SplitAtFirst(p, LineBreak, |first|);
    assert p[..|first|] == first && p[|first| + 1..] == second;
    ContainsChar(second, '\n');
    SplitWithout(second, LineBreak);
  }

  lemma RegroupTwo(lo: string, io: string, a: string, ic: string, b: string, lc: string)
    ensures lo + (io + a + ic + (io + b + ic)) + lc == lo + io + a + ic + io + b + ic + lc
  {
  }

  // ---------------------------------------------------------------------
  // Properties of the modal's paragraph formatter

  /** Empty content yields exactly one empty paragraph. */
  lemma FormatParagraphsEmpty()
    ensures FormatParagraphs("") == "<p></p>"
  {
    assert Split("", ParagraphBreak) == [""];
    WrapParagraphsOne("", ParagraphOpen);
    TrimShape("");
  }

  /** Content without a blank line is one paragraph; single line breaks stay inside it. */
  lemma FormatParagraphsSingle(content: string)
    requires !Contains(content, ParagraphBreak)
    ensures FormatParagraphs(content) == ParagraphOpen + Trim(content) + ParagraphClose
  {
    SplitWithout(content, ParagraphBreak);
    WrapParagraphsOne(content, ParagraphOpen);
  }

  /**
   * Paragraphs come out one per blank-line-separated segment, in order: the
   * first segment (ending before the first blank line) becomes the first
   * `<p>`, the rest is formatted the same way.
   */
  lemma FormatParagraphsCons(a: string, b: string)
    requires !Contains(a, ParagraphBreak)
    requires a == "" || a[|a| - 1] != '\n'
    ensures FormatParagraphs(a + ParagraphBreak + b) ==
      ParagraphOpen + Trim(a) + ParagraphClose + FormatParagraphs(b)
  {
    var s := a + ParagraphBreak + b;
    forall j: nat | j < |a| ensures !OccursAt(s, ParagraphBreak, j) {
      if j + 2 <= |a| {
        assert s[j..j + 2] == a[j..j + 2];
        assert !OccursAt(a, ParagraphBreak, j);
      } else {
        assert s[j] == a[|a| - 1] != '\n';
        assert s[j..j + 2][0] == s[j];
      }
    }
    assert OccursAt(s, ParagraphBreak, |a|);
    SplitAtFirst(s, ParagraphBreak, |a|);
    assert s[..|a|] == a && s[|a| + 2..] == b;
  }
}

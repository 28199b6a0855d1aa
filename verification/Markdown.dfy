/**
  The block structure of the Markdown renderer: the single-pass parser with one buffer per block
  kind against a specification that groups lines recursively.
*/
module Markdown {
  import opened Common

  datatype Shape = Blank | Heading(level: nat) | Quote | Ordered | Unordered | Plain

  /**
    What the renderer asks about a line: is it a fence, which pattern does it match, does it contain a
    pipe, into how many cells does it split, are all of them divider cells. A blank line has no pipe
    and is no fence.
  */
  datatype Line = Line(fence: bool, shape: Shape, pipe: bool, cells: nat, divider: bool)

  /** Blocks name their source lines by index; a code block names the lines between its fences. */
  datatype Block =
    | Paragraph(lines: seq<nat>)
    | List(ordered: bool, lines: seq<nat>)
    | BlockQuote(lines: seq<nat>)
    | Code(lines: seq<nat>)
    | Table(lines: seq<nat>)
    | Title(line: nat, level: nat)

  type Document = lines: seq<Line> | forall l :: l in lines ==> l.shape.Blank? ==> !l.pipe && !l.fence witness []

  // ---------------------------------------------------------------- tables

  predicate IsTableStart(lines: Document, i: nat)
    requires i < |lines|
  {
    && i + 1 < |lines|
    && lines[i].pipe && lines[i + 1].pipe
    && lines[i].cells >= 2 && lines[i].cells == lines[i + 1].cells
    && lines[i + 1].divider
  }

  predicate IsTableRow(line: Line, cells: nat) {
    !line.shape.Blank? && line.pipe && line.cells == cells
  }

  /** First line at or after `i` that is no body row. */
  function TableEnd(lines: Document, i: nat, cells: nat): (r: nat)
    requires i <= |lines|
    ensures i <= r <= |lines|
    decreases |lines| - i
  {
    if i < |lines| && IsTableRow(lines[i], cells) then TableEnd(lines, i + 1, cells) else i
  }

  /** The scan of `renderMarkdownTable`; the result is the line after the table. */
  method ScanTable(lines: Document, start: nat) returns (next: nat)
    requires start < |lines| && IsTableStart(lines, start)
    ensures start + 2 <= next <= |lines|
    ensures next == TableEnd(lines, start + 2, lines[start].cells)
  {
    next := start + 2;
    while next < |lines|
      invariant start + 2 <= next <= |lines|
      invariant TableEnd(lines, next, lines[start].cells) == TableEnd(lines, start + 2, lines[start].cells)
    {
      var line := lines[next];
      if line.shape.Blank? || !line.pipe {
        break;
      }
      if line.cells != lines[start].cells {
        break;
      }
      next := next + 1;
    }
  }

  // ---------------------------------------------------------------- specification

  function Range(lo: nat, hi: nat): (r: seq<nat>)
    requires lo <= hi
    ensures |r| == hi - lo
  {
    seq(hi - lo, i requires 0 <= i < hi - lo => lo + i)
  }

  /** The line starts no fence or table, and is of shape `s`. */
  predicate Continues(lines: Document, i: nat, s: Shape)
    requires i < |lines|
  {
    !lines[i].fence && !IsTableStart(lines, i) && lines[i].shape == s
  }

  /** End of the maximal run of `s` lines from `i` on. */
  function RunEnd(lines: Document, i: nat, s: Shape): (r: nat)
    requires i <= |lines|
    ensures i <= r <= |lines|
    decreases |lines| - i
  {
    if i < |lines| && Continues(lines, i, s) then RunEnd(lines, i + 1, s) else i
  }

  /** First fence at or after `i`. */
  function FenceEnd(lines: Document, i: nat): (r: nat)
    requires i <= |lines|
    ensures i <= r <= |lines|
    decreases |lines| - i
  {
    if i < |lines| && !lines[i].fence then FenceEnd(lines, i + 1) else i
  }

  function RunBlock(s: Shape, lines: seq<nat>): Block {
    match s
    case Quote => BlockQuote(lines)
    case Ordered => List(true, lines)
    case Unordered => List(false, lines)
    case _ => Paragraph(lines)
  }

  /** The blocks of the document from line `i` on. */
  function Blocks(lines: Document, i: nat): seq<Block>
    requires i <= |lines|
    decreases |lines| - i
  {
    if i == |lines| then []
    else if lines[i].fence then
      var close := FenceEnd(lines, i + 1);
      [Code(Range(i + 1, close))] + Blocks(lines, if close < |lines| then close + 1 else close)
    else if IsTableStart(lines, i) then
      var end := TableEnd(lines, i + 2, lines[i].cells);
      [Table(Range(i, end))] + Blocks(lines, end)
    else if lines[i].shape.Blank? then Blocks(lines, i + 1)
    else if lines[i].shape.Heading? then [Title(i, lines[i].shape.level)] + Blocks(lines, i + 1)
    else
      var end := RunEnd(lines, i, lines[i].shape);
      [RunBlock(lines[i].shape, Range(i, end))] + Blocks(lines, end)
  }

  // ---------------------------------------------------------------- the parser

  /** The renderer's buffers; `code` is absent outside a fence. */
  class Renderer {
    var html: seq<Block>
    var paragraph: seq<nat>
    var listOrdered: bool
    var listItems: seq<nat>
    var quoteLines: seq<nat>
    var codeLines: Option<seq<nat>>

    constructor ()
      ensures html == [] && Open() == NoBuffer
    {
      html, paragraph, listOrdered, listItems, quoteLines, codeLines := [], [], false, [], [], None;
    }

    /** What is open, when at most one buffer is. */
    function Open(): Buffer
      reads this
    {
      if codeLines.Some? then Fenced(codeLines.value)
      else if paragraph != [] then Running(Plain, paragraph)
      else if listItems != [] then Running(if listOrdered then Ordered else Unordered, listItems)
      else if quoteLines != [] then Running(Quote, quoteLines)
      else NoBuffer
    }

    /** At most one buffer is open. */
    predicate AtMostOneOpen()
      reads this
    {
      && (codeLines.Some? ==> paragraph == [] && listItems == [] && quoteLines == [])
      && (paragraph != [] ==> listItems == [] && quoteLines == [])
      && (listItems != [] ==> quoteLines == [])
    }

    method FlushParagraph()
      modifies `html, `paragraph
      ensures html == (if old(paragraph) == [] then old(html) else old(html) + [Paragraph(old(paragraph))]) && paragraph == []
    {
      if paragraph != [] {
        html, paragraph := html + [Paragraph(paragraph)], [];
      }
    }

    method FlushList()
      modifies `html, `listItems, `listOrdered
      ensures html == (if old(listItems) == [] then old(html) else old(html) + [List(old(listOrdered), old(listItems))]) && listItems == []
      ensures old(listItems) != [] || listOrdered == old(listOrdered)
    {
      if listItems != [] {
        html, listItems, listOrdered := html + [List(listOrdered, listItems)], [], false;
      }
    }

    method FlushQuote()
      modifies `html, `quoteLines
      ensures html == (if old(quoteLines) == [] then old(html) else old(html) + [BlockQuote(old(quoteLines))]) && quoteLines == []
    {
      if quoteLines != [] {
        html, quoteLines := html + [BlockQuote(quoteLines)], [];
      }
    }

    method FlushCode()
      modifies `html, `codeLines
      ensures html == (if old(codeLines).None? then old(html) else old(html) + [Code(old(codeLines).value)]) && codeLines == None
    {
      if codeLines.Some? {
        html, codeLines := html + [Code(codeLines.value)], None;
      }
    }

    method FlushText()
      requires AtMostOneOpen() && codeLines.None?
      modifies `html, `paragraph, `listItems, `listOrdered, `quoteLines
      ensures html == old(html) + Flushed(old(Open())) && Open() == NoBuffer && AtMostOneOpen()
    {
      FlushParagraph();
      FlushList();
      FlushQuote();
    }

    /** One line outside a table; `codeLines` open means the line is code unless it is a fence. */
    method Consume(lines: Document, index: nat)
      requires index < |lines| && AtMostOneOpen()
      requires codeLines.None? && !lines[index].fence ==> !IsTableStart(lines, index)
      modifies this
      ensures AtMostOneOpen()
      ensures (html, Open()) == StepLine(lines, index, old(html), old(Open()))
    {
      var line := lines[index];
      if line.fence {
        if codeLines.Some? {
          FlushCode();
        } else {
          FlushText();
          codeLines := Some([]);
        }
        return;
      }
      if codeLines.Some? {
        codeLines := Some(codeLines.value + [index]);
        return;
      }
      match line.shape {
        case Blank => FlushText();
        case Heading(level) =>
          FlushText();
          html := html + [Title(index, level)];
        case Quote => AddQuoteLine(index);
        case Plain => AddParagraphLine(index);
        case _ => AddListItem(line.shape.Ordered?, index);
      }
    }

    method AddQuoteLine(index: nat)
      requires AtMostOneOpen() && codeLines.None?
      modifies `html, `paragraph, `listItems, `listOrdered, `quoteLines
      ensures AtMostOneOpen() && (html, Open()) == Extend(Quote, index, old(html), old(Open()))
    {
      FlushParagraph();
      FlushList();
      assert [] + [index] == [index];
      quoteLines := quoteLines + [index];
    }

    method AddParagraphLine(index: nat)
      requires AtMostOneOpen() && codeLines.None?
      modifies `html, `paragraph, `listItems, `listOrdered, `quoteLines
      ensures AtMostOneOpen() && (html, Open()) == Extend(Plain, index, old(html), old(Open()))
    {
      FlushQuote();
      FlushList();
      assert [] + [index] == [index];
      paragraph := paragraph + [index];
    }

    method AddListItem(ordered: bool, index: nat)
      requires AtMostOneOpen() && codeLines.None?
      modifies `html, `paragraph, `listItems, `listOrdered, `quoteLines
      ensures AtMostOneOpen() && (html, Open()) == Extend(if ordered then Ordered else Unordered, index, old(html), old(Open()))
    {
      FlushParagraph();
      FlushQuote();
      if listItems != [] && listOrdered != ordered {
        FlushList();
      }
      listOrdered := ordered;
      assert [] + [index] == [index];
      listItems := listItems + [index];
    }

    /** `renderMarkdown`: refines the recursive specification. */
    method Render(lines: Document)
      requires html == [] && Open() == NoBuffer && AtMostOneOpen()
      modifies this
      ensures html == Blocks(lines, 0) && Open() == NoBuffer
    {
      var index := 0;
      while index < |lines|
        invariant 0 <= index <= |lines| && AtMostOneOpen()
        invariant Resumes(lines, index, Open())
        invariant html + Rest(lines, index, Open()) == Blocks(lines, 0)
      {
        if !lines[index].fence && codeLines.None? && IsTableStart(lines, index) {
          index := ConsumeTable(lines, index);
        } else {
          ConsumeLine(lines, index);
          index := index + 1;
        }
      }
      RestAtEnd(lines, Open());
      assert Blocks(lines, |lines|) == [];
      FlushAll();
    }

    /** A line outside a table keeps what was and is to be put out. */
    method ConsumeLine(lines: Document, index: nat)
      requires index < |lines| && AtMostOneOpen() && Resumes(lines, index, Open())
      requires codeLines.None? && !lines[index].fence ==> !IsTableStart(lines, index)
      modifies this
      ensures AtMostOneOpen() && Resumes(lines, index + 1, Open())
      ensures html + Rest(lines, index + 1, Open()) == old(html) + Rest(lines, index, old(Open()))
    {
      RestAtLine(lines, index, html, Open());
      Consume(lines, index);
    }

    method FlushAll()
      requires AtMostOneOpen()
      modifies this
      ensures html == old(html) + Flushed(old(Open())) && Open() == NoBuffer
    {
      FlushParagraph();
      FlushList();
      FlushQuote();
      FlushCode();
    }

    /** A whole table; the result is the line after it. */
    method ConsumeTable(lines: Document, index: nat) returns (next: nat)
      requires index < |lines| && AtMostOneOpen() && codeLines.None? && Resumes(lines, index, Open())
      requires !lines[index].fence && IsTableStart(lines, index)
      modifies this
      ensures AtMostOneOpen() && Open() == NoBuffer && index + 2 <= next <= |lines|
      ensures html + Blocks(lines, next) == old(html) + Rest(lines, index, old(Open()))
    {
      ghost var before, open := html, Open();
      RestAtTable(lines, index, open);
      FlushText();
      next := ScanTable(lines, index);
      Assoc(before, Flushed(open), [Table(Range(index, next))]);
      Assoc(before, Flushed(open) + [Table(Range(index, next))], Blocks(lines, next));
      html := html + [Table(Range(index, next))];
    }
  }

  // ---------------------------------------------------------------- the refinement

  datatype Buffer = NoBuffer | Running(shape: Shape, lines: seq<nat>) | Fenced(code: seq<nat>)

  function Flushed(open: Buffer): seq<Block> {
    match open
    case NoBuffer => []
    case Running(s, lines) => [RunBlock(s, lines)]
    case Fenced(code) => [Code(code)]
  }

  /** What one line that starts no table does to the output and the open buffer. */
  function StepLine(lines: Document, i: nat, html: seq<Block>, open: Buffer): (seq<Block>, Buffer)
    requires i < |lines|
  {
    if lines[i].fence then
      if open.Fenced? then (html + [Code(open.code)], NoBuffer) else (html + Flushed(open), Fenced([]))
    else if open.Fenced? then (html, Fenced(open.code + [i]))
    else
      match lines[i].shape
      case Blank => (html + Flushed(open), NoBuffer)
      case Heading(level) => (html + Flushed(open) + [Title(i, level)], NoBuffer)
      case s => Extend(s, i, html, open)
  }

  /** A line of a running block: it joins the open block of its kind or begins a new one. */
  function Extend(s: Shape, i: nat, html: seq<Block>, open: Buffer): (seq<Block>, Buffer) {
    if open.Running? && open.shape == s then (html, Running(s, open.lines + [i]))
    else (if open.NoBuffer? then html else html + Flushed(open), Running(s, [i]))
  }

  /** The open buffer holds exactly the lines before `i` back to where its block began. */
  predicate Resumes(lines: Document, i: nat, open: Buffer)
    requires i <= |lines|
  {
    match open
    case NoBuffer => true
    case Running(s, ls) => s in {Quote, Ordered, Unordered, Plain} && |ls| <= i && ls == Range(i - |ls|, i)
    case Fenced(ls) => |ls| <= i && ls == Range(i - |ls|, i)
  }

  /** The blocks still to come, the open one first. */
  function Rest(lines: Document, i: nat, open: Buffer): seq<Block>
    requires i <= |lines| && Resumes(lines, i, open)
  {
    match open
    case NoBuffer => Blocks(lines, i)
    case Running(s, ls) =>
      var end := RunEnd(lines, i, s);
      [RunBlock(s, ls + Range(i, end))] + Blocks(lines, end)
    case Fenced(ls) =>
      var close := FenceEnd(lines, i);
      [Code(ls + Range(i, close))] + Blocks(lines, if close < |lines| then close + 1 else close)
  }

  lemma RestAtTable(lines: Document, i: nat, open: Buffer)
    requires i < |lines| && Resumes(lines, i, open) && !open.Fenced? && !lines[i].fence && IsTableStart(lines, i)
    ensures Rest(lines, i, open) == Flushed(open) + [Table(Range(i, TableEnd(lines, i + 2, lines[i].cells)))] + Blocks(lines, TableEnd(lines, i + 2, lines[i].cells))
  {
    var end := TableEnd(lines, i + 2, lines[i].cells);
    BreakRun(lines, i, open);
    Assoc(Flushed(open), [Table(Range(i, end))], Blocks(lines, end));
  }

  lemma RestAtEnd(lines: Document, open: Buffer)
    requires Resumes(lines, |lines|, open)
    ensures Rest(lines, |lines|, open) == Flushed(open)
  {
    var n := |lines|;
    match open
    case NoBuffer =>
    case Running(s, ls) => assert ls + Range(n, n) == ls;
    case Fenced(ls) => assert ls + Range(n, n) == ls;
  }

  /** Consuming a line keeps "output so far plus blocks to come" the same. */
  lemma RestAtLine(lines: Document, i: nat, html: seq<Block>, open: Buffer)
    requires i < |lines| && Resumes(lines, i, open)
    requires !lines[i].fence && !open.Fenced? ==> !IsTableStart(lines, i)
    ensures var (html', open') := StepLine(lines, i, html, open);
            Resumes(lines, i + 1, open') && html' + Rest(lines, i + 1, open') == html + Rest(lines, i, open)
  {
    var line := lines[i];
    if open.Fenced? {
      RestInFence(lines, i, html, open.code);
    } else if line.fence {
      RestAtFence(lines, i, html, open);
    } else if line.shape.Blank? || line.shape.Heading? {
      RestAtBreak(lines, i, html, open);
    } else if open.Running? && open.shape == line.shape {
      RestInRun(lines, i, open.lines);
    } else {
      BreakRun(lines, i, open);
      RestAtRun(lines, i);
      Assoc(html, Flushed(open), Blocks(lines, i));
      assert html + [] == html;
    }
  }

  lemma RestAtBreak(lines: Document, i: nat, html: seq<Block>, open: Buffer)
    requires i < |lines| && Resumes(lines, i, open) && !open.Fenced? && !lines[i].fence && !IsTableStart(lines, i)
    requires lines[i].shape.Blank? || lines[i].shape.Heading?
    ensures var (html', open') := StepLine(lines, i, html, open);
            open' == NoBuffer && html' + Blocks(lines, i + 1) == html + Rest(lines, i, open)
  {
    BreakRun(lines, i, open);
    Assoc(html, Flushed(open), Blocks(lines, i));
    if lines[i].shape.Heading? {
      Assoc(html + Flushed(open), [Title(i, lines[i].shape.level)], Blocks(lines, i + 1));
    }
  }

  lemma Assoc(a: seq<Block>, b: seq<Block>, c: seq<Block>)
    ensures a + b + c == a + (b + c)
  {
  }

  lemma RestAtFence(lines: Document, i: nat, html: seq<Block>, open: Buffer)
    requires i < |lines| && Resumes(lines, i, open) && !open.Fenced? && lines[i].fence
    ensures Resumes(lines, i + 1, Fenced([]))
    ensures html + Flushed(open) + Rest(lines, i + 1, Fenced([])) == html + Rest(lines, i, open)
  {
    BreakRun(lines, i, open);
    RestAfterFence(lines, i);
    Assoc(html, Flushed(open), Blocks(lines, i));
  }

  lemma RestAfterFence(lines: Document, i: nat)
    requires i < |lines| && lines[i].fence
    ensures Resumes(lines, i + 1, Fenced([])) && Rest(lines, i + 1, Fenced([])) == Blocks(lines, i)
  {
    var close := FenceEnd(lines, i + 1);
    assert [] + Range(i + 1, close) == Range(i + 1, close);
    assert Range(i + 1, i + 1) == [];
  }

  lemma RestInRun(lines: Document, i: nat, ls: seq<nat>)
    requires i < |lines| && Continues(lines, i, lines[i].shape) && Resumes(lines, i, Running(lines[i].shape, ls))
    ensures Resumes(lines, i + 1, Running(lines[i].shape, ls + [i]))
    ensures Rest(lines, i + 1, Running(lines[i].shape, ls + [i])) == Rest(lines, i, Running(lines[i].shape, ls))
  {
    var end := RunEnd(lines, i + 1, lines[i].shape);
    assert ls + [i] == Range(i - |ls|, i + 1);
    assert ls + [i] + Range(i + 1, end) == ls + Range(i, end);
  }

  lemma RestAtRun(lines: Document, i: nat)
    requires i < |lines| && Continues(lines, i, lines[i].shape) && lines[i].shape in {Quote, Ordered, Unordered, Plain}
    ensures Resumes(lines, i + 1, Running(lines[i].shape, [i]))
    ensures Rest(lines, i + 1, Running(lines[i].shape, [i])) == Blocks(lines, i)
  {
    var end := RunEnd(lines, i + 1, lines[i].shape);
    assert [i] == Range(i, i + 1);
    assert [i] + Range(i + 1, end) == Range(i, end);
  }

  lemma RestInFence(lines: Document, i: nat, html: seq<Block>, code: seq<nat>)
    requires i < |lines| && Resumes(lines, i, Fenced(code))
    ensures var (html', open') := StepLine(lines, i, html, Fenced(code));
            Resumes(lines, i + 1, open') && html' + Rest(lines, i + 1, open') == html + Rest(lines, i, Fenced(code))
  {
    if lines[i].fence {
      assert code + Range(i, i) == code;
    } else {
      var close := FenceEnd(lines, i + 1);
      assert code + [i] == Range(i - |code|, i + 1);
      assert code + [i] + Range(i + 1, close) == code + Range(i, close);
    }
  }

  /** A line that does not continue the open run ends it. */
  lemma BreakRun(lines: Document, i: nat, open: Buffer)
    requires i < |lines| && Resumes(lines, i, open) && !open.Fenced?
    requires open.Running? ==> !Continues(lines, i, open.shape)
    ensures Rest(lines, i, open) == Flushed(open) + Blocks(lines, i)
  {
    if open.Running? {
      assert open.lines + Range(i, i) == open.lines;
    }
  }

  // ---------------------------------------------------------------- every line once

  function LinesOf(b: Block): seq<nat> {
    match b
    case Title(line, _) => [line]
    case _ => b.lines
  }

  function Consumed(blocks: seq<Block>): seq<nat> {
    if blocks == [] then [] else LinesOf(blocks[0]) + Consumed(blocks[1..])
  }

  /** `c` is strictly increasing, within the document from `i` on, and misses only blank lines and fences. */
  ghost predicate Covers(lines: Document, i: nat, c: seq<nat>) {
    && (forall k :: 0 <= k < |c| ==> i <= c[k] < |lines|)
    && (forall k, l :: 0 <= k < l < |c| ==> c[k] < c[l])
    && (forall j :: i <= j < |lines| && !lines[j].shape.Blank? && !lines[j].fence ==> j in c)
  }

  lemma CoverMore(lines: Document, i: nat, lo: nat, hi: nat, next: nat, c: seq<nat>)
    requires i <= lo <= hi <= next <= |lines| && Covers(lines, next, c)
    requires forall j :: i <= j < lo || hi <= j < next ==> lines[j].shape.Blank? || lines[j].fence
    ensures Covers(lines, i, Range(lo, hi) + c)
  {
    var all := Range(lo, hi) + c;
    forall j | i <= j < |lines| && !lines[j].shape.Blank? && !lines[j].fence ensures j in all {
      if lo <= j < hi {
        assert all[j - lo] == j;
      } else {
        assert j in c;
      }
    }
  }

  lemma ConsumedFirst(b: Block, rest: seq<Block>)
    ensures Consumed([b] + rest) == LinesOf(b) + Consumed(rest)
  {
    assert ([b] + rest)[1..] == rest;
  }

  /** Every line that is neither blank nor a fence is in exactly one block, once, and in document order. */
  lemma {:induction false} EveryLineOnce(lines: Document, i: nat)
    requires i <= |lines|
    ensures Covers(lines, i, Consumed(Blocks(lines, i)))
    decreases |lines| - i
  {
    if i < |lines| {
      var lo, hi, next := FirstBlock(lines, i);
      EveryLineOnce(lines, next);
      CoverMore(lines, i, lo, hi, next, Consumed(Blocks(lines, next)));
    }
  }

  /** The lines of the first block, and where the next one begins. */
  lemma FirstBlock(lines: Document, i: nat) returns (lo: nat, hi: nat, next: nat)
    requires i < |lines|
    ensures i <= lo <= hi <= next <= |lines| && i < next
    ensures forall j :: i <= j < lo || hi <= j < next ==> lines[j].shape.Blank? || lines[j].fence
    ensures Consumed(Blocks(lines, i)) == Range(lo, hi) + Consumed(Blocks(lines, next))
  {
    var line := lines[i];
    if line.fence {
      var close := FenceEnd(lines, i + 1);
      FenceEndsAtFence(lines, i + 1);
      lo, hi, next := i + 1, close, if close < |lines| then close + 1 else close;
      ConsumedFirst(Code(Range(lo, hi)), Blocks(lines, next));
    } else if IsTableStart(lines, i) {
      lo, hi := i, TableEnd(lines, i + 2, line.cells);
      next := hi;
      ConsumedFirst(Table(Range(lo, hi)), Blocks(lines, next));
    } else if line.shape.Blank? {
      lo, hi, next := i, i, i + 1;
      assert Range(lo, hi) + Consumed(Blocks(lines, next)) == Consumed(Blocks(lines, next));
    } else if line.shape.Heading? {
      lo, hi, next := i, i + 1, i + 1;
      assert Range(lo, hi) == [i];
      ConsumedFirst(Title(i, line.shape.level), Blocks(lines, next));
    } else {
      lo, hi := i, RunEnd(lines, i, line.shape);
      next := hi;
      ConsumedFirst(RunBlock(line.shape, Range(lo, hi)), Blocks(lines, next));
    }
  }

  lemma {:induction false} FenceEndsAtFence(lines: Document, i: nat)
    requires i <= |lines|
    ensures FenceEnd(lines, i) < |lines| ==> lines[FenceEnd(lines, i)].fence
    decreases |lines| - i
  {
    if i < |lines| && !lines[i].fence {
      FenceEndsAtFence(lines, i + 1);
    }
  }

  // ---------------------------------------------------------------- maximal runs

  /** What a block groups, if it is a run of lines of one kind. */
  function RunShape(b: Block): Option<Shape> {
    match b
    case Paragraph(_) => Some(Plain)
    case List(ordered, _) => Some(if ordered then Ordered else Unordered)
    case BlockQuote(_) => Some(Quote)
    case _ => None
  }

  lemma {:induction false} RunEndIsMaximal(lines: Document, i: nat, s: Shape)
    requires i <= |lines|
    ensures forall j :: i <= j < RunEnd(lines, i, s) ==> Continues(lines, j, s)
    ensures RunEnd(lines, i, s) < |lines| ==> !Continues(lines, RunEnd(lines, i, s), s)
    decreases |lines| - i
  {
    if i < |lines| && Continues(lines, i, s) {
      RunEndIsMaximal(lines, i + 1, s);
    }
  }

  /** The block that begins at line `i`, if one does, and where the others begin. */
  lemma NextBlock(lines: Document, i: nat) returns (head: seq<Block>, next: nat)
    requires i < |lines|
    ensures i < next <= |lines| && |head| <= 1 && Blocks(lines, i) == head + Blocks(lines, next)
    ensures head != [] && RunShape(head[0]).Some? ==>
              var s := RunShape(head[0]).value;
              Continues(lines, i, s) && next == RunEnd(lines, i, s) && LinesOf(head[0]) == Range(i, next)
  {
    var line := lines[i];
    if line.fence {
      var close := FenceEnd(lines, i + 1);
      head, next := [Code(Range(i + 1, close))], if close < |lines| then close + 1 else close;
    } else if IsTableStart(lines, i) {
      next := TableEnd(lines, i + 2, line.cells);
      head := [Table(Range(i, next))];
    } else if line.shape.Blank? {
      head, next := [], i + 1;
      assert head + Blocks(lines, next) == Blocks(lines, i);
    } else if line.shape.Heading? {
      head, next := [Title(i, line.shape.level)], i + 1;
    } else {
      NextRun(lines, i);
      next := RunEnd(lines, i, line.shape);
      head := [RunBlock(line.shape, Range(i, next))];
    }
  }

  lemma NextRun(lines: Document, i: nat)
    requires i < |lines| && Continues(lines, i, lines[i].shape) && !lines[i].shape.Blank? && !lines[i].shape.Heading?
    ensures var s := lines[i].shape;
            var end := RunEnd(lines, i, s);
            && i < end && Blocks(lines, i) == [RunBlock(s, Range(i, end))] + Blocks(lines, end)
            && RunShape(RunBlock(s, Range(i, end))) == Some(s) && LinesOf(RunBlock(s, Range(i, end))) == Range(i, end)
  {
  }

  /** A run block comes first only with lines of its kind, from `i` on. */
  lemma {:induction false} FirstRunBegins(lines: Document, i: nat)
    requires i <= |lines| && Blocks(lines, i) != [] && RunShape(Blocks(lines, i)[0]).Some?
    ensures var b := Blocks(lines, i)[0];
            LinesOf(b) != [] && i <= LinesOf(b)[0] < |lines| && Continues(lines, LinesOf(b)[0], RunShape(b).value)
    decreases |lines| - i
  {
    if i < |lines| {
      var head, next := NextBlock(lines, i);
      if head == [] {
        FirstRunBegins(lines, next);
      }
    }
  }

  /** Neighbouring runs of one kind have a line between them. */
  predicate Separated(blocks: seq<Block>) {
    forall k :: 0 <= k < |blocks| - 1 && RunShape(blocks[k]).Some? && RunShape(blocks[k]) == RunShape(blocks[k + 1]) ==>
      Apart(LinesOf(blocks[k]), LinesOf(blocks[k + 1]))
  }

  predicate Apart(a: seq<nat>, b: seq<nat>) {
    a != [] && b != [] && a[|a| - 1] + 1 < b[0]
  }

  /** Runs are maximal: of the blocks the renderer puts out, no two neighbours could be one. */
  lemma {:induction false} RunsAreMaximal(lines: Document, i: nat)
    requires i <= |lines|
    ensures Separated(Blocks(lines, i))
    decreases |lines| - i
  {
    if i < |lines| {
      var head, next := NextBlock(lines, i);
      RunsAreMaximal(lines, next);
      var blocks, rest := Blocks(lines, i), Blocks(lines, next);
      if head != [] && rest != [] && RunShape(head[0]).Some? && RunShape(head[0]) == RunShape(rest[0]) {
        FirstRunBegins(lines, next);
        RunEndIsMaximal(lines, i, RunShape(head[0]).value);
        assert Apart(LinesOf(head[0]), LinesOf(rest[0]));
      }
      forall k | 0 <= k < |blocks| - 1 && RunShape(blocks[k]).Some? && RunShape(blocks[k]) == RunShape(blocks[k + 1])
        ensures Apart(LinesOf(blocks[k]), LinesOf(blocks[k + 1]))
      {
        if k >= |head| {
          assert blocks[k] == rest[k - |head|] && blocks[k + 1] == rest[k - |head| + 1];
        }
      }
    }
  }

  // ---------------------------------------------------------------- every block is what it says

  /** Two lines with pipes and the same two or more cells, the second of them a divider. */
  predicate BeginsTable(lines: Document, i: nat) {
    && i + 1 < |lines| && lines[i].pipe && lines[i + 1].pipe && lines[i + 1].divider
    && lines[i].cells == lines[i + 1].cells >= 2
  }

  /** Lines `from` to `to` are all there is of the block: these lines and no others. */
  predicate Stretch(ls: seq<nat>, from: nat, to: nat) {
    && |ls| == to - from && (forall k :: 0 <= k < |ls| ==> ls[k] == from + k)
  }

  predicate TableIsRight(lines: Document, from: nat, to: nat) {
    && from + 2 <= to <= |lines| && !lines[from].fence && BeginsTable(lines, from)
    && (forall k :: from + 2 <= k < to ==> !lines[k].shape.Blank? && lines[k].pipe && lines[k].cells == lines[from].cells)
    && (to < |lines| ==> lines[to].shape.Blank? || !lines[to].pipe || lines[to].cells != lines[from].cells)
  }

  predicate CodeIsRight(lines: Document, from: nat, to: nat) {
    && 1 <= from <= to <= |lines| && lines[from - 1].fence
    && (forall k :: from <= k < to ==> !lines[k].fence)
    && (to < |lines| ==> lines[to].fence)
  }

  predicate RunIsRight(lines: Document, from: nat, to: nat, s: Shape) {
    && from < to <= |lines|
    && (forall k :: from <= k < to ==> !lines[k].fence && !BeginsTable(lines, k) && lines[k].shape == s)
    && (to < |lines| ==> lines[to].fence || BeginsTable(lines, to) || lines[to].shape != s)
  }

  /** The block is what its lines ask for, and it ends where they end. */
  ghost predicate IsRight(lines: Document, b: Block) {
    match b
    case Title(i, level) => i < |lines| && lines[i].shape == Heading(level) && !lines[i].fence && !BeginsTable(lines, i)
    case Table(ls) => exists from, to :: Stretch(ls, from, to) && TableIsRight(lines, from, to)
    case Code(ls) => exists from, to :: Stretch(ls, from, to) && CodeIsRight(lines, from, to)
    case Paragraph(ls) => exists from, to :: Stretch(ls, from, to) && RunIsRight(lines, from, to, Plain)
    case BlockQuote(ls) => exists from, to :: Stretch(ls, from, to) && RunIsRight(lines, from, to, Quote)
    case List(ordered, ls) => exists from, to :: Stretch(ls, from, to) && RunIsRight(lines, from, to, if ordered then Ordered else Unordered)
  }

  lemma {:induction false} FenceEndIsFirst(lines: Document, i: nat)
    requires i <= |lines|
    ensures forall k :: i <= k < FenceEnd(lines, i) ==> !lines[k].fence
    decreases |lines| - i
  {
    if i < |lines| && !lines[i].fence {
      FenceEndIsFirst(lines, i + 1);
    }
  }

  lemma {:induction false} TableEndIsFirst(lines: Document, i: nat, cells: nat)
    requires i <= |lines|
    ensures var end := TableEnd(lines, i, cells);
            && (forall k :: i <= k < end ==> !lines[k].shape.Blank? && lines[k].pipe && lines[k].cells == cells)
            && (end < |lines| ==> lines[end].shape.Blank? || !lines[end].pipe || lines[end].cells != cells)
    decreases |lines| - i
  {
    if i < |lines| && IsTableRow(lines[i], cells) {
      TableEndIsFirst(lines, i + 1, cells);
    }
  }

  lemma FenceIsRight(lines: Document, i: nat)
    requires i < |lines| && lines[i].fence
    ensures IsRight(lines, Code(Range(i + 1, FenceEnd(lines, i + 1))))
  {
    var close := FenceEnd(lines, i + 1);
    FenceEndIsFirst(lines, i + 1);
    FenceEndsAtFence(lines, i + 1);
    assert Stretch(Range(i + 1, close), i + 1, close) && CodeIsRight(lines, i + 1, close);
  }

  lemma TableIsTable(lines: Document, i: nat)
    requires i < |lines| && !lines[i].fence && IsTableStart(lines, i)
    ensures IsRight(lines, Table(Range(i, TableEnd(lines, i + 2, lines[i].cells))))
  {
    var end := TableEnd(lines, i + 2, lines[i].cells);
    TableEndIsFirst(lines, i + 2, lines[i].cells);
    assert Stretch(Range(i, end), i, end) && TableIsRight(lines, i, end);
  }

  lemma RunIsRun(lines: Document, i: nat, s: Shape)
    requires i < |lines| && Continues(lines, i, s) && s in {Quote, Ordered, Unordered, Plain}
    ensures IsRight(lines, RunBlock(s, Range(i, RunEnd(lines, i, s))))
  {
    var end := RunEnd(lines, i, s);
    RunEndIsMaximal(lines, i, s);
    forall k | i <= k < end ensures !lines[k].fence && !BeginsTable(lines, k) && lines[k].shape == s {
      assert Continues(lines, k, s);
    }
    if end < |lines| {
      assert !Continues(lines, end, s);
    }
    assert Stretch(Range(i, end), i, end) && RunIsRight(lines, i, end, s);
  }

  /** The block that begins at line `i`, if one does, is right. */
  lemma FirstIsRight(lines: Document, i: nat) returns (head: seq<Block>, next: nat)
    requires i < |lines|
    ensures i < next <= |lines| && Blocks(lines, i) == head + Blocks(lines, next)
    ensures forall b :: b in head ==> IsRight(lines, b)
  {
    var line := lines[i];
    if line.fence {
      var close := FenceEnd(lines, i + 1);
      FenceIsRight(lines, i);
      head, next := [Code(Range(i + 1, close))], if close < |lines| then close + 1 else close;
    } else if IsTableStart(lines, i) {
      next := TableEnd(lines, i + 2, line.cells);
      TableIsTable(lines, i);
      head := [Table(Range(i, next))];
    } else if line.shape.Blank? {
      head, next := [], i + 1;
      assert head + Blocks(lines, next) == Blocks(lines, i);
    } else if line.shape.Heading? {
      head, next := [Title(i, line.shape.level)], i + 1;
    } else {
      NextRun(lines, i);
      next := RunEnd(lines, i, line.shape);
      RunIsRun(lines, i, line.shape);
      head := [RunBlock(line.shape, Range(i, next))];
    }
  }

  /** Every block of the output is what its lines ask for. */
  lemma {:induction false} BlocksAreRight(lines: Document, i: nat)
    requires i <= |lines|
    ensures forall b :: b in Blocks(lines, i) ==> IsRight(lines, b)
    decreases |lines| - i
  {
    if i < |lines| {
      var head, next := FirstIsRight(lines, i);
      BlocksAreRight(lines, next);
    }
  }
}

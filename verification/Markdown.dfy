/**
 Rendering-hint extraction: a stack machine over the parser's event stream.
 The parser itself (pulldown-cmark) is outside the model; it enters only as the
 claim that an event stream is the traversal of a tag tree (`MarkdownTree`).
 */
module Markdown {
  import opened Types
  import opened Sorting

  /** Maximum number of spans to return per message. */
  const MAX_SPANS_PER_MESSAGE := 100

  datatype CodeBlockKind = Indented | Fenced(lang: string)

  /** Tags of the event stream; `Untracked` stands for every tag without a context (paragraphs, tables, images, ...). */
  datatype Tag =
    | Strong | Emphasis | Strikethrough
    | Link(destUrl: string)
    | CodeBlock(kind: CodeBlockKind)
    | Heading(level: nat)
    | BlockQuote
    | List(firstNumber: Option<nat>)
    | Item
    | Untracked(name: string)

  datatype TagEnd =
    | EndStrong | EndEmphasis | EndStrikethrough | EndLink | EndCodeBlock
    | EndHeading(level: nat) | EndBlockQuote | EndList(ordered: bool) | EndItem
    | EndUntracked(name: string)

  datatype Event = Start(tag: Tag) | End(tagEnd: TagEnd) | Code | Other

  datatype Range = Range(start: nat, end: nat)

  datatype RangedEvent = RangedEvent(event: Event, range: Range)

  datatype ContextType =
    | StrongContext | EmphasisContext | StrikethroughContext
    | LinkContext(url: string)
    | CodeBlockContext(language: Option<string>)
    | HeadingContext(level: nat)
    | BlockQuoteContext
    | ListContext(ordered: bool)
    | ItemContext(ordered: bool)

  datatype SpanType =
    | Bold | Italic | InlineCode
    | FencedCode(language: Option<string>)
    | Hyperlink(url: string)
    | StruckOut
    | HeadingSpan(level: nat)
    | Quote
    | ListItem(ordered: bool)

  datatype MarkdownSpan = MarkdownSpan(start: nat, end: nat, spanType: SpanType)

  datatype RenderingHints = RenderingHints(spans: seq<MarkdownSpan>, hasFormatting: bool)

  datatype OpenContext = OpenContext(start: nat, context: ContextType)

  function TagToContext(tag: Tag): Option<ContextType> {
    match tag
    case Strong => Some(StrongContext)
    case Emphasis => Some(EmphasisContext)
    case Strikethrough => Some(StrikethroughContext)
    case Link(url) => Some(LinkContext(url))
    case CodeBlock(Fenced(lang)) => Some(CodeBlockContext(if lang != "" then Some(lang) else None))
    case CodeBlock(Indented) => Some(CodeBlockContext(None))
    case Heading(level) => Some(HeadingContext(level))
    case BlockQuote => Some(BlockQuoteContext)
    case List(firstNumber) => Some(ListContext(firstNumber.Some?))
    case Item => Some(ItemContext(false))
    case Untracked(_) => None
  }

  function ToSpanType(context: ContextType): Option<SpanType> {
    match context
    case StrongContext => Some(Bold)
    case EmphasisContext => Some(Italic)
    case StrikethroughContext => Some(StruckOut)
    case LinkContext(url) => Some(Hyperlink(url))
    case CodeBlockContext(language) => Some(FencedCode(language))
    case HeadingContext(level) => Some(HeadingSpan(level))
    case BlockQuoteContext => Some(Quote)
    case ItemContext(ordered) => Some(ListItem(ordered))
    case ListContext(_) => None
  }

  predicate Matches(context: ContextType, tagEnd: TagEnd) {
    match (context, tagEnd)
    case (StrongContext, EndStrong) => true
    case (EmphasisContext, EndEmphasis) => true
    case (StrikethroughContext, EndStrikethrough) => true
    case (LinkContext(_), EndLink) => true
    case (CodeBlockContext(_), EndCodeBlock) => true
    case (HeadingContext(_), EndHeading(_)) => true
    case (BlockQuoteContext, EndBlockQuote) => true
    case (ListContext(_), EndList(_)) => true
    case (ItemContext(_), EndItem) => true
    case _ => false
  }

  /** Where the topmost matching context sits: the one `pop_matching_context` removes. */
  ghost predicate IsTopmostMatch(stack: seq<OpenContext>, tagEnd: TagEnd, i: nat) {
    && i < |stack|
    && Matches(stack[i].context, tagEnd)
    && forall j :: i < j < |stack| ==> !Matches(stack[j].context, tagEnd)
  }

  function TopmostMatch(stack: seq<OpenContext>, tagEnd: TagEnd): (r: Option<nat>)
    ensures r.Some? ==> IsTopmostMatch(stack, tagEnd, r.value)
    ensures r.None? ==> forall j :: 0 <= j < |stack| ==> !Matches(stack[j].context, tagEnd)
  {
    if stack == [] then None
    else if Matches(stack[|stack| - 1].context, tagEnd) then Some(|stack| - 1)
    else TopmostMatch(stack[..|stack| - 1], tagEnd)
  }

  function RemoveAt<T>(s: seq<T>, i: nat): seq<T>
    requires i < |s|
  {
    s[..i] + s[i + 1..]
  }

  method PopMatchingContext(stack: seq<OpenContext>, tagEnd: TagEnd)
      returns (popped: Option<OpenContext>, rest: seq<OpenContext>)
    ensures match TopmostMatch(stack, tagEnd)
            case Some(i) => popped == Some(stack[i]) && rest == RemoveAt(stack, i)
            case None => popped == None && rest == stack
  {
    var i := |stack|;
    while i > 0
      invariant 0 <= i <= |stack|
      invariant forall j :: i <= j < |stack| ==> !Matches(stack[j].context, tagEnd)
    {
      i := i - 1;
      if Matches(stack[i].context, tagEnd) {
        return Some(stack[i]), RemoveAt(stack, i);
      }
    }
    return None, stack;
  }

  /** The two vectors `parse_markdown` grows. */
  datatype Machine = Machine(spans: seq<MarkdownSpan>, stack: seq<OpenContext>)

  function EndStep(m: Machine, tagEnd: TagEnd, end: nat): Machine {
    match TopmostMatch(m.stack, tagEnd)
    case None => m
    case Some(i) =>
      var popped := m.(stack := RemoveAt(m.stack, i));
      match ToSpanType(m.stack[i].context)
      case Some(spanType) => popped.(spans := m.spans + [MarkdownSpan(m.stack[i].start, end, spanType)])
      case None => popped
  }

  function Step(m: Machine, e: RangedEvent): Machine {
    match e.event
    case Start(tag) =>
      (match TagToContext(tag)
       case Some(context) => m.(stack := m.stack + [OpenContext(e.range.start, context)])
       case None => m)
    case End(tagEnd) => EndStep(m, tagEnd, e.range.end)
    case Code => m.(spans := m.spans + [MarkdownSpan(e.range.start, e.range.end, InlineCode)])
    case Other => m
  }

  /** The loop: stop at the end of the stream or as soon as the span limit is reached. */
  function Run(m: Machine, events: seq<RangedEvent>): Machine
    decreases |events|
  {
    if events == [] || |m.spans| >= MAX_SPANS_PER_MESSAGE then m
    else Run(Step(m, events[0]), events[1..])
  }

  const INITIAL := Machine([], [])

  function StartOf(span: MarkdownSpan): int {
    span.start
  }

  function Hints(spans: seq<MarkdownSpan>): RenderingHints {
    RenderingHints(SortByKey(spans, StartOf), spans != [])
  }

  /** The spans that start at `start`, in order. */
  function StartingAt(spans: seq<MarkdownSpan>, start: nat): seq<MarkdownSpan> {
    if spans == [] then []
    else (if spans[0].start == start then [spans[0]] else []) + StartingAt(spans[1..], start)
  }

  /** The same spans by increasing start; those with the same start stay in the order they had. */
  ghost predicate ArrangedByStart(arranged: seq<MarkdownSpan>, spans: seq<MarkdownSpan>) {
    && multiset(arranged) == multiset(spans)
    && (forall i, j :: 0 <= i < j < |arranged| ==> arranged[i].start <= arranged[j].start)
    && forall start :: StartingAt(arranged, start) == StartingAt(spans, start)
  }

  lemma {:induction false} StartingAtIsWithKey(spans: seq<MarkdownSpan>, start: nat)
    ensures StartingAt(spans, start) == WithKey(spans, StartOf, start)
  {
    if spans != [] {
      StartingAtIsWithKey(spans[1..], start);
    }
  }

  lemma SortingArranges(spans: seq<MarkdownSpan>)
    ensures ArrangedByStart(SortByKey(spans, StartOf), spans)
  {
    var arranged := SortByKey(spans, StartOf);
    SortIsStable(spans, StartOf);
    forall i, j | 0 <= i < j < |arranged| ensures arranged[i].start <= arranged[j].start {
      assert StartOf(arranged[i]) <= StartOf(arranged[j]);
    }
    forall start ensures StartingAt(arranged, start) == StartingAt(spans, start) {
      StartingAtIsWithKey(arranged, start);
      StartingAtIsWithKey(spans, start);
    }
  }

  method ParseMarkdown(events: seq<RangedEvent>) returns (hints: RenderingHints)
    ensures hints == Hints(Run(INITIAL, events).spans)
    ensures ArrangedByStart(hints.spans, Run(INITIAL, events).spans)
    ensures forall i, j :: 0 <= i < j < |hints.spans| ==> hints.spans[i].start <= hints.spans[j].start
    ensures hints.hasFormatting <==> hints.spans != []
  {
    var spans: seq<MarkdownSpan> := [];
    var stack: seq<OpenContext> := [];
    var i := 0;
    while i < |events|
      invariant 0 <= i <= |events|
      invariant Run(INITIAL, events) == Run(Machine(spans, stack), events[i..])
    {
      if |spans| >= MAX_SPANS_PER_MESSAGE {
        break;
      }
      var range := events[i].range;
      ghost var before := Machine(spans, stack);
      match events[i].event {
        case Start(tag) =>
          var context := TagToContext(tag);
          if context.Some? {
            stack := stack + [OpenContext(range.start, context.value)];
          }
        case End(tagEnd) =>
          var popped;
          popped, stack := PopMatchingContext(stack, tagEnd);
          if popped.Some? {
            var spanType := ToSpanType(popped.value.context);
            if spanType.Some? {
              spans := spans + [MarkdownSpan(popped.value.start, range.end, spanType.value)];
            }
          }
        case Code =>
          spans := spans + [MarkdownSpan(range.start, range.end, InlineCode)];
        case Other =>
      }
      assert Machine(spans, stack) == Step(before, events[i]);
      assert events[i..][1..] == events[i + 1..];
      i := i + 1;
    }
    SortKeepsElements(spans, StartOf);
    SortingArranges(spans);
    return RenderingHints(SortByKey(spans, StartOf), spans != []);
  }
}

/** What the extraction means: the spans of a tag tree. */
module MarkdownTree {
  import opened Types
  import opened Sorting
  import opened Markdown

  /**
   A tag tree, as its first node followed by its later siblings. `open` and `close`
   are the ranges the parser attaches to the start and end events of an element.
   */
  datatype Doc =
    | Empty
    | Text(range: Range, rest: Doc)
    | CodeSpan(range: Range, rest: Doc)
    | Element(tag: Tag, open: Range, close: Range, children: Doc, rest: Doc)

  function EndOf(tag: Tag): TagEnd {
    match tag
    case Strong => EndStrong
    case Emphasis => EndEmphasis
    case Strikethrough => EndStrikethrough
    case Link(_) => EndLink
    case CodeBlock(_) => EndCodeBlock
    case Heading(level) => EndHeading(level)
    case BlockQuote => EndBlockQuote
    case List(firstNumber) => EndList(firstNumber.Some?)
    case Item => EndItem
    case Untracked(name) => EndUntracked(name)
  }

  /** The event stream of a tree: start, contents, end. */
  function Events(doc: Doc): seq<RangedEvent> {
    match doc
    case Empty => []
    case Text(range, rest) => [RangedEvent(Other, range)] + Events(rest)
    case CodeSpan(range, rest) => [RangedEvent(Code, range)] + Events(rest)
    case Element(tag, open, close, children, rest) =>
      [RangedEvent(Start(tag), open)] + (Events(children) + ([RangedEvent(End(EndOf(tag)), close)] + Events(rest)))
  }

  /** The span type a tag stands for: list containers and untracked tags have none. */
  function SpanTypeOf(tag: Tag): Option<SpanType> {
    match tag
    case Strong => Some(Bold)
    case Emphasis => Some(Italic)
    case Strikethrough => Some(StruckOut)
    case Link(url) => Some(Hyperlink(url))
    case CodeBlock(kind) => Some(FencedCode(if kind.Fenced? && kind.lang != "" then Some(kind.lang) else None))
    case Heading(level) => Some(HeadingSpan(level))
    case BlockQuote => Some(Quote)
    case Item => Some(ListItem(false))
    case List(_) => None
    case Untracked(_) => None
  }

  function OwnSpan(tag: Tag, open: Range, close: Range): seq<MarkdownSpan> {
    match SpanTypeOf(tag)
    case Some(spanType) => [MarkdownSpan(open.start, close.end, spanType)]
    case None => []
  }

  /** Post-order list of the span-producing nodes. */
  function PostOrder(doc: Doc): seq<MarkdownSpan> {
    match doc
    case Empty => []
    case Text(_, rest) => PostOrder(rest)
    case CodeSpan(range, rest) => [MarkdownSpan(range.start, range.end, InlineCode)] + PostOrder(rest)
    case Element(tag, open, close, children, rest) =>
      PostOrder(children) + OwnSpan(tag, open, close) + PostOrder(rest)
  }

  /** Every end event of a tracked tag that the machine processes removes the top of the stack. */
  ghost predicate PopsOnlyTop(m: Machine, events: seq<RangedEvent>)
    decreases |events|
  {
    events == [] || |m.spans| >= MAX_SPANS_PER_MESSAGE
    || (PopsTop(m.stack, events[0].event) && PopsOnlyTop(Step(m, events[0]), events[1..]))
  }

  ghost predicate PopsTop(stack: seq<OpenContext>, event: Event) {
    event.End? && !event.tagEnd.EndUntracked? ==>
      stack != [] && TopmostMatch(stack, event.tagEnd) == Some(|stack| - 1)
  }

  lemma {:induction false} UntrackedMatchesNothing(stack: seq<OpenContext>, name: string)
    ensures TopmostMatch(stack, EndUntracked(name)) == None
  {
    if stack != [] {
      UntrackedMatchesNothing(stack[..|stack| - 1], name);
    }
  }

  /** Closing a tag, with the stack as opening it left it, restores the stack and adds the tag's own span. */
  lemma CloseUndoesOpen(m: Machine, tag: Tag, open: Range, close: Range, inner: seq<MarkdownSpan>)
    ensures
      var entered := Step(m, RangedEvent(Start(tag), open));
      && Step(entered.(spans := inner), RangedEvent(End(EndOf(tag)), close))
        == Machine(inner + OwnSpan(tag, open, close), m.stack)
      && PopsTop(entered.stack, End(EndOf(tag)))
  {
    if tag.Untracked? {
      UntrackedMatchesNothing(m.stack, tag.name);
    } else {
      var stack := Step(m, RangedEvent(Start(tag), open)).stack;
      assert Matches(stack[|m.stack|].context, EndOf(tag));
      assert TopmostMatch(stack, EndOf(tag)) == Some(|m.stack|);
      assert RemoveAt(stack, |m.stack|) == m.stack;
    }
  }

  /** What running over the events of `doc` does, whatever follows them. */
  ghost predicate RunsOver(m: Machine, doc: Doc, tail: seq<RangedEvent>) {
    RunsTo(m, Events(doc) + tail, Machine(m.spans + PostOrder(doc), m.stack), tail)
  }

  /** From `m`, `events` brings the machine to `m'` with `tail` to go, or to the span limit on the way. */
  ghost predicate RunsTo(m: Machine, events: seq<RangedEvent>, m': Machine, tail: seq<RangedEvent>) {
    if |m'.spans| < MAX_SPANS_PER_MESSAGE
    then Run(m, events) == Run(m', tail) && (PopsOnlyTop(m', tail) ==> PopsOnlyTop(m, events))
    else Run(m, events).spans == m'.spans[..MAX_SPANS_PER_MESSAGE] && PopsOnlyTop(m, events)
  }

  lemma RunsToStep(m: Machine, e: RangedEvent, events: seq<RangedEvent>, m': Machine, tail: seq<RangedEvent>)
    requires |m.spans| < MAX_SPANS_PER_MESSAGE && PopsTop(m.stack, e.event)
    requires RunsTo(Step(m, e), events, m', tail)
    ensures RunsTo(m, [e] + events, m', tail)
  {
    assert ([e] + events)[1..] == events;
    assert ([e] + events)[0] == e;
  }

  lemma RunsToThen(m: Machine, events: seq<RangedEvent>, m1: Machine, mid: seq<RangedEvent>, m2: Machine,
                   tail: seq<RangedEvent>)
    requires RunsTo(m, events, m1, mid)
    requires m1.spans <= m2.spans
    requires |m1.spans| < MAX_SPANS_PER_MESSAGE ==> RunsTo(m1, mid, m2, tail)
    ensures RunsTo(m, events, m2, tail)
  {
  }

  /** Running over a whole tree appends its post-order spans, up to the limit, and leaves the stack alone. */
  lemma {:induction false} RunOverTree(m: Machine, doc: Doc, tail: seq<RangedEvent>)
    requires |m.spans| <= MAX_SPANS_PER_MESSAGE
    ensures RunsOver(m, doc, tail)
    decreases doc, 1
  {
    if |m.spans| == MAX_SPANS_PER_MESSAGE {
      return;
    }
    match doc {
      case Empty =>
        assert Events(doc) + tail == tail;
        assert m.spans + PostOrder(doc) == m.spans;
      case Text(range, rest) =>
        var e := RangedEvent(Other, range);
        RunOverTree(m, rest, tail);
        assert Events(doc) + tail == [e] + (Events(rest) + tail);
        RunsToStep(m, e, Events(rest) + tail, Machine(m.spans + PostOrder(doc), m.stack), tail);
      case CodeSpan(range, rest) =>
        var e := RangedEvent(Code, range);
        RunOverTree(Step(m, e), rest, tail);
        assert Events(doc) + tail == [e] + (Events(rest) + tail);
        assert Step(m, e).spans + PostOrder(rest) == m.spans + PostOrder(doc);
        RunsToStep(m, e, Events(rest) + tail, Machine(m.spans + PostOrder(doc), m.stack), tail);
      case Element(_, _, _, _, _) =>
        RunOverElement(m, doc, tail);
    }
  }

  lemma Reassociate<T>(a: seq<T>, b: seq<T>, c: seq<T>, d: seq<T>)
    ensures a + b + c + d == a + (b + c + d)
  {
  }

  lemma PushTail<T>(a: seq<T>, b: seq<T>, c: seq<T>, d: seq<T>, e: seq<T>)
    ensures a + (b + (c + d)) + e == a + (b + (c + (d + e)))
  {
  }

  lemma RunOverElement(m: Machine, doc: Doc, tail: seq<RangedEvent>)
    requires doc.Element? && |m.spans| < MAX_SPANS_PER_MESSAGE
    ensures RunsOver(m, doc, tail)
    decreases doc, 0
  {
    var Element(tag, open, close, children, rest) := doc;
    var opening, closing := RangedEvent(Start(tag), open), RangedEvent(End(EndOf(tag)), close);
    var afterChildren := [closing] + (Events(rest) + tail);
    var entered := Step(m, opening);
    var inner := entered.(spans := m.spans + PostOrder(children));
    var closed := Machine(inner.spans + OwnSpan(tag, open, close), m.stack);
    var final := Machine(closed.spans + PostOrder(rest), m.stack);

    assert RunsTo(entered, Events(children) + afterChildren, inner, afterChildren) by {
      RunOverTree(entered, children, afterChildren);
    }
    assert |inner.spans| < MAX_SPANS_PER_MESSAGE ==> RunsTo(inner, afterChildren, final, tail) by {
      if |inner.spans| < MAX_SPANS_PER_MESSAGE {
        CloseUndoesOpen(m, tag, open, close, inner.spans);
        RunOverClose(inner, closing, closed, rest, tail);
      }
    }
    RunsToThen(entered, Events(children) + afterChildren, inner, afterChildren, final, tail);
    RunsToStep(m, opening, Events(children) + afterChildren, final, tail);
    Reassociate(m.spans, PostOrder(children), OwnSpan(tag, open, close), PostOrder(rest));
    PushTail([opening], Events(children), [closing], Events(rest), tail);
  }

  lemma RunOverClose(inner: Machine, closing: RangedEvent, closed: Machine, rest: Doc, tail: seq<RangedEvent>)
    requires Step(inner, closing) == closed && PopsTop(inner.stack, closing.event)
    requires |inner.spans| < MAX_SPANS_PER_MESSAGE && |closed.spans| <= MAX_SPANS_PER_MESSAGE
    ensures RunsTo(inner, [closing] + (Events(rest) + tail),
                   Machine(closed.spans + PostOrder(rest), closed.stack), tail)
    decreases rest, 2
  {
    RunOverTree(closed, rest, tail);
    RunsToStep(inner, closing, Events(rest) + tail, Machine(closed.spans + PostOrder(rest), closed.stack), tail);
  }

  lemma RunCollectsPostOrder(doc: Doc)
    ensures Run(INITIAL, Events(doc)).spans == Take(PostOrder(doc), MAX_SPANS_PER_MESSAGE)
    ensures PopsOnlyTop(INITIAL, Events(doc))
  {
    RunOverTree(INITIAL, doc, []);
    assert Events(doc) + [] == Events(doc);
    assert INITIAL.spans + PostOrder(doc) == PostOrder(doc);
  }

  /**
   The stack loop computes the traversal of the tree: the first hundred entries of the
   post-order list of span-producing nodes, stably sorted by start. On the way it only
   ever removes the top of its stack.
   */
  lemma ParseExtractsPostOrder(doc: Doc)
    ensures Run(INITIAL, Events(doc)).spans == Take(PostOrder(doc), MAX_SPANS_PER_MESSAGE)
    ensures StableSortOf(Hints(Run(INITIAL, Events(doc)).spans).spans, Take(PostOrder(doc), MAX_SPANS_PER_MESSAGE),
                         StartOf)
    ensures ArrangedByStart(Hints(Run(INITIAL, Events(doc)).spans).spans, Take(PostOrder(doc), MAX_SPANS_PER_MESSAGE))
    ensures PopsOnlyTop(INITIAL, Events(doc))
  {
    RunCollectsPostOrder(doc);
    SortIsStable(Take(PostOrder(doc), MAX_SPANS_PER_MESSAGE), StartOf);
    SortingArranges(Take(PostOrder(doc), MAX_SPANS_PER_MESSAGE));
  }

  /** The ranges of `doc` lie in `lo..hi`, children within their parent and siblings one after the other. */
  predicate WellNested(doc: Doc, lo: nat, hi: nat) {
    match doc
    case Empty => true
    case Text(_, rest) => WellNested(rest, lo, hi)
    case CodeSpan(range, rest) => lo <= range.start <= range.end <= hi && WellNested(rest, range.end, hi)
    case Element(_, open, close, children, rest) =>
      && lo <= open.start <= close.end <= hi
      && WellNested(children, open.start, close.end)
      && WellNested(rest, close.end, hi)
  }

  predicate Contains(a: MarkdownSpan, b: MarkdownSpan) {
    a.start <= b.start && b.end <= a.end
  }

  /** Two spans are disjoint or one contains the other. */
  predicate Laminar(a: MarkdownSpan, b: MarkdownSpan) {
    a.end <= b.start || b.end <= a.start || Contains(a, b) || Contains(b, a)
  }

  predicate Within(a: MarkdownSpan, lo: nat, hi: nat) {
    lo <= a.start <= a.end <= hi
  }

  lemma {:induction false} PostOrderIsLaminar(doc: Doc, lo: nat, hi: nat)
    requires WellNested(doc, lo, hi)
    ensures forall a :: a in PostOrder(doc) ==> Within(a, lo, hi)
    ensures forall a, b :: a in PostOrder(doc) && b in PostOrder(doc) ==> Laminar(a, b)
  {
    match doc {
      case Empty =>
      case Text(_, rest) => PostOrderIsLaminar(rest, lo, hi);
      case CodeSpan(range, rest) => PostOrderIsLaminar(rest, range.end, hi);
      case Element(_, open, close, children, rest) =>
        PostOrderIsLaminar(children, open.start, close.end);
        PostOrderIsLaminar(rest, close.end, hi);
    }
  }

  /** The hints of the first hundred of `all`: bounded, sorted, none of the hundred lost, invented or repeated. */
  lemma HintsOfSpans(all: seq<MarkdownSpan>)
    ensures
      var hints := Hints(Take(all, MAX_SPANS_PER_MESSAGE));
      && |hints.spans| == Min(|all|, 100)
      && ArrangedByStart(hints.spans, Take(all, 100))
      && SortedByKey(hints.spans, StartOf)
      && multiset(hints.spans) == multiset(Take(all, MAX_SPANS_PER_MESSAGE))
      && (forall a :: a in hints.spans ==> a in all)
      && (hints.hasFormatting <==> all != [])
  {
    var taken := Take(all, MAX_SPANS_PER_MESSAGE);
    SortKeepsElements(taken, StartOf);
    SortingArranges(taken);
    assert forall a :: a in taken ==> a in all;
    SortIsStable(taken, StartOf);
  }

  /** What a client may rely on when the parser's ranges nest as its tags do. */
  lemma HintsAreLaminar(doc: Doc, lo: nat, hi: nat)
    requires WellNested(doc, lo, hi)
    ensures
      var hints := Hints(Run(INITIAL, Events(doc)).spans);
      && |hints.spans| == Min(|PostOrder(doc)|, 100)
      && ArrangedByStart(hints.spans, Take(PostOrder(doc), 100))
      && (forall i, j :: 0 <= i < j < |hints.spans| ==> hints.spans[i].start <= hints.spans[j].start)
      && SortedByKey(hints.spans, StartOf)
      && (forall a :: a in hints.spans ==> Within(a, lo, hi))
      && (forall a, b :: a in hints.spans && b in hints.spans ==> Laminar(a, b))
      && multiset(hints.spans) == multiset(Take(PostOrder(doc), MAX_SPANS_PER_MESSAGE))
      && (hints.hasFormatting <==> PostOrder(doc) != [])
  {
    var all := PostOrder(doc);
    assert Run(INITIAL, Events(doc)).spans == Take(all, MAX_SPANS_PER_MESSAGE) by {
      RunCollectsPostOrder(doc);
    }
    HintsOfSpans(all);
    PostOrderIsLaminar(doc, lo, hi);
  }

  // ---- The flag of list items.

  /** The span's own type, with the flag its hint is documented to carry: whether the enclosing list is ordered. */
  function DocumentedSpan(tag: Tag, open: Range, close: Range, inOrdered: bool): seq<MarkdownSpan> {
    if tag.Item? then [MarkdownSpan(open.start, close.end, ListItem(inOrdered))] else OwnSpan(tag, open, close)
  }

  /** Post-order list of the span-producing nodes, each item marked by the nearest list around it. */
  function Documented(doc: Doc, inOrdered: bool): seq<MarkdownSpan> {
    match doc
    case Empty => []
    case Text(_, rest) => Documented(rest, inOrdered)
    case CodeSpan(range, rest) => [MarkdownSpan(range.start, range.end, InlineCode)] + Documented(rest, inOrdered)
    case Element(tag, open, close, children, rest) =>
      Documented(children, if tag.List? then tag.firstNumber.Some? else inOrdered)
      + DocumentedSpan(tag, open, close, inOrdered) + Documented(rest, inOrdered)
  }

  predicate OrderedItem(span: MarkdownSpan) {
    span.spanType == ListItem(true)
  }

  /** Some item of the tree belongs to an ordered list. */
  predicate HasOrderedItem(doc: Doc, inOrdered: bool) {
    match doc
    case Empty => false
    case Text(_, rest) => HasOrderedItem(rest, inOrdered)
    case CodeSpan(_, rest) => HasOrderedItem(rest, inOrdered)
    case Element(tag, _, _, children, rest) =>
      || (tag.Item? && inOrdered)
      || HasOrderedItem(children, if tag.List? then tag.firstNumber.Some? else inOrdered)
      || HasOrderedItem(rest, inOrdered)
  }

  /** Entry by entry the traversal is the documented one, but for the flag of ordered items. */
  ghost predicate SameButForFlags(actual: seq<MarkdownSpan>, documented: seq<MarkdownSpan>) {
    && |actual| == |documented|
    && forall i :: 0 <= i < |actual| ==>
         actual[i] == if OrderedItem(documented[i]) then documented[i].(spanType := ListItem(false)) else documented[i]
  }

  lemma SameAppend(a: seq<MarkdownSpan>, b: seq<MarkdownSpan>, c: seq<MarkdownSpan>, d: seq<MarkdownSpan>)
    requires SameButForFlags(a, b) && SameButForFlags(c, d)
    ensures SameButForFlags(a + c, b + d)
  {
  }

  lemma {:induction false} OnlyFlagsDiffer(doc: Doc, inOrdered: bool)
    ensures SameButForFlags(PostOrder(doc), Documented(doc, inOrdered))
  {
    match doc {
      case Empty =>
      case Text(_, rest) => OnlyFlagsDiffer(rest, inOrdered);
      case CodeSpan(range, rest) =>
        var own := [MarkdownSpan(range.start, range.end, InlineCode)];
        OnlyFlagsDiffer(rest, inOrdered);
        SameAppend(own, own, PostOrder(rest), Documented(rest, inOrdered));
      case Element(tag, open, close, children, rest) =>
        var inner := if tag.List? then tag.firstNumber.Some? else inOrdered;
        OnlyFlagsDiffer(children, inner);
        OnlyFlagsDiffer(rest, inOrdered);
        var own, documented := OwnSpan(tag, open, close), DocumentedSpan(tag, open, close, inOrdered);
        SameAppend(PostOrder(children), Documented(children, inner), own, documented);
        SameAppend(PostOrder(children) + own, Documented(children, inner) + documented,
                   PostOrder(rest), Documented(rest, inOrdered));
    }
  }

  ghost predicate ShowsOrderedItem(spans: seq<MarkdownSpan>) {
    exists i :: 0 <= i < |spans| && OrderedItem(spans[i])
  }

  lemma ShowsAppend(a: seq<MarkdownSpan>, b: seq<MarkdownSpan>)
    ensures ShowsOrderedItem(a + b) <==> ShowsOrderedItem(a) || ShowsOrderedItem(b)
  {
    if i :| 0 <= i < |a| && OrderedItem(a[i]) {
      assert OrderedItem((a + b)[i]);
    }
    if i :| 0 <= i < |b| && OrderedItem(b[i]) {
      assert OrderedItem((a + b)[|a| + i]);
    }
  }

  lemma {:induction false} OrderedItemsShow(doc: Doc, inOrdered: bool)
    ensures ShowsOrderedItem(Documented(doc, inOrdered)) <==> HasOrderedItem(doc, inOrdered)
  {
    match doc {
      case Empty =>
      case Text(_, rest) => OrderedItemsShow(rest, inOrdered);
      case CodeSpan(range, rest) =>
        OrderedItemsShow(rest, inOrdered);
        ShowsAppend([MarkdownSpan(range.start, range.end, InlineCode)], Documented(rest, inOrdered));
      case Element(tag, open, close, children, rest) =>
        var inner := if tag.List? then tag.firstNumber.Some? else inOrdered;
        OrderedItemsShow(children, inner);
        OrderedItemsShow(rest, inOrdered);
        var own := DocumentedSpan(tag, open, close, inOrdered);
        assert ShowsOrderedItem(own) <==> tag.Item? && inOrdered by {
          assert tag.Item? ==> OrderedItem(own[0]) == inOrdered;
        }
        ShowsAppend(Documented(children, inner), own);
        ShowsAppend(Documented(children, inner) + own, Documented(rest, inOrdered));
    }
  }

  /** Hints without ordered items cannot be the hints of spans with one. */
  lemma SameHintsExactlyWhen(actual: seq<MarkdownSpan>, documented: seq<MarkdownSpan>)
    requires SameButForFlags(actual, documented)
    ensures Hints(actual) == Hints(documented) <==> !ShowsOrderedItem(documented)
  {
    if ShowsOrderedItem(documented) {
      var i :| 0 <= i < |documented| && OrderedItem(documented[i]);
      SortKeepsElements(actual, StartOf);
      SortKeepsElements(documented, StartOf);
      assert documented[i] in Hints(documented).spans;
      assert documented[i] !in actual;
    } else {
      assert actual == documented;
    }
  }

  /**
   The hints a text gets are the documented ones if and only if none of the first hundred
   entries is an item of an ordered list; for a text of at most a hundred spans, if and only
   if no ordered list of it has an item.
   */
  lemma ItemFlagsAreRightExactlyWhen(doc: Doc)
    ensures
      var documented := Take(Documented(doc, false), MAX_SPANS_PER_MESSAGE);
      Hints(Run(INITIAL, Events(doc)).spans) == Hints(documented) <==> !ShowsOrderedItem(documented)
    ensures |PostOrder(doc)| <= MAX_SPANS_PER_MESSAGE ==>
              (Hints(Run(INITIAL, Events(doc)).spans) == Hints(Documented(doc, false)) <==> !HasOrderedItem(doc, false))
  {
    RunCollectsPostOrder(doc);
    OnlyFlagsDiffer(doc, false);
    OrderedItemsShow(doc, false);
    var documented := Documented(doc, false);
    SameHintsExactlyWhen(Take(PostOrder(doc), MAX_SPANS_PER_MESSAGE), Take(documented, MAX_SPANS_PER_MESSAGE));
    assert |documented| <= MAX_SPANS_PER_MESSAGE ==> Take(documented, MAX_SPANS_PER_MESSAGE) == documented;
  }

  lemma SortOfOne(span: MarkdownSpan)
    ensures SortByKey([span], StartOf) == [span]
  {
    assert [span][1..] == [];
  }

  /** A numbered list of one item: its item comes out as unordered. */
  lemma NumberedItemComesOutUnordered()
    ensures
      var whole := Range(0, 4);
      var doc := Element(List(Some(1)), whole, whole, Element(Item, whole, whole, Empty, Empty), Empty);
      && Documented(doc, false) == [MarkdownSpan(0, 4, ListItem(true))]
      && Hints(Run(INITIAL, Events(doc)).spans).spans == [MarkdownSpan(0, 4, ListItem(false))]
  {
    var whole := Range(0, 4);
    var doc := Element(List(Some(1)), whole, whole, Element(Item, whole, whole, Empty, Empty), Empty);
    var item := doc.children;
    RunCollectsPostOrder(doc);
    assert Documented(item, true) == [MarkdownSpan(0, 4, ListItem(true))];
    assert PostOrder(item) == [MarkdownSpan(0, 4, ListItem(false))];
    assert Documented(doc, false) == Documented(item, true) + [] + [];
    assert PostOrder(doc) == PostOrder(item) + [] + [];
    SortOfOne(MarkdownSpan(0, 4, ListItem(false)));
    assert Take(PostOrder(doc), MAX_SPANS_PER_MESSAGE) == [MarkdownSpan(0, 4, ListItem(false))];
  }

  // ---- Each tag on its own.

  /** The spans of an element that holds nothing but text. */
  function SpansOfOne(tag: Tag, open: Range, close: Range): seq<MarkdownSpan> {
    Run(INITIAL, Events(Element(tag, open, close, Empty, Empty))).spans
  }

  lemma OneElement(tag: Tag, open: Range, close: Range)
    ensures SpansOfOne(tag, open, close) == OwnSpan(tag, open, close)
  {
    var doc := Element(tag, open, close, Empty, Empty);
    RunCollectsPostOrder(doc);
    assert PostOrder(doc) == OwnSpan(tag, open, close);
  }

  /**
   What each tag comes out as, from the start of its opening to the end of its closing event; lists and the
   rest give nothing.
   */
  lemma TagsComeOutAs(open: Range, close: Range, url: string, lang: string, level: nat, first: Option<nat>)
    ensures SpansOfOne(Strong, open, close) == [MarkdownSpan(open.start, close.end, Bold)]
    ensures SpansOfOne(Emphasis, open, close) == [MarkdownSpan(open.start, close.end, Italic)]
    ensures SpansOfOne(Strikethrough, open, close) == [MarkdownSpan(open.start, close.end, StruckOut)]
    ensures SpansOfOne(Link(url), open, close) == [MarkdownSpan(open.start, close.end, Hyperlink(url))]
    ensures SpansOfOne(CodeBlock(Indented), open, close) == [MarkdownSpan(open.start, close.end, FencedCode(None))]
    ensures SpansOfOne(CodeBlock(Fenced("")), open, close) == [MarkdownSpan(open.start, close.end, FencedCode(None))]
    ensures lang != "" ==>
      SpansOfOne(CodeBlock(Fenced(lang)), open, close) == [MarkdownSpan(open.start, close.end, FencedCode(Some(lang)))]
    ensures SpansOfOne(Heading(level), open, close) == [MarkdownSpan(open.start, close.end, HeadingSpan(level))]
    ensures SpansOfOne(BlockQuote, open, close) == [MarkdownSpan(open.start, close.end, Quote)]
    ensures SpansOfOne(Item, open, close) == [MarkdownSpan(open.start, close.end, ListItem(false))]
    ensures SpansOfOne(List(first), open, close) == [] && SpansOfOne(Untracked(lang), open, close) == []
  {
    forall tag ensures SpansOfOne(tag, open, close) == OwnSpan(tag, open, close) {
      OneElement(tag, open, close);
    }
  }

  // ---- An example: strong text with emphasis inside.

  /** The tree of `**a *b***`. */
  const NESTED := Element(Strong, Range(0, 9), Range(0, 9),
                          Text(Range(2, 4), Element(Emphasis, Range(4, 7), Range(4, 7), Text(Range(5, 6), Empty),
                                                    Empty)),
                          Empty)

  /** The emphasis ends first, and the strong text comes first in the hints because it starts first. */
  lemma OuterComesFirst()
    ensures
      Hints(Run(INITIAL, Events(NESTED)).spans)
      == RenderingHints([MarkdownSpan(0, 9, Bold), MarkdownSpan(4, 7, Italic)], true)
  {
    var inner, outer := MarkdownSpan(4, 7, Italic), MarkdownSpan(0, 9, Bold);
    RunCollectsPostOrder(NESTED);
    assert PostOrder(NESTED) == [inner, outer];
    assert Take([inner, outer], MAX_SPANS_PER_MESSAGE) == [inner, outer];
    assert SortByKey([outer], StartOf) == [outer];
    assert [inner, outer][1..] == [outer];
    assert SortByKey([inner, outer], StartOf) == InsertByKey(inner, [outer], StartOf) == [outer, inner];
  }
}

/**
 * `formatMessage` (front/chatbot.js): turns a chatbot reply into HTML. After
 * the inline replacements (bold, italic, currency) the message is split into
 * lines; each line is trimmed, a blank line becomes `<br>`, the status emoji
 * get a space after them, and the line becomes a list item (`1. ` numbered,
 * `- ` or `* ` bulleted), a heading (`<h4>`, an upper-case line longer than
 * three UTF-16 code units) or a paragraph. A list opens at its first item and
 * closes at the next heading or paragraph, or at the end.
 */
module MessageFormat {
  import opened Wrappers
  import opened JsValues
  import opened Text

  /** The host's string operations the formatter calls. */
  datatype TextOps = TextOps(
    /**
     * The three global regular-expression replacements of the whole message:
     * `**x**` to `<strong>x</strong>`, `*x*` to `<em>x</em>` and `RMn` to a
     * currency span.
     */
    inline: string -> string,
    /** `String.prototype.toUpperCase`. */
    upper: string -> string
  )

  // ---------------------------------------------------------------------------
  // Emoji spacing

  const Chart := "\U{1F4CA}"
  const Diamond := "\U{1F538}"
  const Fire := "\U{1F525}"
  const CalendarPad := "\U{1F4C5}"
  const Star := "\U{2B50}"
  const Stopwatch := "\U{23F1}\U{FE0F}"

  /** The six `replace` calls that put a space after each status emoji, in order. */
  function EmojiSpacing(s: string): string {
    var s1 := ReplaceAll(s, Chart, Chart + " ");
    var s2 := ReplaceAll(s1, Diamond, Diamond + " ");
    var s3 := ReplaceAll(s2, Fire, Fire + " ");
    var s4 := ReplaceAll(s3, CalendarPad, CalendarPad + " ");
    var s5 := ReplaceAll(s4, Star, Star + " ");
    ReplaceAll(s5, Stopwatch, Stopwatch + " ")
  }

  /** Takes the spaces after the emoji out again, last replacement first. */
  function EmojiUnspacing(s: string): string {
    var s5 := ReplaceAll(s, Stopwatch + " ", Stopwatch);
    var s4 := ReplaceAll(s5, Star + " ", Star);
    var s3 := ReplaceAll(s4, CalendarPad + " ", CalendarPad);
    var s2 := ReplaceAll(s3, Fire + " ", Fire);
    var s1 := ReplaceAll(s2, Diamond + " ", Diamond);
    ReplaceAll(s1, Chart + " ", Chart)
  }

  /** The spacing loses nothing: taking the added spaces out restores the line. */
  lemma EmojiSpacingRoundTrip(s: string)
    ensures EmojiUnspacing(EmojiSpacing(s)) == s
  {
    var s1 := ReplaceAll(s, Chart, Chart + " ");
    var s2 := ReplaceAll(s1, Diamond, Diamond + " ");
    var s3 := ReplaceAll(s2, Fire, Fire + " ");
    var s4 := ReplaceAll(s3, CalendarPad, CalendarPad + " ");
    var s5 := ReplaceAll(s4, Star, Star + " ");
    ReplaceAllRoundTrip(s5, Stopwatch, ' ');
    ReplaceAllRoundTrip(s4, Star, ' ');
    ReplaceAllRoundTrip(s3, CalendarPad, ' ');
    ReplaceAllRoundTrip(s2, Fire, ' ');
    ReplaceAllRoundTrip(s1, Diamond, ' ');
    ReplaceAllRoundTrip(s, Chart, ' ');
  }

  /** The first characters of the six emoji. */
  predicate IsEmojiStart(c: char) {
    c == '\U{1F4CA}' || c == '\U{1F538}' || c == '\U{1F525}' || c == '\U{1F4C5}' || c == '\U{2B50}' || c == '\U{23F1}'
  }

  /** A line without emoji is left as it is. */
  lemma EmojiSpacingNoEmoji(s: string)
    requires forall i :: 0 <= i < |s| ==> !IsEmojiStart(s[i])
    ensures EmojiSpacing(s) == s
  {
    ReplaceAllAbsent(s, Chart, Chart + " ");
    ReplaceAllAbsent(s, Diamond, Diamond + " ");
    ReplaceAllAbsent(s, Fire, Fire + " ");
    ReplaceAllAbsent(s, CalendarPad, CalendarPad + " ");
    ReplaceAllAbsent(s, Star, Star + " ");
    ReplaceAllAbsent(s, Stopwatch, Stopwatch + " ");
  }

  // ---------------------------------------------------------------------------
  // Classifying a line

  datatype ListKind = Ordered | Bulleted

  /** What one line of the message becomes. */
  datatype Line = Blank | Entry(kind: ListKind, text: string) | Heading(text: string) | Para(text: string)

  /** `/^\d+\.\s+/` matches: the text after the match, or None. */
  function NumberedItem(t: string): (item: Option<string>)
    ensures item.Some? ==> |item.value| < |t| && item.value == t[|t| - |item.value|..]
  {
    var n := DigitRun(t);
    if 0 < n && n + 1 < |t| && t[n] == '.' && IsSpace(t[n + 1]) then Some(SkipSpaces(t[n + 1..])) else None
  }

  /** `/^[-*]\s+/` matches: the text after the match, or None. */
  function BulletItem(t: string): (item: Option<string>)
    ensures item.Some? ==> |item.value| < |t| && item.value == t[|t| - |item.value|..]
  {
    if 2 <= |t| && (t[0] == '-' || t[0] == '*') && IsSpace(t[1]) then Some(SkipSpaces(t[1..])) else None
  }

  /** `s.length`: characters outside the Basic Multilingual Plane take two code units. */
  function Utf16Length(s: string): (n: nat)
    ensures |s| <= n <= 2 * |s|
  {
    if |s| == 0 then 0 else (if s[0] as int > 0xFFFF then 2 else 1) + Utf16Length(s[1..])
  }

  /** `t.toUpperCase() === t && t.length > 3`. */
  predicate IsHeading(ops: TextOps, t: string) {
    ops.upper(t) == t && Utf16Length(t) > 3
  }

  /** What a trimmed, emoji-spaced, non-empty line becomes; a numbered item is recognised first. */
  function Kind(ops: TextOps, t: string): Line {
    match NumberedItem(t)
    case Some(item) => Entry(Ordered, item)
    case None =>
      match BulletItem(t)
      case Some(item) => Entry(Bulleted, item)
      case None => if IsHeading(ops, t) then Heading(t) else Para(t)
  }

  /** What a line of the message becomes: trimmed, blank, or emoji-spaced and then classified. */
  function Classify(ops: TextOps, line: string): Line {
    var trimmed := Trim(line);
    if trimmed == "" then Blank else Kind(ops, EmojiSpacing(trimmed))
  }

  function ClassifyAll(ops: TextOps, lines: seq<string>): (ls: seq<Line>)
    ensures |ls| == |lines|
    ensures forall i :: 0 <= i < |lines| ==> ls[i] == Classify(ops, lines[i])
  {
    if |lines| == 0 then [] else [Classify(ops, lines[0])] + ClassifyAll(ops, lines[1..])
  }

  // ---------------------------------------------------------------------------
  // The line-by-line formatter

  function OpenTag(k: ListKind): string {
    if k == Ordered then "<ol>" else "<ul>"
  }

  function CloseTag(k: ListKind): string {
    if k == Ordered then "</ol>" else "</ul>"
  }

  function Item(text: string): string {
    "<li>" + text + "</li>"
  }

  function HeadingHtml(t: string): string {
    "<h4>" + t + "</h4>"
  }

  function ParaHtml(t: string): string {
    "<p>" + t + "</p>"
  }

  /** The close of the open list, if one is open, by the tag of its own kind. */
  function CloseOf(open: Option<ListKind>): string {
    if open.Some? then CloseTag(open.value) else ""
  }

  /** The HTML one line adds, and which list is open after it. */
  function Emit(open: Option<ListKind>, line: Line): (string, Option<ListKind>) {
    match line
    case Blank => ("<br>", open)
    case Entry(k, text) =>
      if open.None? then (OpenTag(k) + Item(text), Some(k)) else (Item(text), open)
    case Heading(t) => (CloseOf(open) + HeadingHtml(t), None)
    case Para(t) => (CloseOf(open) + ParaHtml(t), None)
  }

  /** The HTML the remaining lines add, with `open` the list open before them, and the final close. */
  function Format(open: Option<ListKind>, ls: seq<Line>): string
    decreases |ls|
  {
    if |ls| == 0 then CloseOf(open)
    else
      var (piece, open') := Emit(open, ls[0]);
      piece + Format(open', ls[1..])
  }

  /** What `formatMessage(message)` returns; None stands for a value that is not a string. */
  function FormatMessageOf(ops: TextOps, message: Option<string>): string {
    if message.None? || message.value == "" then ""
    else Format(None, ClassifyAll(ops, Split(ops.inline(message.value), '\n')))
  }

  /** One iteration of the `forEach`: what the line appends to the HTML, and the list open after it. */
  method FormatLine(ops: TextOps, line: string, openList: Option<ListKind>) returns (piece: string, open': Option<ListKind>)
    ensures (piece, open') == Emit(openList, Classify(ops, line))
  {
    var trimmedLine := Trim(line);
    if trimmedLine == "" {
      assert Classify(ops, line) == Blank;
      return "<br>", openList;
    }
    trimmedLine := EmojiSpacing(trimmedLine);
    assert Classify(ops, line) == Kind(ops, trimmedLine);
    var numbered := NumberedItem(trimmedLine);
    var bullet := BulletItem(trimmedLine);
    if numbered.Some? || bullet.Some? {
      var kind := if numbered.Some? then Ordered else Bulleted;
      var text := if numbered.Some? then numbered.value else bullet.value;
      assert Kind(ops, trimmedLine) == Entry(kind, text);
      if openList.None? {
        piece, open' := OpenTag(kind) + Item(text), Some(kind);
      } else {
        piece, open' := Item(text), openList;
      }
    } else {
      var close := CloseOf(openList);
      if ops.upper(trimmedLine) == trimmedLine && Utf16Length(trimmedLine) > 3 {
        piece := close + HeadingHtml(trimmedLine);
      } else {
        piece := close + ParaHtml(trimmedLine);
      }
      open' := None;
    }
  }

  /** `formatMessage`, with each list closed by the tag that opened it. */
  method FormatMessage(ops: TextOps, message: Option<string>) returns (html: string)
    ensures html == FormatMessageOf(ops, message)
  {
    if message.None? || message.value == "" {
      return "";
    }
    var formatted := ops.inline(message.value);
    var lines := Split(formatted, '\n');
    ghost var ls := ClassifyAll(ops, lines);
    html := "";
    var openList: Option<ListKind> := None;
    var i := 0;
    while i < |lines|
      invariant 0 <= i <= |lines|
      invariant html + Format(openList, ls[i..]) == Format(None, ls)
    {
      assert ls[i..][0] == ls[i] && ls[i..][1..] == ls[i + 1..];
      var piece;
      piece, openList := FormatLine(ops, lines[i], openList);
      Assoc(html, piece, Format(openList, ls[i + 1..]));
      html := html + piece;
      i := i + 1;
    }
    html := html + CloseOf(openList);
  }

  lemma Assoc(a: string, b: string, c: string)
    ensures a + (b + c) == a + b + c
  {
  }

  // ---------------------------------------------------------------------------
  // Reference definition: the message as blocks

  /** A list entry is an item, or None for a blank line met inside the list. */
  datatype Block = Break | HeadingBlock(text: string) | ParaBlock(text: string) | ListBlock(kind: ListKind, entries: seq<Option<string>>)

  /** The entries a list that is open goes on with: the leading items and blank lines. */
  function ListBody(ls: seq<Line>): (es: seq<Option<string>>)
    ensures |es| <= |ls|
  {
    if |ls| == 0 then []
    else match ls[0]
      case Blank => [None] + ListBody(ls[1..])
      case Entry(_, text) => [Some(text)] + ListBody(ls[1..])
      case _ => []
  }

  /** The blocks of a message: a list takes every item and blank line up to the next other line. */
  function Blocks(ls: seq<Line>): seq<Block>
    decreases |ls|
  {
    if |ls| == 0 then []
    else match ls[0]
      case Blank => [Break] + Blocks(ls[1..])
      case Heading(t) => [HeadingBlock(t)] + Blocks(ls[1..])
      case Para(t) => [ParaBlock(t)] + Blocks(ls[1..])
      case Entry(k, t) =>
        var body := ListBody(ls[1..]);
        [ListBlock(k, [Some(t)] + body)] + Blocks(ls[1 + |body|..])
  }

  function RenderEntries(es: seq<Option<string>>): string {
    if |es| == 0 then "" else (if es[0].Some? then Item(es[0].value) else "<br>") + RenderEntries(es[1..])
  }

  function RenderBlock(b: Block): string {
    match b
    case Break => "<br>"
    case HeadingBlock(t) => HeadingHtml(t)
    case ParaBlock(t) => ParaHtml(t)
    case ListBlock(k, es) => OpenTag(k) + RenderEntries(es) + CloseTag(k)
  }

  function Render(bs: seq<Block>): string {
    if |bs| == 0 then "" else RenderBlock(bs[0]) + Render(bs[1..])
  }

  lemma RenderCons(b: Block, bs: seq<Block>)
    ensures Render([b] + bs) == RenderBlock(b) + Render(bs)
  {
    assert ([b] + bs)[1..] == bs;
  }

  lemma RenderEntriesCons(e: Option<string>, es: seq<Option<string>>)
    ensures RenderEntries([e] + es) == (if e.Some? then Item(e.value) else "<br>") + RenderEntries(es)
  {
    assert ([e] + es)[1..] == es;
  }

  /** With no list open, the formatter renders the blocks of the lines. */
  lemma {:induction false} FormatClosed(ls: seq<Line>)
    ensures Format(None, ls) == Render(Blocks(ls))
    decreases |ls|, 1
  {
    if |ls| > 0 {
      match ls[0]
      case Blank =>
        FormatClosed(ls[1..]);
        RenderCons(Break, Blocks(ls[1..]));
      case Heading(t) =>
        FormatClosed(ls[1..]);
        RenderCons(HeadingBlock(t), Blocks(ls[1..]));
      case Para(t) =>
        FormatClosed(ls[1..]);
        RenderCons(ParaBlock(t), Blocks(ls[1..]));
      case Entry(k, t) =>
        var body := ListBody(ls[1..]);
        var rest := Render(Blocks(ls[1 + |body|..]));
        FormatOpen(k, ls[1..]);
        assert ls[1..][|body|..] == ls[1 + |body|..];
        // Format(None, ls) == OpenTag(k) + Item(t) + (RenderEntries(body) + CloseTag(k) + rest)
        RenderCons(ListBlock(k, [Some(t)] + body), Blocks(ls[1 + |body|..]));
        RenderEntriesCons(Some(t), body);
        ListHtml(OpenTag(k), Item(t), RenderEntries(body), CloseTag(k), rest);
    }
  }

  lemma ListHtml(o: string, i: string, es: string, c: string, rest: string)
    ensures o + i + (es + c + rest) == o + (i + es) + c + rest
  {
  }

  /**
   * With a list of kind `k` open, the formatter renders the rest of the list,
   * closes it with the tag of kind `k` and renders the blocks after it.
   */
  lemma {:induction false} FormatOpen(k: ListKind, ls: seq<Line>)
    ensures var body := ListBody(ls);
      Format(Some(k), ls) == RenderEntries(body) + CloseTag(k) + Render(Blocks(ls[|body|..]))
    decreases |ls|, 0
  {
    if |ls| == 0 {
      assert RenderEntries([]) + CloseTag(k) + Render([]) == CloseTag(k);
    } else if ls[0].Blank? || ls[0].Entry? {
      FormatOpen(k, ls[1..]);
      ListContinues(k, ls);
    } else {
      FormatClosed(ls[1..]);
      ListEnds(k, ls);
    }
  }

  /** A blank line or an item inside an open list adds its entry to the list. */
  lemma ListContinues(k: ListKind, ls: seq<Line>)
    requires |ls| > 0 && (ls[0].Blank? || ls[0].Entry?)
    requires var body := ListBody(ls[1..]);
      Format(Some(k), ls[1..]) == RenderEntries(body) + CloseTag(k) + Render(Blocks(ls[1..][|body|..]))
    ensures var body := ListBody(ls);
      Format(Some(k), ls) == RenderEntries(body) + CloseTag(k) + Render(Blocks(ls[|body|..]))
  {
    var body := ListBody(ls[1..]);
    assert ls[1..][|body|..] == ls[1 + |body|..];
    var e := if ls[0].Blank? then None else Some(ls[0].text);
    assert ListBody(ls) == [e] + body;
    RenderEntriesCons(e, body);
    EntryHtml(if ls[0].Blank? then "<br>" else Item(ls[0].text), RenderEntries(body), CloseTag(k), Render(Blocks(ls[1 + |body|..])));
  }

  /** A heading or a paragraph closes the open list by the tag of its kind. */
  lemma ListEnds(k: ListKind, ls: seq<Line>)
    requires |ls| > 0 && (ls[0].Heading? || ls[0].Para?)
    requires Format(None, ls[1..]) == Render(Blocks(ls[1..]))
    ensures var body := ListBody(ls);
      Format(Some(k), ls) == RenderEntries(body) + CloseTag(k) + Render(Blocks(ls[|body|..]))
  {
    var b := if ls[0].Heading? then HeadingBlock(ls[0].text) else ParaBlock(ls[0].text);
    var h := RenderBlock(b);
    var rest := Render(Blocks(ls[1..]));
    assert Emit(Some(k), ls[0]) == (CloseTag(k) + h, None);
    assert Format(Some(k), ls) == CloseTag(k) + h + rest;
    assert ListBody(ls) == [];
    assert ls[0..] == ls;
    assert Blocks(ls) == [b] + Blocks(ls[1..]);
    RenderCons(b, Blocks(ls[1..]));
    CloseHtml(CloseTag(k), h, rest);
  }

  lemma CloseHtml(c: string, h: string, rest: string)
    ensures RenderEntries([]) + c + (h + rest) == c + h + rest
  {
    assert RenderEntries([]) == "";
  }

  lemma EntryHtml(e: string, es: string, c: string, rest: string)
    ensures e + (es + c + rest) == e + es + c + rest
  {
  }

  /**
   * The formatter renders the message's blocks: every list opens with the
   * tag of its first item's kind and closes with the matching tag.
   */
  lemma FormatIsRender(ops: TextOps, message: string)
    requires message != ""
    ensures FormatMessageOf(ops, Some(message)) == Render(Blocks(ClassifyAll(ops, Split(ops.inline(message), '\n'))))
  {
    FormatClosed(ClassifyAll(ops, Split(ops.inline(message), '\n')));
  }

  // ---------------------------------------------------------------------------
  // As written: the closing tag is chosen by searching the HTML so far

  /** `html.includes(t)`. */
  predicate Contains(s: string, t: string) {
    exists i :: 0 <= i <= |s| && t <= s[i..]
  }

  /** The close of the source: `</ul>` when `<ul>` appears anywhere in the HTML so far. */
  function CloseAsWritten(html: string): string {
    if Contains(html, "<ul>") then "</ul>" else "</ol>"
  }

  /** The HTML so far and `inList`. */
  datatype RawState = RawState(html: string, inList: bool)

  /** What closes the list, if one is open, as written. */
  function CloseIfInList(st: RawState): string {
    if st.inList then CloseAsWritten(st.html) else ""
  }

  /**
   * One iteration as written: the HTML only grows, and `inList` is set by an
   * item, cleared by a heading or paragraph and kept by a blank line.
   */
  function StepAsWritten(st: RawState, line: Line): (r: RawState)
    ensures st.html <= r.html
    ensures r.inList <==> line.Entry? || (line.Blank? && st.inList)
  {
    match line
    case Blank => RawState(st.html + "<br>", st.inList)
    case Entry(k, text) => RawState(st.html + (if st.inList then Item(text) else OpenTag(k) + Item(text)), true)
    case Heading(t) => RawState(st.html + (CloseIfInList(st) + HeadingHtml(t)), false)
    case Para(t) => RawState(st.html + (CloseIfInList(st) + ParaHtml(t)), false)
  }

  /** The rest of the loop as written and the final close: the HTML so far is kept as a prefix. */
  function RunAsWritten(st: RawState, ls: seq<Line>): (r: string)
    ensures st.html <= r
    decreases |ls|
  {
    if |ls| == 0 then st.html + CloseIfInList(st)
    else RunAsWritten(StepAsWritten(st, ls[0]), ls[1..])
  }

  /** `formatMessage` exactly as written. */
  function FormatMessageAsWritten(ops: TextOps, message: Option<string>): string {
    if message.None? || message.value == "" then ""
    else RunAsWritten(RawState("", false), ClassifyAll(ops, Split(ops.inline(message.value), '\n')))
  }

  lemma ContainsExtend(s: string, rest: string, t: string)
    requires Contains(s, t)
    ensures Contains(s + rest, t)
  {
    var i :| 0 <= i <= |s| && t <= s[i..];
    assert (s + rest)[i..] == s[i..] + rest;
  }

  lemma StartsWithUl(rest: string)
    ensures Contains("<ul>" + rest, "<ul>")
  {
    assert ("<ul>" + rest)[0..] == "<ul>" + rest;
  }

  /** The HTML holds no `<ul>`. */
  predicate NoUl(s: string) {
    forall i :: 0 <= i <= |s| ==> !("<ul>" <= s[i..])
  }

  /** A line the as-written close cannot get wrong: no bullet item, and no `<ul>` in its text. */
  predicate NoBullet(line: Line) {
    match line
    case Blank => true
    case Entry(k, t) => k == Ordered && NoUl(t)
    case Heading(t) => NoUl(t)
    case Para(t) => NoUl(t)
  }

  /**
   * As written and corrected agree on a message with no bullet item and no
   * `<ul>` in the text of its lines: every list is numbered, the HTML never
   * holds `<ul>`, and the close chosen by searching it is `</ol>`.
   */
  lemma AsWrittenWithoutBullets(ops: TextOps, message: string)
    requires forall l :: l in ClassifyAll(ops, Split(ops.inline(message), '\n')) ==> NoBullet(l)
    ensures FormatMessageAsWritten(ops, Some(message)) == FormatMessageOf(ops, Some(message))
  {
    if message != "" {
      var ls := ClassifyAll(ops, Split(ops.inline(message), '\n'));
      assert NoUl("");
      RunAsWrittenAgrees("", None, ls);
    }
  }

  /**
   * From HTML without `<ul>` and no list or a numbered list open, the loop
   * as written appends what the corrected formatter emits, provided no line
   * is a bullet item or holds `<ul>`.
   */
  lemma {:induction false} RunAsWrittenAgrees(html: string, open: Option<ListKind>, ls: seq<Line>)
    requires NoUl(html) && open != Some(Bulleted)
    requires forall l :: l in ls ==> NoBullet(l)
    ensures RunAsWritten(RawState(html, open.Some?), ls) == html + Format(open, ls)
    decreases |ls|
  {
    var st := RawState(html, open.Some?);
    if |ls| == 0 {
      assert CloseIfInList(st) == CloseOf(open);
    } else {
      var e := Emit(open, ls[0]);
      assert ls[0] in ls;
      PieceNoUl(html, open, ls[0]);
      assert RunAsWritten(st, ls) == RunAsWritten(RawState(html + e.0, e.1.Some?), ls[1..]);
      assert Format(open, ls) == e.0 + Format(e.1, ls[1..]);
      assert forall l :: l in ls[1..] ==> l in ls;
      RunAsWrittenAgrees(html + e.0, e.1, ls[1..]);
      Assoc(html, e.0, Format(e.1, ls[1..]));
    }
  }

  /**
   * What one line emits, from HTML without `<ul>` and no bulleted list open,
   * keeps the HTML free of `<ul>` and is what the as-written step appends.
   */
  lemma PieceNoUl(html: string, open: Option<ListKind>, line: Line)
    requires NoUl(html) && open != Some(Bulleted) && NoBullet(line)
    ensures var (piece, open') := Emit(open, line);
      && NoUl(html + piece)
      && open' != Some(Bulleted)
      && StepAsWritten(RawState(html, open.Some?), line) == RawState(html + piece, open'.Some?)
  {
    var (piece, open') := Emit(open, line);
    assert CloseIfInList(RawState(html, open.Some?)) == CloseOf(open);
    TagNoUl("<br>");
    TagNoUl("<ol>");
    TagNoUl("</ol>");
    match line {
      case Blank =>
      case Entry(_, t) =>
        TagNoUl("<li>");
        TagNoUl("</li>");
        Wrapped("<li>", t, "</li>");
        if open.None? {
          NoUlJoin("<ol>", Item(t));
        }
      case Heading(t) =>
        TagNoUl("<h4>");
        TagNoUl("</h4>");
        Wrapped("<h4>", t, "</h4>");
        NoUlJoin(CloseOf(open), HeadingHtml(t));
      case Para(t) =>
        TagNoUl("<p>");
        TagNoUl("</p>");
        Wrapped("<p>", t, "</p>");
        NoUlJoin(CloseOf(open), ParaHtml(t));
    }
    NoUlJoin(html, piece);
  }

  /** A tag other than `<ul>` holds no `<ul>`. */
  lemma TagNoUl(tag: string)
    requires 2 <= |tag| <= 5 && tag[0] == '<' && tag[1] != 'u' && tag[1] != '<' && tag[|tag| - 1] == '>'
    ensures NoUl(tag)
  {
    forall i | 0 <= i <= |tag| ensures !("<ul>" <= tag[i..]) {
      if i == 0 {
        assert tag[i..][1] == tag[1];
      } else if i == 1 && |tag| == 5 {
        assert tag[i..][0] == tag[1];
      }
    }
  }

  /** Text between an opening tag and a closing tag. */
  lemma Wrapped(o: string, t: string, c: string)
    requires NoUl(o) && NoUl(t) && NoUl(c)
    requires |o| > 0 && o[|o| - 1] == '>' && |c| > 0 && c[0] == '<'
    ensures NoUl(o + t + c)
  {
    NoUlJoin(o, t);
    NoUlJoin(o + t, c);
  }

  /**
   * Two pieces without `<ul>` make none when joined where the second starts
   * with `<` or the first ends with `>`: a `<ul>` across the seam would need
   * a `u`, `l` or `>` right after it or a `<`, `u` or `l` right before it.
   */
  lemma NoUlJoin(a: string, b: string)
    requires NoUl(a) && NoUl(b)
    requires |a| == 0 || |b| == 0 || b[0] == '<' || a[|a| - 1] == '>'
    ensures NoUl(a + b)
  {
    var ab := a + b;
    forall i | 0 <= i <= |ab| ensures !("<ul>" <= ab[i..]) {
      if i + 4 <= |a| {
        assert !("<ul>" <= a[i..]);
        assert ab[i..][..4] == a[i..][..4];
      } else if i >= |a| {
        assert ab[i..] == b[i - |a|..];
      } else if i + 4 <= |ab| {
        var d := |a| - i;
        assert ab[i..][d] == ab[|a|] == b[0];
        assert ab[i..][d - 1] == ab[|a| - 1] == a[|a| - 1];
      }
    }
  }

  /** A bulleted item, a paragraph and a numbered item, rendered up to the final close. */
  function MixedLists(a: string, x: string, b: string): string {
    "<ul>" + Item(a) + "</ul>" + ParaHtml(x) + "<ol>" + Item(b)
  }

  /**
   * As written, a numbered list that follows a bulleted list and a paragraph
   * opens with `<ol>` but is closed with `</ul>`: the earlier `<ul>` is still
   * in the HTML when the close is chosen.
   */
  lemma MixedListsAsWritten(a: string, x: string, b: string)
    ensures RunAsWritten(RawState("", false), [Entry(Bulleted, a), Para(x), Entry(Ordered, b)]) == MixedLists(a, x, b) + "</ul>"
  {
    var s0 := RawState("", false);
    var s1 := StepAsWritten(s0, Entry(Bulleted, a));
    assert s1.html == "<ul>" + Item(a);
    StartsWithUl(Item(a));
    var s2 := StepAsWritten(s1, Para(x));
    assert s2.html == "<ul>" + Item(a) + "</ul>" + ParaHtml(x);
    var s3 := StepAsWritten(s2, Entry(Ordered, b));
    assert s3.html == MixedLists(a, x, b);
    ContainsExtend("<ul>" + Item(a), "</ul>" + ParaHtml(x) + "<ol>" + Item(b), "<ul>");
    assert "<ul>" + Item(a) + ("</ul>" + ParaHtml(x) + "<ol>" + Item(b)) == MixedLists(a, x, b);
    RunThree(s0, Entry(Bulleted, a), Para(x), Entry(Ordered, b));
  }

  lemma RunThree(st: RawState, p: Line, q: Line, r: Line)
    ensures RunAsWritten(st, [p, q, r]) == RunAsWritten(StepAsWritten(StepAsWritten(StepAsWritten(st, p), q), r), [])
  {
    var s1 := StepAsWritten(st, p);
    var s2 := StepAsWritten(s1, q);
    assert [p, q, r][1..] == [q, r];
    assert RunAsWritten(st, [p, q, r]) == RunAsWritten(s1, [q, r]);
    assert [q, r][1..] == [r];
    assert RunAsWritten(s1, [q, r]) == RunAsWritten(s2, [r]);
    assert [r][1..] == [];
  }

  /** The corrected formatter closes the numbered list with `</ol>`. */
  lemma MixedListsCorrected(a: string, x: string, b: string)
    ensures Format(None, [Entry(Bulleted, a), Para(x), Entry(Ordered, b)]) == MixedLists(a, x, b) + "</ol>"
  {
    var ls := [Entry(Bulleted, a), Para(x), Entry(Ordered, b)];
    assert ls[1..] == [Para(x), Entry(Ordered, b)];
    assert ls[1..][1..] == [Entry(Ordered, b)];
    assert ls[1..][1..][1..] == [];
    assert Format(Some(Ordered), []) == "</ol>";
    assert Format(None, ls[1..][1..]) == "<ol>" + Item(b) + "</ol>";
    assert Format(Some(Bulleted), ls[1..]) == "</ul>" + ParaHtml(x) + ("<ol>" + Item(b) + "</ol>");
  }

  /**
   * The message "- a", "x", "1. b" (with inline formatting that leaves it
   * alone): as written its numbered list is closed with `</ul>`; the
   * corrected formatter closes it with `</ol>`.
   */
  lemma MismatchedCloseTag(ops: TextOps)
    requires ops.inline("- a\nx\n1. b") == "- a\nx\n1. b"
    ensures FormatMessageAsWritten(ops, Some("- a\nx\n1. b")) == MixedLists("a", "x", "b") + "</ul>"
    ensures FormatMessageOf(ops, Some("- a\nx\n1. b")) == MixedLists("a", "x", "b") + "</ol>"
  {
    SampleLines(ops);
    SampleAsWritten(ops, "- a\nx\n1. b");
    SampleCorrected(ops, "- a\nx\n1. b");
  }

  lemma SampleAsWritten(ops: TextOps, m: string)
    requires m != "" && ClassifyAll(ops, Split(ops.inline(m), '\n')) == [Entry(Bulleted, "a"), Para("x"), Entry(Ordered, "b")]
    ensures FormatMessageAsWritten(ops, Some(m)) == MixedLists("a", "x", "b") + "</ul>"
  {
    MixedListsAsWritten("a", "x", "b");
  }

  lemma SampleCorrected(ops: TextOps, m: string)
    requires m != "" && ClassifyAll(ops, Split(ops.inline(m), '\n')) == [Entry(Bulleted, "a"), Para("x"), Entry(Ordered, "b")]
    ensures FormatMessageOf(ops, Some(m)) == MixedLists("a", "x", "b") + "</ol>"
  {
    MixedListsCorrected("a", "x", "b");
  }

  lemma SampleLines(ops: TextOps)
    ensures ClassifyAll(ops, Split("- a\nx\n1. b", '\n')) == [Entry(Bulleted, "a"), Para("x"), Entry(Ordered, "b")]
  {
    SampleSplit();
    ClassifySample(ops);
    ClassifyThree(ops, "- a", "x", "1. b");
  }

  lemma ClassifyThree(ops: TextOps, a: string, b: string, c: string)
    ensures ClassifyAll(ops, [a, b, c]) == [Classify(ops, a), Classify(ops, b), Classify(ops, c)]
  {
  }

  lemma SampleSplit()
    ensures Split("- a\nx\n1. b", '\n') == ["- a", "x", "1. b"]
  {
    var lines := ["- a", "x", "1. b"];
    assert Join(lines, '\n') == "- a\nx\n1. b";
    SplitJoin(lines, '\n');
  }

  lemma ClassifySample(ops: TextOps)
    ensures Classify(ops, "- a") == Entry(Bulleted, "a")
    ensures Classify(ops, "x") == Para("x")
    ensures Classify(ops, "1. b") == Entry(Ordered, "b")
  {
    ClassifyBullet(ops);
    ClassifyPara(ops);
    ClassifyNumbered(ops);
  }

  /** A line with no white space at either end is its own trim. */
  lemma TrimPlain(s: string)
    requires |s| > 0 && !IsSpace(s[0]) && !IsSpace(s[|s| - 1])
    ensures Trim(s) == s
  {
    assert SkipSpaces(s) == s;
    TrimEndKeeps(s);
  }

  lemma SkipOneSpace(c: char)
    requires !IsSpace(c)
    ensures SkipSpaces([' ', c]) == [c]
  {
    assert [' ', c][1..] == [c];
    assert SkipSpaces([c]) == [c];
  }

  lemma NumberedSample()
    ensures NumberedItem("1. b") == Some("b")
  {
    var s := "1. b";
    assert s[1..] == ". b";
    assert DigitRun(". b") == 0;
    assert DigitRun(s) == 1;
    SkipOneSpace('b');
    assert s[2..] == " b";
  }

  lemma BulletSample()
    ensures BulletItem("- a") == Some("a")
  {
    SkipOneSpace('a');
    assert "- a"[1..] == " a";
  }

  /** A line already trimmed and without emoji is classified as it stands. */
  lemma ClassifyPlain(ops: TextOps, s: string)
    requires |s| > 0 && !IsSpace(s[0]) && !IsSpace(s[|s| - 1])
    requires forall i :: 0 <= i < |s| ==> !IsEmojiStart(s[i])
    ensures Classify(ops, s) == Kind(ops, s)
  {
    TrimPlain(s);
    EmojiSpacingNoEmoji(s);
  }

  lemma ClassifyBullet(ops: TextOps)
    ensures Classify(ops, "- a") == Entry(Bulleted, "a")
  {
    ClassifyPlain(ops, "- a");
    BulletSample();
    assert DigitRun("- a") == 0;
  }

  lemma ClassifyPara(ops: TextOps)
    ensures Classify(ops, "x") == Para("x")
  {
    ClassifyPlain(ops, "x");
    ParaSample(ops);
  }

  lemma ParaSample(ops: TextOps)
    ensures Kind(ops, "x") == Para("x")
  {
    assert DigitRun("x") == 0;
    assert Utf16Length("x") == 1;
  }

  lemma ClassifyNumbered(ops: TextOps)
    ensures Classify(ops, "1. b") == Entry(Ordered, "b")
  {
    ClassifyPlain(ops, "1. b");
    NumberedSample();
  }
}

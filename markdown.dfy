/** The reply renderer: the inline bold rule, the classification of one
    line, the grouping of consecutive list items into lists, and the
    line-by-line rendering loop with its list buffer. Rendered elements are
    values: a list with the HTML of its items, a heading with its HTML level,
    or a paragraph. */
module Markdown {
  import opened Types
  import opened JsText

  // ---------------------------------------------------------------------
  // Inline bold: `line.replace(/\*\*(.*?)\*\*/g, '<strong>$1</strong>')`
  // ---------------------------------------------------------------------

  const OpenTag := "<strong>"
  const CloseTag := "</strong>"

  /** The bold element that replaces one match: `<strong>$1</strong>`. */
  function Bold(inner: string): string {
    OpenTag + inner + CloseTag
  }

  /** Two asterisks start at `k`. */
  predicate StarPairAt(s: string, k: nat) {
    k + 2 <= |s| && s[k] == '*' && s[k + 1] == '*'
  }

  /** `.` matches every character of `s[a..b]`. */
  predicate NoTerminator(s: string, a: nat, b: nat)
    requires a <= b <= |s|
  {
    forall k :: a <= k < b ==> !IsLineTerminator(s[k])
  }

  /** The lazy `(.*?)\*\*` from `from`: the first position at or after `from`
      where two asterisks start, as long as no line terminator comes before
      it; none when a terminator or the end comes first. */
  function CloseFrom(s: string, from: nat): (r: Option<nat>)
    ensures r.Some? ==> from <= r.value && StarPairAt(s, r.value)
    decreases |s| - from
  {
    if StarPairAt(s, from) then Some(from)
    else if from >= |s| || IsLineTerminator(s[from]) then None
    else CloseFrom(s, from + 1)
  }

  /** The closing pair found is the first one after `from`, with no line
      terminator before it; when none is found, every later pair has a
      terminator before it. */
  lemma {:induction false} CloseFromMeaning(s: string, from: nat)
    ensures CloseFrom(s, from).Some? ==> NoTerminator(s, from, CloseFrom(s, from).value)
    ensures CloseFrom(s, from).Some? ==> forall k :: from <= k < CloseFrom(s, from).value ==> !StarPairAt(s, k)
    ensures CloseFrom(s, from).None? ==> forall k :: from <= k && StarPairAt(s, k) ==> !NoTerminator(s, from, k)
    decreases |s| - from
  {
    if !StarPairAt(s, from) && from < |s| && !IsLineTerminator(s[from]) {
      CloseFromMeaning(s, from + 1);
    }
  }

  /** The regular expression matched at `i`: the position of the closing
      asterisks, if the match succeeds there. */
  function MatchAt(s: string, i: nat): (r: Option<nat>)
    ensures r.Some? ==> StarPairAt(s, i) && i + 2 <= r.value && r.value + 2 <= |s|
  {
    if StarPairAt(s, i) then CloseFrom(s, i + 2) else None
  }

  /** Global replacement scans left to right from position `p`: where a
      match starts it is replaced and the scan resumes after it, otherwise
      one character is kept and the scan moves on by one. */
  function ParseFrom(s: string, p: nat): string
    decreases |s| - p, 1
  {
    if p >= |s| then []
    else
      match MatchAt(s, p)
      case Some(j) => ReplaceThen(s, p, j)
      case None => [s[p]] + ParseFrom(s, p + 1)
  }

  /** The bold element for the match from `p` to `j`, then the scan after it. */
  function ReplaceThen(s: string, p: nat, j: nat): string
    requires MatchAt(s, p) == Some(j)
    decreases |s| - p, 0
  {
    Bold(s[p + 2..j]) + ParseFrom(s, j + 2)
  }

  /** The global bold replacement of a whole line: the scan from the first
      position. */
  function ParseInline(s: string): string {
    ParseFrom(s, 0)
  }

  /** Without a match from `p` on, the scan copies what is left. */
  lemma {:induction false} NoMatchFrom(s: string, p: nat)
    requires p <= |s|
    requires forall i :: p <= i < |s| ==> MatchAt(s, i).None?
    ensures ParseFrom(s, p) == s[p..]
    decreases |s| - p
  {
    if p < |s| {
      NoMatchFrom(s, p + 1);
      assert s[p..] == [s[p]] + s[p + 1..];
    }
  }

  /** Without a match anywhere the line comes back unchanged; this covers a
      lone or unclosed pair of asterisks. */
  lemma NoMatchUnchanged(s: string)
    requires forall i :: 0 <= i < |s| ==> MatchAt(s, i).None?
    ensures ParseInline(s) == s
  {
    NoMatchFrom(s, 0);
    assert s[0..] == s;
  }

  /** From `p`, the text up to the first match at `i` is kept, and the
      match is replaced there. */
  lemma {:induction false} FirstMatchFrom(s: string, p: nat, i: nat, j: nat)
    requires p <= i && MatchAt(s, i) == Some(j)
    requires forall k :: p <= k < i ==> MatchAt(s, k).None?
    ensures ParseFrom(s, p) == s[p..i] + ReplaceThen(s, i, j)
    decreases i - p
  {
    if p < i {
      KeepAt(s, p);
      FirstMatchFrom(s, p + 1, i, j);
      KeepPrefix(s, p, i, ParseFrom(s, p + 1), ReplaceThen(s, i, j));
    } else {
      ReplaceAt(s, i, j);
    }
  }

  /** Without a match at `p` the character there is copied. */
  lemma KeepAt(s: string, p: nat)
    requires p < |s| && MatchAt(s, p).None?
    ensures ParseFrom(s, p) == [s[p]] + ParseFrom(s, p + 1)
  {
  }

  /** A match at `i` is replaced straight away. */
  lemma ReplaceAt(s: string, i: nat, j: nat)
    requires MatchAt(s, i) == Some(j)
    ensures ParseFrom(s, i) == s[i..i] + ReplaceThen(s, i, j)
  {
    var r := ReplaceThen(s, i, j);
    assert ParseFrom(s, i) == r;
    assert s[i..i] + r == r;
  }

  /** Putting the copied character back in front of the text after it. */
  lemma KeepPrefix(s: string, p: nat, i: nat, after: string, tail: string)
    requires p < i <= |s|
    requires after == s[p + 1..i] + tail
    ensures [s[p]] + after == s[p..i] + tail
  {
    assert [s[p]] + s[p + 1..i] == s[p..i];
  }

  /** The leftmost match of the line is replaced by the bold element holding
      the text between the asterisk pairs; the text before it is kept and
      the scan resumes after the closing pair. */
  lemma ParseInlineFirstMatch(s: string, i: nat, j: nat)
    requires MatchAt(s, i) == Some(j)
    requires forall k :: 0 <= k < i ==> MatchAt(s, k).None?
    ensures ParseInline(s) == s[..i] + Bold(s[i + 2..j]) + ParseFrom(s, j + 2)
  {
    FirstMatchFrom(s, 0, i, j);
    assert s[0..i] == s[..i];
    ReplaceThenBold(s, i, j);
    assert s[..i] + (Bold(s[i + 2..j]) + ParseFrom(s, j + 2)) == s[..i] + Bold(s[i + 2..j]) + ParseFrom(s, j + 2);
  }

  /** The replacement step spelled out: the bold element, then the scan
      after the closing pair. */
  lemma ReplaceThenBold(s: string, i: nat, j: nat)
    requires MatchAt(s, i) == Some(j)
    ensures ReplaceThen(s, i, j) == Bold(s[i + 2..j]) + ParseFrom(s, j + 2)
  {
  }

  /** Text without asterisks is left alone. */
  lemma NoStarsUnchanged(s: string)
    requires '*' !in s
    ensures ParseInline(s) == s
  {
    forall i | 0 <= i < |s| ensures MatchAt(s, i).None? {
      assert s[i] in s;
    }
    NoMatchUnchanged(s);
  }

  lemma BoldExample()
    ensures ParseInline("**bold**") == "<strong>bold</strong>"
  {
    var s := "**bold**";
    assert MatchAt(s, 0) == Some(6) by {
      assert CloseFrom(s, 2) == CloseFrom(s, 3) == CloseFrom(s, 4) == CloseFrom(s, 5) == CloseFrom(s, 6);
    }
    assert s[2..6] == "bold";
    assert s[8..] == [];
  }

  /** The lazy group stops at the first closing pair, so a lone opening pair
      before it is kept as text. */
  lemma {:induction false} LazyCloseExample()
    ensures MatchAt("**a**b**", 0) == Some(3)
  {
    var s := "**a**b**";
    assert !StarPairAt(s, 2);
    assert StarPairAt(s, 3);
  }

  /** A carriage return between the pairs stops the match. */
  lemma {:induction false} CarriageReturnStopsBold()
    ensures MatchAt("**a\rb**", 0).None?
  {
    var s := "**a\rb**";
    assert !StarPairAt(s, 2) && !StarPairAt(s, 3);
    assert IsLineTerminator(s[3]);
  }

  // ---------------------------------------------------------------------
  // Line classification
  // ---------------------------------------------------------------------

  datatype ListKind = Bullet | Numbered

  /** One rendered element. `level` is the HTML heading level (2 to 4). */
  datatype Block =
    | List(kind: ListKind, items: seq<string>)
    | Heading(level: nat, html: string)
    | Paragraph(html: string)

  /** What one line contributes. */
  datatype LineKind =
    | Item(kind: ListKind, html: string)
    | HeadingLine(level: nat, html: string)
    | ParagraphLine(html: string)
    | BlankLine

  /** `line.startsWith('* ') || line.startsWith('- ')` */
  predicate IsBulletLine(line: string) {
    "* " <= line || "- " <= line
  }

  /** The number of decimal digits `line` starts with. */
  function LeadingDigits(s: string): (d: nat)
    ensures d <= |s|
    ensures forall k :: 0 <= k < d ==> IsDigit(s[k])
    ensures d < |s| ==> !IsDigit(s[d])
  {
    if s != [] && IsDigit(s[0]) then 1 + LeadingDigits(s[1..]) else 0
  }

  /** `/^\d+\.\s/.test(line)`, decided on the digits the line starts with. */
  predicate IsNumberedLine(line: string) {
    var d := LeadingDigits(line);
    1 <= d && d + 2 <= |line| && line[d] == '.' && IsWhitespace(line[d + 1])
  }

  /** The length of the marker `line.replace(/^\d+\.\s/, '')` removes. */
  function MarkerLength(line: string): (n: nat)
    requires IsNumberedLine(line)
    ensures 3 <= n <= |line|
    ensures n == LeadingDigits(line) + 2 && line[n - 2] == '.' && IsWhitespace(line[n - 1])
  {
    LeadingDigits(line) + 2
  }

  /** The regular expression `^\d+\.\s` succeeds exactly when some run of at
      least one digit at the start is followed by a dot and whitespace; the
      greedy run of all leading digits is the only such run. */
  lemma NumberedLineMeaning(line: string)
    ensures IsNumberedLine(line) <==>
            exists d :: 1 <= d && d + 2 <= |line| && (forall k :: 0 <= k < d ==> IsDigit(line[k]))
                        && line[d] == '.' && IsWhitespace(line[d + 1])
  {
    var n := LeadingDigits(line);
    if !IsNumberedLine(line) {
      forall d | 1 <= d && d + 2 <= |line| && (forall k :: 0 <= k < d ==> IsDigit(line[k])) && line[d] == '.'
        ensures !IsWhitespace(line[d + 1])
      {
        assert d == n;
      }
    }
  }

  /** How one line renders, following the handler's order of tests: list
      items first, then the three heading markers, then any line that is not
      blank. */
  function Classify(line: string): (r: LineKind)
    ensures r.BlankLine? <==> AllWhitespace(line)
    ensures r.Item? && r.kind == Bullet <==> IsBulletLine(line)
    ensures r.Item? && r.kind == Numbered <==> IsNumberedLine(line)
    ensures IsBulletLine(line) ==> r.html == ParseInline(line[2..])
    ensures IsNumberedLine(line) ==> r.html == ParseInline(line[MarkerLength(line)..])
    ensures "### " <= line ==> r == HeadingLine(4, ParseInline(line[4..]))
    ensures "## " <= line ==> r == HeadingLine(3, ParseInline(line[3..]))
    ensures "# " <= line ==> r == HeadingLine(2, ParseInline(line[2..]))
    ensures r.HeadingLine? ==> "### " <= line || "## " <= line || "# " <= line
    ensures r.ParagraphLine? ==> r.html == ParseInline(line)
  {
    MarkedLineIsVisible(line);
    TrimMeaning(line);
    BulletIsNotNumbered(line);
    HeadingMarkersDiffer(line);
    if IsBulletLine(line) then Item(Bullet, ParseInline(line[2..]))
    else if IsNumberedLine(line) then Item(Numbered, ParseInline(line[MarkerLength(line)..]))
    else if "### " <= line then HeadingLine(4, ParseInline(line[4..]))
    else if "## " <= line then HeadingLine(3, ParseInline(line[3..]))
    else if "# " <= line then HeadingLine(2, ParseInline(line[2..]))
    else if Trim(line) != "" then ParagraphLine(ParseInline(line))
    else BlankLine
  }

  /** The two list markers exclude each other: a numbered line starts
      with a digit. */
  lemma BulletIsNotNumbered(line: string)
    ensures !(IsBulletLine(line) && IsNumberedLine(line))
  {
    if IsNumberedLine(line) {
      assert IsDigit(line[0]);
    }
  }

  /** At most one heading marker starts a line, and none starts a list
      line. */
  lemma HeadingMarkersDiffer(line: string)
    ensures "## " <= line ==> !("### " <= line)
    ensures "# " <= line ==> !("## " <= line) && !("### " <= line)
    ensures "### " <= line || "## " <= line || "# " <= line ==> !IsBulletLine(line) && !IsNumberedLine(line)
  {
    if "### " <= line || "## " <= line || "# " <= line {
      assert line[0] == '#';
    }
    if "## " <= line {
      assert line[2] == ' ';
    }
    if "# " <= line {
      assert line[1] == ' ';
    }
  }

  /** A line with a list or heading marker is not blank. */
  lemma MarkedLineIsVisible(line: string)
    ensures IsBulletLine(line) || IsNumberedLine(line) || "### " <= line || "## " <= line || "# " <= line
            ==> !AllWhitespace(line)
  {
    if line != [] && !IsWhitespace(line[0]) {
      assert !AllWhitespace(line);
    }
  }

  /** A numbered item loses its marker, however many digits it has. */
  lemma NumberedExample()
    ensures Classify("12. x") == Item(Numbered, "x")
  {
    assert LeadingDigits("12. x") == 2 by {
      assert "12. x"[1..] == "2. x";
      assert "2. x"[1..] == ". x";
    }
    assert "12. x"[4..] == "x";
    NoStarsUnchanged("x");
  }

  /** A visible line with no list or heading marker is a paragraph of its
      own text. */
  lemma ParagraphLineOf(line: string)
    requires !IsBulletLine(line) && !IsNumberedLine(line)
    requires !("### " <= line) && !("## " <= line) && !("# " <= line)
    requires !AllWhitespace(line)
    ensures Classify(line) == ParagraphLine(ParseInline(line))
  {
    TrimMeaning(line);
  }

  /** Without whitespace after the dot the line is a paragraph. */
  lemma DotWithoutSpaceExample()
    ensures Classify("1.x") == ParagraphLine("1.x")
  {
    var line := "1.x";
    assert LeadingDigits(line) == 1 by {
      assert line[1..] == ".x";
    }
    assert !IsNumberedLine(line) by { assert !IsWhitespace(line[2]); }
    assert !AllWhitespace(line) by { assert !IsWhitespace(line[0]); }
    ParagraphLineOf(line);
    NoStarsUnchanged(line);
  }

  /** A heading marker needs its space. */
  lemma HashWithoutSpaceExample()
    ensures Classify("#T") == ParagraphLine("#T")
  {
    var line := "#T";
    assert LeadingDigits(line) == 0;
    assert !("# " <= line) by { assert line[1] != ' '; }
    assert !AllWhitespace(line) by { assert !IsWhitespace(line[0]); }
    ParagraphLineOf(line);
    NoStarsUnchanged(line);
  }

  function LineKinds(lines: seq<string>): (ts: seq<LineKind>)
    ensures |ts| == |lines| && forall j :: 0 <= j < |lines| ==> ts[j] == Classify(lines[j])
  {
    seq(|lines|, j requires 0 <= j < |lines| => Classify(lines[j]))
  }

  // ---------------------------------------------------------------------
  // Grouping: the reference definition of the rendered elements
  // ---------------------------------------------------------------------

  /** The texts of the items of kind `k` that `ts` starts with. */
  function RunItems(ts: seq<LineKind>, k: ListKind): (r: seq<string>)
    ensures |r| <= |ts|
  {
    if ts != [] && ts[0].Item? && ts[0].kind == k then [ts[0].html] + RunItems(ts[1..], k) else []
  }

  /** The run consists of items of kind `k`, with their texts in order. */
  lemma {:induction false} RunItemsAreItems(ts: seq<LineKind>, k: ListKind)
    ensures forall j :: 0 <= j < |RunItems(ts, k)| ==> ts[j] == Item(k, RunItems(ts, k)[j])
  {
    if ts != [] && ts[0].Item? && ts[0].kind == k {
      RunItemsAreItems(ts[1..], k);
    }
  }

  /** What follows that run. */
  function AfterRun(ts: seq<LineKind>, k: ListKind): (r: seq<LineKind>)
    ensures |r| <= |ts|
    ensures r == [] || !(r[0].Item? && r[0].kind == k)
  {
    if ts != [] && ts[0].Item? && ts[0].kind == k then AfterRun(ts[1..], k) else ts
  }

  /** The rendered elements of a sequence of lines: a maximal run of items
      of one kind makes one list; headings and paragraphs make one element
      each; blank lines make none (but do end a run). */
  function Blocks(ts: seq<LineKind>): seq<Block>
    decreases |ts|
  {
    if ts == [] then []
    else
      match ts[0]
      case BlankLine => Blocks(ts[1..])
      case HeadingLine(level, html) => [Heading(level, html)] + Blocks(ts[1..])
      case ParagraphLine(html) => [Paragraph(html)] + Blocks(ts[1..])
      case Item(k, html) => [List(k, [html] + RunItems(ts[1..], k))] + Blocks(AfterRun(ts[1..], k))
  }

  /** Every list holds at least one item. */
  lemma {:induction false} NoEmptyList(ts: seq<LineKind>)
    ensures forall b :: b in Blocks(ts) && b.List? ==> |b.items| > 0
    decreases |ts|
  {
    if ts != [] {
      NoEmptyList(ts[1..]);
      if ts[0].Item? {
        NoEmptyList(AfterRun(ts[1..], ts[0].kind));
      }
    }
  }

  /** The text of each non-blank line, in order. */
  function LineTexts(ts: seq<LineKind>): seq<string> {
    if ts == [] then []
    else (if ts[0].BlankLine? then [] else [ts[0].html]) + LineTexts(ts[1..])
  }

  /** The text of each item and of each heading and paragraph, in order. */
  function BlockTexts(bs: seq<Block>): seq<string> {
    if bs == [] then []
    else (if bs[0].List? then bs[0].items else [bs[0].html]) + BlockTexts(bs[1..])
  }

  lemma {:induction false} BlockTextsAppend(a: seq<Block>, b: seq<Block>)
    ensures BlockTexts(a + b) == BlockTexts(a) + BlockTexts(b)
  {
    if a == [] {
      assert a + b == b;
    } else {
      assert (a + b)[1..] == a[1..] + b;
      BlockTextsAppend(a[1..], b);
    }
  }

  /** The run and what follows it make up the whole sequence. */
  lemma {:induction false} RunSplit(ts: seq<LineKind>, k: ListKind)
    ensures AfterRun(ts, k) == ts[|RunItems(ts, k)|..]
  {
    if ts != [] && ts[0].Item? && ts[0].kind == k {
      RunSplit(ts[1..], k);
    }
  }

  lemma {:induction false} RunTexts(ts: seq<LineKind>, k: ListKind)
    ensures LineTexts(ts) == RunItems(ts, k) + LineTexts(AfterRun(ts, k))
  {
    if ts != [] && ts[0].Item? && ts[0].kind == k {
      RunTexts(ts[1..], k);
      ConsAppend(ts[0].html, RunItems(ts[1..], k), LineTexts(AfterRun(ts[1..], k)));
    }
  }

  lemma ConsAppend(h: string, a: seq<string>, b: seq<string>)
    ensures [h] + (a + b) == ([h] + a) + b
  {
  }

  /** Grouping loses, adds and reorders no text: reading the elements in
      order gives the text of every non-blank line in order. */
  lemma {:induction false} BlocksKeepText(ts: seq<LineKind>)
    ensures BlockTexts(Blocks(ts)) == LineTexts(ts)
    decreases |ts|
  {
    if ts != [] {
      var rest := ts[1..];
      match ts[0]
      case BlankLine =>
        BlocksKeepText(rest);
      case HeadingLine(level, html) =>
        BlocksKeepText(rest);
        BlockTextsAppend([Heading(level, html)], Blocks(rest));
      case ParagraphLine(html) =>
        BlocksKeepText(rest);
        BlockTextsAppend([Paragraph(html)], Blocks(rest));
      case Item(k, html) =>
        var after := AfterRun(rest, k);
        BlocksKeepText(after);
        RunTexts(rest, k);
        var head := [List(k, [html] + RunItems(rest, k))];
        BlockTextsAppend(head, Blocks(after));
        assert BlockTexts(head) == [html] + RunItems(rest, k);
    }
  }

  /** Consecutive items of one kind make a single list. */
  lemma {:induction false} OneRunOneList(ts: seq<LineKind>, k: ListKind)
    requires |ts| > 0
    requires forall j :: 0 <= j < |ts| ==> ts[j].Item? && ts[j].kind == k
    ensures Blocks(ts) == [List(k, LineTexts(ts))]
  {
    var rest := ts[1..];
    assert forall j :: 0 <= j < |rest| ==> rest[j] == ts[j + 1];
    AllOfKind(rest, k);
    RunTexts(rest, k);
    assert LineTexts(ts) == [ts[0].html] + LineTexts(rest);
    assert RunItems(rest, k) + [] == RunItems(rest, k);
  }

  lemma {:induction false} AllOfKind(ts: seq<LineKind>, k: ListKind)
    requires forall j :: 0 <= j < |ts| ==> ts[j].Item? && ts[j].kind == k
    ensures AfterRun(ts, k) == [] && LineTexts(AfterRun(ts, k)) == []
  {
    if ts != [] {
      AllOfKind(ts[1..], k);
    }
  }

  /** The number of list items among the elements. */
  function ItemCount(bs: seq<Block>): nat {
    if bs == [] then 0 else (if bs[0].List? then |bs[0].items| else 0) + ItemCount(bs[1..])
  }

  /** The number of headings and paragraphs among the elements. */
  function SingleCount(bs: seq<Block>): nat {
    if bs == [] then 0 else (if bs[0].List? then 0 else 1) + SingleCount(bs[1..])
  }

  /** The number of list lines. */
  function ItemLines(ts: seq<LineKind>): nat {
    if ts == [] then 0 else (if ts[0].Item? then 1 else 0) + ItemLines(ts[1..])
  }

  /** The number of heading and paragraph lines. */
  function TextLines(ts: seq<LineKind>): nat {
    if ts == [] then 0 else (if ts[0].HeadingLine? || ts[0].ParagraphLine? then 1 else 0) + TextLines(ts[1..])
  }

  lemma CountCons(b: Block, bs: seq<Block>)
    ensures ItemCount([b] + bs) == (if b.List? then |b.items| else 0) + ItemCount(bs)
    ensures SingleCount([b] + bs) == (if b.List? then 0 else 1) + SingleCount(bs)
  {
    assert ([b] + bs)[1..] == bs;
  }

  /** A run holds only list lines. */
  lemma {:induction false} RunCounts(ts: seq<LineKind>, k: ListKind)
    ensures ItemLines(ts) == |RunItems(ts, k)| + ItemLines(AfterRun(ts, k))
    ensures TextLines(ts) == TextLines(AfterRun(ts, k))
  {
    if ts != [] && ts[0].Item? && ts[0].kind == k {
      RunCounts(ts[1..], k);
    }
  }

  /** As many list items as list lines, and as many headings and
      paragraphs as heading and paragraph lines. */
  lemma {:induction false} BlocksCount(ts: seq<LineKind>)
    ensures ItemCount(Blocks(ts)) == ItemLines(ts)
    ensures SingleCount(Blocks(ts)) == TextLines(ts)
    decreases |ts|
  {
    if ts != [] {
      var rest := ts[1..];
      match ts[0]
      case BlankLine =>
        BlocksCount(rest);
      case HeadingLine(level, html) =>
        BlocksCount(rest);
        CountCons(Heading(level, html), Blocks(rest));
      case ParagraphLine(html) =>
        BlocksCount(rest);
        CountCons(Paragraph(html), Blocks(rest));
      case Item(k, html) =>
        var after := AfterRun(rest, k);
        BlocksCount(after);
        RunCounts(rest, k);
        CountCons(List(k, [html] + RunItems(rest, k)), Blocks(after));
    }
  }

  /** A single item renders as a one-item list. */
  lemma SingleItem(k: ListKind, html: string)
    ensures Blocks([Item(k, html)]) == [List(k, [html])]
  {
    var ts := [Item(k, html)];
    assert ts[1..] == [];
    assert Blocks(ts) == [List(k, [html] + RunItems(ts[1..], k))] + Blocks(AfterRun(ts[1..], k));
    assert RunItems([], k) == [] && AfterRun([], k) == [] && Blocks([]) == [];
    assert [html] + [] == [html];
  }

  /** A blank line between two bullets ends the first list: two lists. */
  lemma BlankLineSplitsList()
    ensures Blocks([Item(Bullet, "a"), BlankLine, Item(Bullet, "b")]) == [List(Bullet, ["a"]), List(Bullet, ["b"])]
  {
    var ts := [Item(Bullet, "a"), BlankLine, Item(Bullet, "b")];
    var rest := ts[1..];
    assert rest == [BlankLine, Item(Bullet, "b")];
    assert RunItems(rest, Bullet) == [] && AfterRun(rest, Bullet) == rest;
    assert rest[1..] == [Item(Bullet, "b")];
    SingleItem(Bullet, "b");
    assert Blocks(rest) == [List(Bullet, ["b"])];
    assert ["a"] + [] == ["a"];
  }

  /** A change of marker kind starts a new list. */
  lemma KindChangeSplitsList()
    ensures Blocks([Item(Bullet, "a"), Item(Numbered, "b")]) == [List(Bullet, ["a"]), List(Numbered, ["b"])]
  {
    var ts := [Item(Bullet, "a"), Item(Numbered, "b")];
    var rest := ts[1..];
    assert rest == [Item(Numbered, "b")];
    assert RunItems(rest, Bullet) == [] && AfterRun(rest, Bullet) == rest;
    SingleItem(Numbered, "b");
    assert ["a"] + [] == ["a"];
  }

  // ---------------------------------------------------------------------
  // The rendering loop
  // ---------------------------------------------------------------------

  /** The elements still to come when the list buffer holds `listItems` of
      kind `listType` and `rest` is left to read. */
  function Continue(listType: Option<ListKind>, listItems: seq<string>, rest: seq<LineKind>): seq<Block> {
    match listType
    case None => Blocks(rest)
    case Some(k) => [List(k, listItems + RunItems(rest, k))] + Blocks(AfterRun(rest, k))
  }

  /** `flushList`: a non-empty buffer becomes a list element of its kind and
      the buffer is emptied; an empty buffer changes nothing. */
  method FlushList(elements: seq<Block>, listType: Option<ListKind>, listItems: seq<string>)
    returns (elements': seq<Block>, listType': Option<ListKind>, listItems': seq<string>)
    ensures listItems == [] ==> elements' == elements && listType' == listType && listItems' == []
    ensures listItems != [] ==> listType' == None && listItems' == []
    ensures listItems != [] && listType.Some? ==> elements' == elements + [List(listType.value, listItems)]
    ensures listItems != [] && listType.None? ==> elements' == elements
  {
    elements', listType', listItems' := elements, listType, listItems;
    if |listItems'| > 0 {
      if listType'.Some? && listType'.value.Bullet? {
        elements' := elements' + [List(Bullet, listItems')];
      } else if listType'.Some? && listType'.value.Numbered? {
        elements' := elements' + [List(Numbered, listItems')];
      }
      listItems' := [];
      listType' := None;
    }
  }

  /** A line that does not continue the buffered list ends it. */
  lemma ContinueFlushed(k: ListKind, listItems: seq<string>, rest: seq<LineKind>)
    requires rest != [] && !(rest[0].Item? && rest[0].kind == k)
    ensures Continue(Some(k), listItems, rest) == [List(k, listItems)] + Blocks(rest)
  {
    assert listItems + [] == listItems;
  }

  /** An item of the buffered kind joins the buffer. */
  lemma ContinueSameKind(k: ListKind, listItems: seq<string>, rest: seq<LineKind>)
    requires rest != [] && rest[0].Item? && rest[0].kind == k
    ensures Continue(Some(k), listItems, rest) == Continue(Some(k), listItems + [rest[0].html], rest[1..])
  {
    assert listItems + ([rest[0].html] + RunItems(rest[1..], k)) == (listItems + [rest[0].html]) + RunItems(rest[1..], k);
  }

  /** An item with an empty buffer opens one. */
  lemma ContinueOpens(rest: seq<LineKind>)
    requires rest != [] && rest[0].Item?
    ensures Continue(None, [], rest) == Continue(Some(rest[0].kind), [rest[0].html], rest[1..])
  {
  }

  /** The body of the per-line callback: which buffer and elements one line
      leaves behind. `rest` stands for the lines still to come. */
  method RenderLine(elements: seq<Block>, listType: Option<ListKind>, listItems: seq<string>, line: string,
                    ghost rest: seq<LineKind>)
    returns (elements': seq<Block>, listType': Option<ListKind>, listItems': seq<string>)
    requires listType.None? <==> listItems == []
    ensures listType'.None? <==> listItems' == []
    ensures elements' + Continue(listType', listItems', rest)
            == elements + Continue(listType, listItems, [Classify(line)] + rest)
  {
    ghost var all := [Classify(line)] + rest;
    elements', listType', listItems' := elements, listType, listItems;
    var isUl := IsBulletLine(line);
    var isOl := IsNumberedLine(line);
    if (isUl && listType' == Some(Numbered)) || (isOl && listType' == Some(Bullet)) || (!isUl && !isOl) {
      if listType'.Some? {
        ContinueFlushed(listType'.value, listItems', all);
        assert (elements' + [List(listType'.value, listItems')]) + Blocks(all)
               == elements' + ([List(listType'.value, listItems')] + Blocks(all));
      }
      elements', listType', listItems' := FlushList(elements', listType', listItems');
    }
    if isUl || isOl {
      listType', listItems' := PushItem(listType', listItems', line, rest);
    } else {
      elements' := EmitLine(elements', line, rest);
    }
  }

  /** A list line joins the buffer, opening it with the line's kind when it
      is empty. */
  method PushItem(listType: Option<ListKind>, listItems: seq<string>, line: string, ghost rest: seq<LineKind>)
    returns (listType': Option<ListKind>, listItems': seq<string>)
    requires IsBulletLine(line) || IsNumberedLine(line)
    requires listType.None? <==> listItems == []
    requires listType.Some? ==> listType.value == Classify(line).kind
    ensures listType'.Some? && listItems' != []
    ensures Continue(listType', listItems', rest) == Continue(listType, listItems, [Classify(line)] + rest)
  {
    ghost var all := [Classify(line)] + rest;
    assert all[0] == Classify(line) && all[1..] == rest;
    var isUl := IsBulletLine(line);
    var isOl := IsNumberedLine(line);
    listType', listItems' := listType, listItems;
    if isUl && listType'.None? {
      listType' := Some(Bullet);
    }
    if isOl && listType'.None? {
      listType' := Some(Numbered);
    }
    if listItems == [] {
      ContinueOpens(all);
      assert [] + [Classify(line).html] == [Classify(line).html];
    } else {
      ContinueSameKind(listType.value, listItems, all);
    }
    if isUl {
      listItems' := listItems' + [ParseInline(line[2..])];
    } else {
      listItems' := listItems' + [ParseInline(line[MarkerLength(line)..])];
    }
  }

  /** A line that is not a list line: a heading or a paragraph element, or
      nothing for a blank line. */
  method EmitLine(elements: seq<Block>, line: string, ghost rest: seq<LineKind>) returns (elements': seq<Block>)
    requires !IsBulletLine(line) && !IsNumberedLine(line)
    ensures elements' + Blocks(rest) == elements + Blocks([Classify(line)] + rest)
  {
    BlocksOfLine(elements, Classify(line), rest);
    TrimMeaning(line);
    if "### " <= line {
      elements' := elements + [Heading(4, ParseInline(line[4..]))];
    } else if "## " <= line {
      elements' := elements + [Heading(3, ParseInline(line[3..]))];
    } else if "# " <= line {
      elements' := elements + [Heading(2, ParseInline(line[2..]))];
    } else if Trim(line) != "" {
      elements' := elements + [Paragraph(ParseInline(line))];
    } else {
      elements' := elements;
    }
  }

  /** A heading, paragraph or blank line read with an empty buffer. */
  lemma BlocksOfLine(elements: seq<Block>, t: LineKind, rest: seq<LineKind>)
    requires !t.Item?
    ensures t.HeadingLine? ==> elements + Blocks([t] + rest) == (elements + [Heading(t.level, t.html)]) + Blocks(rest)
    ensures t.ParagraphLine? ==> elements + Blocks([t] + rest) == (elements + [Paragraph(t.html)]) + Blocks(rest)
    ensures t.BlankLine? ==> elements + Blocks([t] + rest) == elements + Blocks(rest)
  {
    assert ([t] + rest)[0] == t && ([t] + rest)[1..] == rest;
  }

  /** `MarkdownRenderer`: splits the text into lines and renders them one by
      one, keeping the items of the current list in a buffer that is flushed
      when a line does not continue it and at the end. The result is the
      grouping of the classified lines. */
  method Render(text: string) returns (elements: seq<Block>)
    ensures elements == Blocks(LineKinds(Split(text, '\n')))
  {
    var lines := Split(text, '\n');
    ghost var ts := LineKinds(lines);
    elements := [];
    var listItems: seq<string> := [];
    var listType: Option<ListKind> := None;
    var i := 0;
    while i < |lines|
      invariant 0 <= i <= |lines|
      invariant listType.None? <==> listItems == []
      invariant Blocks(ts) == elements + Continue(listType, listItems, ts[i..])
    {
      NextLine(lines, i);
      elements, listType, listItems := RenderLine(elements, listType, listItems, lines[i], ts[i + 1..]);
      i := i + 1;
    }
    assert ts[i..] == [];
    ContinueAtEnd(listType, listItems);
    elements, listType, listItems := FlushList(elements, listType, listItems);
  }

  /** The classified lines from `i` on are line `i` followed by the rest. */
  lemma NextLine(lines: seq<string>, i: nat)
    requires i < |lines|
    ensures LineKinds(lines)[i..] == [Classify(lines[i])] + LineKinds(lines)[i + 1..]
  {
  }

  /** At the end of the text only the buffered list, if any, is left. */
  lemma ContinueAtEnd(listType: Option<ListKind>, listItems: seq<string>)
    ensures listType.None? ==> Continue(listType, listItems, []) == []
    ensures listType.Some? ==> Continue(listType, listItems, []) == [List(listType.value, listItems)]
  {
    assert listItems + [] == listItems;
  }
}

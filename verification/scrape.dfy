/** A whole scrape of internal/collector/mqtt_metrics_parser.go: the body is split at line feeds, HELP and
    comment lines are told apart from samples, and every sample of an unknown family is captured. */
module Scrape {
  import opened Common
  import opened Exposition

  // ---------------------------------------------------------------------------------------
  // Lines
  // ---------------------------------------------------------------------------------------

  /** `strings.Split` at line feeds. */
  function Split(body: string): (lines: seq<string>) {
    var i := IndexOf(body, '\n', 0);
    if i == |body| then [body] else [body[..i]] + Split(body[i + 1..])
  }

  /** The text of some lines, each ended by a line feed. */
  function JoinLines(lines: seq<string>): (body: string) {
    if lines == [] then "" else lines[0] + "\n" + JoinLines(lines[1..])
  }

  /** Splitting joined lines gives them back, and the nothing after the last line feed. */
  lemma {:induction false} SplitJoin(lines: seq<string>)
    requires forall i :: 0 <= i < |lines| ==> '\n' !in lines[i]
    ensures Split(JoinLines(lines)) == lines + [""]
  {
    if lines != [] {
      SplitJoin(lines[1..]);
      SplitFirst(lines[0], JoinLines(lines[1..]));
      assert [lines[0]] + (lines[1..] + [""]) == lines + [""];
    }
  }

  lemma SplitFirst(line: string, rest: string)
    requires '\n' !in line
    ensures Split(line + "\n" + rest) == [line] + Split(rest)
  {
    var body := line + "\n" + rest;
    forall j | 0 <= j < |line|
      ensures body[j] != '\n'
    {
      assert body[j] == line[j];
    }
    IndexOfAt(body, '\n', 0, |line|);
    assert body[..|line|] == line && body[|line| + 1..] == rest;
  }

  // ---------------------------------------------------------------------------------------
  // Printed samples are trimmed lines
  // ---------------------------------------------------------------------------------------

  lemma {:induction false} EscapeOneLine(v: string)
    ensures '\n' !in Escape(v)
  {
    if v != "" {
      EscapeOneLine(v[1..]);
    }
  }

  lemma LabelOneLine(l: Label)
    requires IsLabelName(l.name)
    ensures '\n' !in RenderLabel(l)
  {
    EscapeOneLine(l.value);
  }

  lemma {:induction false} LabelsOneLine(ls: seq<Label>, comma: bool)
    requires ValidLabels(ls)
    ensures '\n' !in RenderLabels(ls, comma)
    decreases |ls|
  {
    if ls != [] {
      LabelOneLine(ls[0]);
      if |ls| > 1 {
        LabelsOneLine(ls[1..], comma);
      }
      assert '\n' !in AfterFirst(ls, comma);
    }
  }

  lemma BlockOneLine(b: Block)
    requires b.Block? ==> ValidLabels(b.labels)
    ensures '\n' !in RenderBlock(b)
  {
    if b.Block? {
      LabelsOneLine(b.labels, b.trailingComma);
    }
  }

  /** The tail is one line and ends in a character that is no space. */
  lemma TailOneLine(s: Sample)
    requires ValidSample(s)
    ensures var tail := RenderTail(s); '\n' !in tail && tail != "" && !IsSpace(tail[|tail| - 1])
  {
    var tail := RenderTail(s);
    if s.timestamp.Some? {
      var t := s.timestamp.value;
      assert tail[|tail| - 1] == t[|t| - 1];
    } else {
      assert tail[|tail| - 1] == s.value[|s.value| - 1];
    }
  }

  /** A printed sample is one line, begins with its name and ends in its last token: trimming leaves it. */
  lemma RenderIsLine(s: Sample)
    requires ValidSample(s)
    ensures '\n' !in Render(s) && TrimSpace(Render(s)) == Render(s) && !Ignored(Render(s))
  {
    BlockOneLine(s.block);
    TailOneLine(s);
    var line, tail := Render(s), RenderTail(s);
    assert line[0] == s.name[0] && NameChar(s.name[0]);
    assert line[|line| - 1] == tail[|tail| - 1];
  }

  // ---------------------------------------------------------------------------------------
  // One line
  // ---------------------------------------------------------------------------------------

  /** Blank lines and comments, HELP lines among them, are no samples. */
  predicate Ignored(line: string) {
    line == "" || line[0] == '#'
  }

  /** The family and text of a HELP line. */
  function HelpOf(line: string): Option<(string, string)> {
    if "# HELP " <= line then
      var h := line[7..];
      var i := IndexOf(h, ' ', 0);
      if i < |h| then Some((h[..i], h[i + 1..])) else None
    else None
  }

  datatype Captured =
    Captured(uncurated: map<string, string>, uncuratedHelp: map<string, string>, help: map<string, string>)

  function ScrapeLine(c: Captured, raw: string): Captured {
    var line := TrimSpace(raw);
    var help := HelpOf(line);
    if help.Some? then c.(help := c.help[help.value.0 := help.value.1])
    else if Ignored(line) then c
    else
      var (name, value) := Parse(line);
      c.(uncurated := c.uncurated[SeriesKey(name, line) := value],
         uncuratedHelp := if name in c.help then c.uncuratedHelp[name := c.help[name]] else c.uncuratedHelp)
  }

  function ScrapeLines(c: Captured, lines: seq<string>): Captured {
    if lines == [] then c else ScrapeLine(ScrapeLines(c, lines[..|lines| - 1]), lines[|lines| - 1])
  }

  /** The uncurated part of the metrics record.  Values are kept as their text. */
  class UncuratedMetrics {
    var uncurated: map<string, string>
    var uncuratedHelp: map<string, string>

    constructor ()
      ensures uncurated == map[] && uncuratedHelp == map[]
    {
      uncurated, uncuratedHelp := map[], map[];
    }

    method CaptureUncurated(name: string, line: string, value: string, help: map<string, string>)
      modifies this
      ensures uncurated == old(uncurated)[SeriesKey(name, line) := value]
      ensures uncuratedHelp == if name in help then old(uncuratedHelp)[name := help[name]] else old(uncuratedHelp)
    {
      var key := name;
      var i := IndexOf(line, '{', 0);
      if i < |line| {
        var end := LabelBlockEnd(line, i);
        BlockEndInside(line, i + 1, false);
        if end.Some? && end.value > i {
          key := name + line[i..end.value + 1];
        }
      }
      uncurated := uncurated[key := value];
      if name in help {
        uncuratedHelp := uncuratedHelp[name := help[name]];
      }
    }

    /** One turn of the loop over the lines. */
    method ScrapeOne(raw: string, help: map<string, string>) returns (help': map<string, string>)
      modifies this
      ensures var before := Captured(old(uncurated), old(uncuratedHelp), help);
              Captured(uncurated, uncuratedHelp, help') == ScrapeLine(before, raw)
    {
      var line := TrimSpace(raw);
      var h := HelpOf(line);
      if h.Some? {
        return help[h.value.0 := h.value.1];
      }
      if Ignored(line) {
        return help;
      }
      var name, value := ParseMetricLine(line);
      CaptureUncurated(name, line, value, help);
      return help;
    }

    /** A body whose every family is unknown. */
    method ScrapeBody(body: string)
      modifies this
      ensures var c := ScrapeLines(Captured(old(uncurated), old(uncuratedHelp), map[]), Split(body));
              uncurated == c.uncurated && uncuratedHelp == c.uncuratedHelp
    {
      var help: map<string, string> := map[];
      var lines := Split(body);
      ghost var start := Captured(uncurated, uncuratedHelp, map[]);
      for k := 0 to |lines|
        invariant Captured(uncurated, uncuratedHelp, help) == ScrapeLines(start, lines[..k])
      {
        assert lines[..k + 1][..k] == lines[..k];
        help := ScrapeOne(lines[k], help);
      }
      assert lines[..|lines|] == lines;
    }
  }

  // ---------------------------------------------------------------------------------------
  // Whole bodies
  // ---------------------------------------------------------------------------------------

  /** What a body is made of: printed samples, HELP lines, and other lines that are no samples. */
  datatype Item = Printed(sample: Sample) | Help(family: string, text: string) | Other(line: string)

  predicate ValidItem(it: Item) {
    match it
    case Printed(s) => ValidSample(s)
    case Help(family, text) => IsName(family) && text != "" && '\n' !in text && !IsSpace(text[|text| - 1])
    case Other(line) =>
      var l := TrimSpace(line);
      '\n' !in line && (l == "" || l[0] == '#') && ("# HELP " <= l ==> ' ' !in l[7..])
  }

  function ItemLine(it: Item): string {
    match it
    case Printed(s) => Render(s)
    case Help(family, text) => "# HELP " + family + " " + text
    case Other(line) => line
  }

  function ItemLines(items: seq<Item>): (r: seq<string>)
    ensures |r| == |items| && forall i :: 0 <= i < |items| ==> r[i] == ItemLine(items[i])
  {
    if items == [] then [] else ItemLines(items[..|items| - 1]) + [ItemLine(items[|items| - 1])]
  }

  function RenderBody(items: seq<Item>): string {
    JoinLines(ItemLines(items))
  }

  /** What capturing an item means: a sample is filed under its name and label block, with the help text last seen
      for its name; a HELP line is remembered. */
  function Capture(c: Captured, it: Item): Captured {
    match it
    case Printed(s) =>
      c.(uncurated := c.uncurated[s.name + RenderBlock(s.block) := s.value],
         uncuratedHelp := if s.name in c.help then c.uncuratedHelp[s.name := c.help[s.name]] else c.uncuratedHelp)
    case Help(family, text) => c.(help := c.help[family := text])
    case Other(_) => c
  }

  function CaptureAll(c: Captured, items: seq<Item>): Captured {
    if items == [] then c else Capture(CaptureAll(c, items[..|items| - 1]), items[|items| - 1])
  }

  lemma HelpIsLine(family: string, text: string)
    requires ValidItem(Help(family, text))
    ensures var line := ItemLine(Help(family, text));
            '\n' !in line && TrimSpace(line) == line && HelpOf(line) == Some((family, text))
  {
    var line := "# HELP " + family + " " + text;
    assert line[0] == '#' && line[|line| - 1] == text[|text| - 1];
    assert "# HELP " <= line;
    var h := line[7..];
    assert h == family + " " + text;
    IndexOfAt(h, ' ', 0, |family|);
    assert h[..|family|] == family && h[|family| + 1..] == text;
  }

  lemma OtherIsIgnored(line: string)
    requires ValidItem(Other(line))
    ensures HelpOf(TrimSpace(line)).None? && Ignored(TrimSpace(line))
  {
    var l := TrimSpace(line);
    if "# HELP " <= l {
      IndexOfAbsent(l[7..], ' ', 0);
    }
  }

  lemma PrintedIsLine(s: Sample)
    requires ValidSample(s)
    ensures HelpOf(Render(s)).None? && SeriesKey(s.name, Render(s)) == s.name + RenderBlock(s.block)
  {
    RenderIsLine(s);
    SeriesKeyOfRender(s);
  }

  lemma ItemCaptured(c: Captured, it: Item)
    requires ValidItem(it)
    ensures '\n' !in ItemLine(it) && ScrapeLine(c, ItemLine(it)) == Capture(c, it)
  {
    match it {
      case Printed(s) =>
        RenderIsLine(s);
        PrintedIsLine(s);
        ParseOfRender(s);
      case Help(family, text) =>
        HelpIsLine(family, text);
      case Other(line) =>
        OtherIsIgnored(line);
    }
  }

  lemma ScrapeOneMore(c: Captured, lines: seq<string>, line: string)
    ensures ScrapeLines(c, lines + [line]) == ScrapeLine(ScrapeLines(c, lines), line)
  {
    assert (lines + [line])[..|lines|] == lines;
  }

  ghost predicate Captures(c: Captured, lines: seq<string>, result: Captured) {
    ScrapeLines(c, lines) == result
  }

  /** One item more, whatever was captured before. */
  lemma ItemAdds(c: Captured, lines: seq<string>, before: Captured, it: Item)
    requires ValidItem(it) && Captures(c, lines, before)
    ensures Captures(c, lines + [ItemLine(it)], Capture(before, it))
  {
    ScrapeOneMore(c, lines, ItemLine(it));
    ItemCaptured(before, it);
  }

  lemma {:induction false} ItemsCaptured(c: Captured, items: seq<Item>)
    requires forall i :: 0 <= i < |items| ==> ValidItem(items[i])
    ensures Captures(c, ItemLines(items), CaptureAll(c, items))
  {
    if items != [] {
      var n := |items| - 1;
      ItemsCaptured(c, items[..n]);
      ItemAdds(c, ItemLines(items[..n]), CaptureAll(c, items[..n]), items[n]);
      assert ItemLines(items) == ItemLines(items[..n]) + [ItemLine(items[n])];
    }
  }

  /** Scraping the text of a whole body, with HELP lines, comments and blank lines anywhere, captures exactly its
      items in order. */
  lemma BodyCaptured(c: Captured, items: seq<Item>)
    requires forall i :: 0 <= i < |items| ==> ValidItem(items[i])
    ensures ScrapeLines(c, Split(RenderBody(items))) == CaptureAll(c, items)
  {
    var lines := ItemLines(items);
    forall i | 0 <= i < |lines|
      ensures '\n' !in lines[i]
    {
      ItemCaptured(c, items[i]);
    }
    SplitJoin(lines);
    ItemsCaptured(c, items);
    ItemAdds(c, lines, CaptureAll(c, items), Other(""));
  }

  // ---------------------------------------------------------------------------------------
  // The captured values
  // ---------------------------------------------------------------------------------------

  ghost predicate SameSeries(s: Sample, s': Sample) {
    s.name == s'.name && s.block == s'.block
  }

  lemma OtherKeyKept(c: Captured, it: Item, s: Sample)
    requires ValidSample(s) && ValidItem(it) && (it.Printed? ==> !SameSeries(it.sample, s))
    ensures var key := s.name + RenderBlock(s.block);
            key in c.uncurated ==> key in Capture(c, it).uncurated && Capture(c, it).uncurated[key] == c.uncurated[key]
  {
    if it.Printed? {
      KeysApart(it.sample, s);
      SeriesKeyOfRender(it.sample);
      SeriesKeyOfRender(s);
    }
  }

  lemma {:induction false} LastValueKept(c: Captured, items: seq<Item>, i: nat)
    requires forall k :: 0 <= k < |items| ==> ValidItem(items[k])
    requires i < |items| && items[i].Printed?
    requires forall k :: i < k < |items| && items[k].Printed? ==> !SameSeries(items[k].sample, items[i].sample)
    ensures var s, m := items[i].sample, CaptureAll(c, items).uncurated;
            var key := s.name + RenderBlock(s.block);
            key in m && m[key] == s.value
    decreases |items|
  {
    var n := |items| - 1;
    if i < n {
      LastValueKept(c, items[..n], i);
      OtherKeyKept(CaptureAll(c, items[..n]), items[n], items[i].sample);
    }
  }

  /** After scraping a body, the entry of a series holds the value of the last sample of exactly that series:
      no other name or label block can have overwritten it. */
  lemma CapturedLastValue(c: Captured, items: seq<Item>, i: nat)
    requires forall k :: 0 <= k < |items| ==> ValidItem(items[k])
    requires i < |items| && items[i].Printed?
    requires forall k :: i < k < |items| && items[k].Printed? ==> !SameSeries(items[k].sample, items[i].sample)
    ensures var s, m := items[i].sample, ScrapeLines(c, Split(RenderBody(items))).uncurated;
            var key := s.name + RenderBlock(s.block);
            key in m && m[key] == s.value
  {
    BodyCaptured(c, items);
    LastValueKept(c, items, i);
  }
}

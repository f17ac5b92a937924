/** The line scanners of internal/collector/mqtt_metrics_parser.go, against the printer that the
    "Text format details" section of the Prometheus exposition formats document (text format
    0.0.4) defines: a sample is a metric name, an optional label block whose values escape
    backslash, double quote and line feed, a value, and an optional timestamp. */
module Exposition {
  import opened Common

  // ---------------------------------------------------------------------------------------
  // The printer
  // ---------------------------------------------------------------------------------------

  datatype Label = Label(name: string, value: string)

  /** No braces at all, or braces around labels, with or without a comma after the last. */
  datatype Block = NoBlock | Block(labels: seq<Label>, trailingComma: bool)

  datatype Sample = Sample(name: string, block: Block, value: string, timestamp: Option<string>)

  function EscapeChar(c: char): string {
    if c == '\\' then "\\\\" else if c == '"' then "\\\"" else if c == '\n' then "\\n" else [c]
  }

  function Escape(v: string): string {
    if v == "" then "" else EscapeChar(v[0]) + Escape(v[1..])
  }

  function RenderLabel(l: Label): string {
    l.name + "=\"" + Escape(l.value) + "\""
  }

  /** The labels after the opening brace, up to and including the closing one. */
  function RenderLabels(ls: seq<Label>, trailingComma: bool): string
    decreases |ls|, 1
  {
    if ls == [] then "}" else RenderLabel(ls[0]) + AfterFirst(ls, trailingComma)
  }

  /** What follows the first label: the closing brace, or a comma and the other labels. */
  function AfterFirst(ls: seq<Label>, trailingComma: bool): string
    requires ls != []
    decreases |ls|, 0
  {
    if |ls| > 1 then "," + RenderLabels(ls[1..], trailingComma) else if trailingComma then ",}" else "}"
  }

  function RenderBlock(b: Block): string {
    match b
    case NoBlock => ""
    case Block(ls, comma) => "{" + RenderLabels(ls, comma)
  }

  function RenderTail(s: Sample): string {
    " " + s.value + match s.timestamp case None => "" case Some(t) => " " + t
  }

  function Render(s: Sample): string {
    s.name + RenderBlock(s.block) + RenderTail(s)
  }

  // ---------------------------------------------------------------------------------------
  // Well-formed samples
  // ---------------------------------------------------------------------------------------

  /** `unicode.IsSpace`. */
  predicate IsSpace(c: char) {
    || '\t' <= c <= '\r' || c == ' ' || c == '\U{85}' || c == '\U{A0}' || c == '\U{1680}'
    || '\U{2000}' <= c <= '\U{200A}' || c == '\U{2028}' || c == '\U{2029}' || c == '\U{202F}'
    || c == '\U{205F}' || c == '\U{3000}'
  }

  predicate NameChar(c: char) {
    'a' <= c <= 'z' || 'A' <= c <= 'Z' || '0' <= c <= '9' || c == '_' || c == ':'
  }

  predicate IsName(n: string) {
    n != "" && forall i :: 0 <= i < |n| ==> NameChar(n[i])
  }

  predicate IsLabelName(n: string) {
    IsName(n) && ':' !in n
  }

  /** A value or timestamp: a nonempty run without white space or an opening brace. */
  predicate IsToken(t: string) {
    t != "" && forall i :: 0 <= i < |t| ==> !IsSpace(t[i]) && t[i] != '{'
  }

  predicate ValidLabels(ls: seq<Label>) {
    forall i :: 0 <= i < |ls| ==> IsLabelName(ls[i].name)
  }

  predicate ValidSample(s: Sample) {
    && IsName(s.name) && IsToken(s.value)
    && (s.block.Block? ==> ValidLabels(s.block.labels) && (s.block.trailingComma ==> s.block.labels != []))
    && (s.timestamp.Some? ==> IsToken(s.timestamp.value))
  }

  // ---------------------------------------------------------------------------------------
  // What the scanners compute
  // ---------------------------------------------------------------------------------------

  /** `strings.IndexByte` from position `i`, or the length when absent. */
  function IndexOf(s: string, c: char, i: nat): (r: nat)
    requires i <= |s|
    ensures i <= r <= |s|
    decreases |s| - i
  {
    if i == |s| || s[i] == c then i else IndexOf(s, c, i + 1)
  }

  lemma {:induction false} IndexOfAbsent(s: string, c: char, i: nat)
    requires i <= |s| && c !in s
    ensures IndexOf(s, c, i) == |s|
    decreases |s| - i
  {
    if i < |s| {
      IndexOfAbsent(s, c, i + 1);
    }
  }

  /** The closing brace at or after `i`, given whether `i` is inside a quoted value. */
  function BlockEnd(line: string, i: nat, inQuote: bool): Option<nat>
    decreases |line| - i
  {
    if i >= |line| then None
    else if line[i] == '\\' && inQuote then BlockEnd(line, i + 2, inQuote)
    else if line[i] == '"' then BlockEnd(line, i + 1, !inQuote)
    else if line[i] == '}' && !inQuote then Some(i)
    else BlockEnd(line, i + 1, inQuote)
  }

  /** What an escape stands for; an unknown one keeps both characters. */
  function Unescape(c: char): string {
    if c == 'n' then "\n" else if c == '\\' || c == '"' then [c] else ['\\', c]
  }

  /** The escapes of the format stand for their characters, and any other keeps its backslash. */
  lemma UnescapeMeans(c: char)
    ensures Unescape('n') == "\n" && Unescape('\\') == "\\" && Unescape('"') == "\""
    ensures c != 'n' && c != '\\' && c != '"' ==> Unescape(c) == "\\" + [c]
  {
  }

  datatype Scanned = Scanned(value: string, next: nat)

  /** The quoted value starting at `i`, and the position past its closing quote. */
  function ScanValue(line: string, i: nat): Option<Scanned>
    decreases |line| - i
  {
    if i >= |line| then None
    else if line[i] == '"' then Some(Scanned("", i + 1))
    else if line[i] == '\\' then
      if i + 1 >= |line| then None
      else match ScanValue(line, i + 2)
           case None => None
           case Some(r) => Some(Scanned(Unescape(line[i + 1]) + r.value, r.next))
    else match ScanValue(line, i + 1)
         case None => None
         case Some(r) => Some(Scanned([line[i]] + r.value, r.next))
  }

  lemma {:induction false} ScanAdvances(line: string, i: nat)
    ensures ScanValue(line, i).Some? ==> i < ScanValue(line, i).value.next <= |line|
    decreases |line| - i
  {
    if i < |line| && line[i] != '"' {
      if line[i] == '\\' {
        ScanAdvances(line, i + 2);
      } else {
        ScanAdvances(line, i + 1);
      }
    }
  }

  function TrimLeft(s: string): string {
    if s != "" && IsSpace(s[0]) then TrimLeft(s[1..]) else s
  }

  function TrimRight(s: string): string {
    if s != "" && IsSpace(s[|s| - 1]) then TrimRight(s[..|s| - 1]) else s
  }

  function TrimSpace(s: string): string {
    TrimRight(TrimLeft(s))
  }

  function SkipSeparators(line: string, i: nat): (r: nat)
    ensures i <= r
    decreases |line| - i
  {
    if i < |line| && (line[i] == ',' || line[i] == ' ') then SkipSeparators(line, i + 1) else i
  }

  datatype Found = Found(pair: Label, next: nat)

  /** The label pair at `i`, and where the next one starts; nothing when the pair is malformed. */
  function LabelAt(line: string, i: nat): (r: Option<Found>)
    requires i < |line|
    ensures r.Some? ==> i < r.value.next
  {
    var eq := IndexOf(line, '=', i);
    if eq + 1 >= |line| || line[eq + 1] != '"' then None
    else
      ScanAdvances(line, eq + 2);
      match ScanValue(line, eq + 2)
      case None => None
      case Some(r) => Some(Found(Label(TrimSpace(line[i..eq]), r.value), SkipSeparators(line, r.next)))
  }

  /** The value of the first label named `key` at or after `i`, or the empty string. */
  function LabelFrom(line: string, i: nat, key: string): string
    decreases |line| - i
  {
    if i >= |line| || line[i] == '}' then ""
    else match LabelAt(line, i)
         case None => ""
         case Some(f) => if f.pair.name == key then f.pair.value else LabelFrom(line, f.next, key)
  }

  /** `strings.Fields`. */
  function Fields(s: string): seq<string>
    decreases |s|
  {
    if s == "" then []
    else if IsSpace(s[0]) then Fields(s[1..])
    else
      var n := TokenEnd(s, 0);
      [s[..n]] + Fields(s[n..])
  }

  function TokenEnd(s: string, i: nat): (r: nat)
    requires i <= |s|
    ensures i <= r <= |s|
    ensures i < |s| && !IsSpace(s[i]) ==> i < r
    decreases |s| - i
  {
    if i < |s| && !IsSpace(s[i]) then TokenEnd(s, i + 1) else i
  }

  // ---------------------------------------------------------------------------------------
  // The code
  // ---------------------------------------------------------------------------------------

  method LabelBlockEnd(line: string, open: nat) returns (end: Option<nat>)
    requires open < |line|
    ensures end == BlockEnd(line, open + 1, false)
  {
    var inQuote := false;
    var i := open + 1;
    while i < |line|
      invariant BlockEnd(line, i, inQuote) == BlockEnd(line, open + 1, false)
      decreases |line| - i
    {
      if line[i] == '\\' {
        if inQuote {
          i := i + 1;
        }
      } else if line[i] == '"' {
        inQuote := !inQuote;
      } else if line[i] == '}' {
        if !inQuote {
          return Some(i);
        }
      }
      i := i + 1;
    }
    return None;
  }

  method ParseMetricLine(line: string) returns (name: string, value: string)
    ensures (name, value) == Parse(line)
  {
    var idx := IndexOf(line, '{', 0);
    if idx < |line| {
      name := line[..idx];
      var end := LabelBlockEnd(line, idx);
      if end.None? {
        return name, "";
      }
      BlockEndInside(line, idx + 1, false);
      var fields := Fields(line[end.value + 1..]);
      value := if |fields| >= 1 then fields[0] else "";
      return name, value;
    }
    var parts := Fields(line);
    if |parts| >= 2 {
      return parts[0], parts[1];
    }
    return "", "";
  }

  /** The name and value token of a line. */
  function Parse(line: string): (string, string) {
    var idx := IndexOf(line, '{', 0);
    if idx < |line| then
      match BlockEnd(line, idx + 1, false)
      case None => (line[..idx], "")
      case Some(end) =>
        BlockEndInside(line, idx + 1, false);
        var fields := Fields(line[end + 1..]);
        (line[..idx], if |fields| >= 1 then fields[0] else "")
    else
      var parts := Fields(line);
      if |parts| >= 2 then (parts[0], parts[1]) else ("", "")
  }

  /** Lines that print no sample: an unclosed block leaves the name and no value, a single field nothing. */
  lemma ParseMalformed(line: string, i: nat)
    ensures i < |line| && line[i] == '{' && '{' !in line[..i] && BlockEnd(line, i + 1, false).None? ==>
              Parse(line) == (line[..i], "")
    ensures '{' !in line && |Fields(line)| < 2 ==> Parse(line) == ("", "")
  {
    if i < |line| && line[i] == '{' && '{' !in line[..i] {
      IndexOfAt(line, '{', 0, i);
    }
    if '{' !in line {
      IndexOfAbsent(line, '{', 0);
    }
  }

  lemma {:induction false} BlockEndInside(line: string, i: nat, inQuote: bool)
    ensures BlockEnd(line, i, inQuote).Some? ==>
              i <= BlockEnd(line, i, inQuote).value < |line| && line[BlockEnd(line, i, inQuote).value] == '}'
    decreases |line| - i
  {
    if i < |line| {
      if line[i] == '\\' && inQuote {
        BlockEndInside(line, i + 2, inQuote);
      } else if line[i] == '"' {
        BlockEndInside(line, i + 1, !inQuote);
      } else {
        BlockEndInside(line, i + 1, inQuote);
      }
    }
  }

  /** Put what has been read in front of what is still to be read. */
  function Prefixed(read: string, rest: Option<Scanned>): Option<Scanned> {
    match rest case None => None case Some(r) => Some(Scanned(read + r.value, r.next))
  }

  /** The character after a backslash. */
  method ReadEscape(c: char) returns (read: string)
    ensures read == Unescape(c)
  {
    if c == 'n' {
      read := "\n";
    } else if c == '\\' {
      read := "\\";
    } else if c == '"' {
      read := "\"";
    } else {
      read := "\\" + [c];
    }
  }

  method ScanLabelValue(line: string, start: nat) returns (value: string, next: nat, ok: bool)
    ensures ok == ScanValue(line, start).Some?
    ensures ok ==> ScanValue(line, start).value == Scanned(value, next)
    ensures !ok ==> value == ""
  {
    var b := "";
    var i := start;
    PrefixNothing(ScanValue(line, start));
    while i < |line|
      invariant ScanValue(line, start) == Prefixed(b, ScanValue(line, i))
      decreases |line| - i
    {
      ghost var before := b;
      var c := line[i];
      if c == '"' {
        return b, i + 1, true;
      } else if c == '\\' {
        i := i + 1;
        if i >= |line| {
          return "", i, false;
        }
        var read := ReadEscape(line[i]);
        b := b + read;
        i := i + 1;
        PrefixTwice(before, Unescape(line[i - 1]), ScanValue(line, i));
      } else {
        b := b + [c];
        i := i + 1;
        PrefixTwice(before, [c], ScanValue(line, i));
      }
    }
    return "", i, false;
  }

  lemma PrefixNothing(rest: Option<Scanned>)
    ensures Prefixed("", rest) == rest
  {
    if rest.Some? {
      assert "" + rest.value.value == rest.value.value;
    }
  }

  lemma PrefixTwice(a: string, b: string, rest: Option<Scanned>)
    ensures Prefixed(a, Prefixed(b, rest)) == Prefixed(a + b, rest)
  {
    if rest.Some? {
      assert a + (b + rest.value.value) == a + b + rest.value.value;
    }
  }

  /** The label value of a line, from the position past its first opening brace. */
  function LabelOf(line: string, key: string): string {
    var open := IndexOf(line, '{', 0);
    if open < |line| then LabelFrom(line, open + 1, key) else ""
  }

  method SkipPast(line: string, next: nat) returns (i: nat)
    ensures i == SkipSeparators(line, next)
  {
    i := next;
    while i < |line| && (line[i] == ',' || line[i] == ' ')
      invariant SkipSeparators(line, next) == SkipSeparators(line, i)
    {
      i := i + 1;
    }
  }

  /** One turn of the loop in `extractLabel`, up to the name comparison. */
  method NextLabel(line: string, i: nat) returns (found: Option<Found>)
    requires i < |line|
    ensures found == LabelAt(line, i)
  {
    var eq := IndexOf(line, '=', i);
    if eq >= |line| {
      return None;
    }
    var name := TrimSpace(line[i..eq]);
    if eq + 1 >= |line| || line[eq + 1] != '"' {
      return None;
    }
    var val, next, ok := ScanLabelValue(line, eq + 2);
    if !ok {
      return None;
    }
    next := SkipPast(line, next);
    return Some(Found(Label(name, val), next));
  }

  method ExtractLabel(line: string, key: string) returns (value: string)
    ensures value == LabelOf(line, key)
  {
    var i := IndexOf(line, '{', 0);
    if i >= |line| {
      return "";
    }
    i := i + 1;
    while i < |line| && line[i] != '}'
      invariant LabelOf(line, key) == LabelFrom(line, i, key)
      decreases |line| - i
    {
      var found := NextLabel(line, i);
      if found.None? {
        return "";
      }
      if found.value.pair.name == key {
        return found.value.pair.value;
      }
      i := found.value.next;
    }
    return "";
  }

  // ---------------------------------------------------------------------------------------
  // Scanning what was printed
  // ---------------------------------------------------------------------------------------

  /** From position `i` to its end, `line` reads `text`. */
  predicate Reads(line: string, i: nat, text: string)
    decreases |text|
  {
    if text == "" then i == |line| else i < |line| && line[i] == text[0] && Reads(line, i + 1, text[1..])
  }

  lemma {:induction false} ReadsItself(line: string, i: nat)
    requires i <= |line|
    ensures Reads(line, i, line[i..])
    decreases |line| - i
  {
    if i < |line| {
      ReadsItself(line, i + 1);
      assert line[i..][1..] == line[i + 1..];
    }
  }

  lemma {:induction false} ReadsIs(line: string, i: nat, text: string)
    requires Reads(line, i, text)
    ensures i <= |line| && line[i..] == text
    decreases |text|
  {
    if text != "" {
      ReadsIs(line, i + 1, text[1..]);
      assert line[i..] == [line[i]] + line[i + 1..];
      assert text == [text[0]] + text[1..];
    }
  }

  /** Reading a concatenation is reading its parts in turn. */
  lemma ReadsOn(line: string, i: nat, a: string, b: string)
    requires Reads(line, i, a + b)
    ensures i + |a| <= |line| && line[i..i + |a|] == a && Reads(line, i + |a|, b)
    ensures forall j :: 0 <= j < |a| ==> line[i + j] == a[j]
  {
    ReadsIs(line, i, a + b);
    ReadsItself(line, i + |a|);
    assert line[i..][|a|..] == b;
    assert line[i..][..|a|] == a;
    forall j | 0 <= j < |a|
      ensures line[i + j] == a[j]
    {
      assert line[i..][j] == a[j];
    }
  }

  /** The text of a quoted value from inside its quotes, then the rest of the line. */
  function Quoted(v: string, post: string): string {
    Escape(v) + ("\"" + post)
  }

  lemma ReadsClose(line: string, i: nat, post: string)
    requires Reads(line, i, Quoted("", post))
    ensures i < |line| && line[i] == '"'
  {
    assert Quoted("", post) == "\"" + post;
    ReadsOn(line, i, "\"", post);
  }

  lemma QuotedStep(v: string, post: string)
    requires v != ""
    ensures Quoted(v, post) == EscapeChar(v[0]) + Quoted(v[1..], post)
    ensures |Escape(v)| == |EscapeChar(v[0])| + |Escape(v[1..])|
  {
    Concat3(EscapeChar(v[0]), Escape(v[1..]), "\"" + post);
  }

  lemma Concat3(a: string, b: string, c: string)
    ensures (a + b) + c == a + (b + c)
  {
  }

  /** One character of a quoted value, as one plain or two escaped characters of the line. */
  lemma ReadsChar(line: string, i: nat, v: string, post: string)
    requires v != "" && Reads(line, i, Quoted(v, post))
    ensures var head := EscapeChar(v[0]);
            && i + |head| <= |line| && line[i] == head[0] && (|head| == 2 ==> line[i + 1] == head[1])
            && Reads(line, i + |head|, Quoted(v[1..], post))
            && |Escape(v)| == |head| + |Escape(v[1..])|
  {
    var head := EscapeChar(v[0]);
    QuotedStep(v, post);
    ReadsOn(line, i, head, Quoted(v[1..], post));
    assert line[i + 0] == head[0];
  }

  /** Scanning one printed character puts it in front of the rest. */
  lemma ScanChar(line: string, i: nat, c: char, rest: Scanned)
    ensures var head := EscapeChar(c);
            i + |head| <= |line| && line[i] == head[0] && (|head| == 2 ==> line[i + 1] == head[1])
            && ScanValue(line, i + |head|) == Some(rest)
            ==> ScanValue(line, i) == Some(Scanned([c] + rest.value, rest.next))
  {
  }

  lemma ScanClose(line: string, i: nat, post: string)
    requires Reads(line, i, Quoted("", post))
    ensures ScanValue(line, i) == Some(Scanned("", i + 1))
  {
    ReadsClose(line, i, post);
  }

  lemma ScanStep(line: string, i: nat, v: string, next: nat)
    requires v != "" && i + |EscapeChar(v[0])| <= |line| && line[i] == EscapeChar(v[0])[0]
    requires |EscapeChar(v[0])| == 2 ==> line[i + 1] == EscapeChar(v[0])[1]
    requires ScanValue(line, i + |EscapeChar(v[0])|) == Some(Scanned(v[1..], next))
    ensures ScanValue(line, i) == Some(Scanned(v, next))
  {
    ScanChar(line, i, v[0], Scanned(v[1..], next));
    assert v == [v[0]] + v[1..];
  }

  /** Reading an escaped value gives the value back, and stops just past its closing quote. */
  lemma {:induction false} ScanEscaped(line: string, i: nat, v: string, post: string)
    requires Reads(line, i, Quoted(v, post))
    ensures ScanValue(line, i) == Some(Scanned(v, i + |Escape(v)| + 1))
    decreases |v|
  {
    if v == "" {
      ScanClose(line, i, post);
    } else {
      ReadsChar(line, i, v, post);
      ScanEscaped(line, i + |EscapeChar(v[0])|, v[1..], post);
      ScanStep(line, i, v, i + |Escape(v)| + 1);
    }
  }

  /** A quoted value is skipped whole, whatever braces, quotes or backslashes it holds. */
  lemma {:induction false} BlockEndPastValue(line: string, i: nat, v: string, post: string)
    requires Reads(line, i, Quoted(v, post))
    ensures BlockEnd(line, i, true) == BlockEnd(line, i + |Escape(v)| + 1, false)
    decreases |v|
  {
    if v == "" {
      ReadsClose(line, i, post);
    } else {
      ReadsChar(line, i, v, post);
      BlockEndPastValue(line, i + |EscapeChar(v[0])|, v[1..], post);
    }
  }

  /** Text without quotes or braces is skipped. */
  lemma {:induction false} BlockEndPastPlain(line: string, i: nat, n: nat)
    requires i + n <= |line|
    requires forall j :: i <= j < i + n ==> line[j] != '"' && line[j] != '}'
    ensures BlockEnd(line, i, false) == BlockEnd(line, i + n, false)
    decreases n
  {
    if n > 0 {
      BlockEndPastPlain(line, i + 1, n - 1);
    }
  }

  /** A printed label pair: its name, then `="`, then the quoted value. */
  lemma ReadsLabel(line: string, i: nat, l: Label, post: string)
    requires Reads(line, i, RenderLabel(l) + post)
    ensures |RenderLabel(l)| == |l.name| + 2 + |Escape(l.value)| + 1
    ensures i + |l.name| + 1 < |line| && line[i..i + |l.name|] == l.name
    ensures forall j :: i <= j < i + |l.name| ==> line[j] == l.name[j - i]
    ensures line[i + |l.name|] == '=' && line[i + |l.name| + 1] == '"'
    ensures Reads(line, i + |l.name| + 2, Quoted(l.value, post))
    ensures Reads(line, i + |RenderLabel(l)|, post)
  {
    ReadsOn(line, i, RenderLabel(l), post);
    assert RenderLabel(l) + post == l.name + ("=\"" + Quoted(l.value, post));
    ReadsOn(line, i, l.name, "=\"" + Quoted(l.value, post));
    ReadsOn(line, i + |l.name|, "=\"", Quoted(l.value, post));
    assert line[i + |l.name| + 0] == '=' && line[i + |l.name| + 1] == '"';
  }

  lemma BlockEndPastLabel(line: string, i: nat, l: Label, post: string)
    requires IsLabelName(l.name) && Reads(line, i, RenderLabel(l) + post)
    ensures BlockEnd(line, i, false) == BlockEnd(line, i + |RenderLabel(l)|, false)
    ensures Reads(line, i + |RenderLabel(l)|, post)
  {
    ReadsLabel(line, i, l, post);
    BlockEndPastPlain(line, i, |l.name| + 1);
    BlockEndPastValue(line, i + |l.name| + 2, l.value, post);
  }

  /** How the text of a label list splits after its first label. */
  lemma FirstLabel(ls: seq<Label>, comma: bool, post: string)
    requires ls != []
    ensures RenderLabels(ls, comma) == RenderLabel(ls[0]) + AfterFirst(ls, comma)
    ensures RenderLabels(ls, comma) + post == RenderLabel(ls[0]) + (AfterFirst(ls, comma) + post)
  {
    Concat3(RenderLabel(ls[0]), AfterFirst(ls, comma), post);
  }

  /** What follows the first pair: the closing brace, perhaps after a comma, or the next pair. */
  lemma ReadsAfterFirst(line: string, k: nat, ls: seq<Label>, comma: bool, post: string)
    requires ls != [] && Reads(line, k, AfterFirst(ls, comma) + post)
    ensures k < |line|
    ensures |ls| == 1 && !comma ==> line[k] == '}'
    ensures |ls| == 1 && comma ==> k + 1 < |line| && line[k] == ',' && line[k + 1] == '}'
    ensures |ls| > 1 ==> line[k] == ',' && Reads(line, k + 1, RenderLabels(ls[1..], comma) + post)
  {
    var rest := AfterFirst(ls, comma);
    ReadsOn(line, k, rest, post);
    assert line[k + 0] == rest[0];
    if |ls| > 1 {
      assert rest + post == "," + (RenderLabels(ls[1..], comma) + post);
      ReadsOn(line, k, ",", RenderLabels(ls[1..], comma) + post);
    }
  }

  lemma ReadsFirst(line: string, i: nat, ls: seq<Label>, comma: bool, post: string)
    requires ls != [] && Reads(line, i, RenderLabels(ls, comma) + post)
    ensures Reads(line, i, RenderLabel(ls[0]) + (AfterFirst(ls, comma) + post))
    ensures Reads(line, i + |RenderLabel(ls[0])|, AfterFirst(ls, comma) + post)
    ensures |RenderLabels(ls, comma)| == |RenderLabel(ls[0])|
              + (if |ls| > 1 then 1 + |RenderLabels(ls[1..], comma)| else if comma then 2 else 1)
  {
    FirstLabel(ls, comma, post);
    ReadsOn(line, i, RenderLabel(ls[0]), AfterFirst(ls, comma) + post);
  }

  lemma ReadsNoLabels(line: string, i: nat, comma: bool, post: string)
    requires Reads(line, i, RenderLabels([], comma) + post)
    ensures i < |line| && line[i] == '}'
  {
    ReadsOn(line, i, "}", post);
    assert line[i + 0] == '}';
  }

  lemma BlockEndStep(line: string, k: nat)
    ensures k < |line| && line[k] == '}' ==> BlockEnd(line, k, false) == Some(k)
    ensures k < |line| && line[k] == ',' ==> BlockEnd(line, k, false) == BlockEnd(line, k + 1, false)
  {
  }

  /** The first label is skipped whole, up to what follows it. */
  lemma BlockEndPastFirst(line: string, i: nat, ls: seq<Label>, comma: bool, post: string) returns (k: nat)
    requires ls != [] && ValidLabels(ls) && Reads(line, i, RenderLabels(ls, comma) + post)
    ensures BlockEnd(line, i, false) == BlockEnd(line, k, false)
    ensures Reads(line, k, AfterFirst(ls, comma) + post)
    ensures i + |RenderLabels(ls, comma)| == k
              + (if |ls| > 1 then 1 + |RenderLabels(ls[1..], comma)| else if comma then 2 else 1)
  {
    ReadsFirst(line, i, ls, comma, post);
    BlockEndPastLabel(line, i, ls[0], AfterFirst(ls, comma) + post);
    k := i + |RenderLabel(ls[0])|;
  }

  /** `labelBlockEnd` finds the true closing brace of every printed block. */
  lemma {:induction false} BlockEndOfLabels(line: string, i: nat, ls: seq<Label>, comma: bool, post: string)
    requires ValidLabels(ls) && Reads(line, i, RenderLabels(ls, comma) + post)
    ensures BlockEnd(line, i, false) == Some(i + |RenderLabels(ls, comma)| - 1)
    decreases |ls|
  {
    if ls == [] {
      ReadsNoLabels(line, i, comma, post);
      BlockEndStep(line, i);
    } else {
      var k := BlockEndPastFirst(line, i, ls, comma, post);
      ReadsAfterFirst(line, k, ls, comma, post);
      BlockEndStep(line, k);
      BlockEndStep(line, k + 1);
      if |ls| > 1 {
        BlockEndOfLabels(line, k + 1, ls[1..], comma, post);
      }
    }
  }

  lemma {:induction false} IndexOfAt(s: string, c: char, i: nat, k: nat)
    requires i <= k < |s| && s[k] == c && forall j :: i <= j < k ==> s[j] != c
    ensures IndexOf(s, c, i) == k
    decreases k - i
  {
    if i < k {
      IndexOfAt(s, c, i + 1, k);
    }
  }

  lemma TrimName(n: string)
    requires IsName(n)
    ensures TrimSpace(n) == n
  {
    assert !IsSpace(n[0]) && !IsSpace(n[|n| - 1]);
  }

  /** The scanner reads a printed label pair back. */
  lemma LabelAtPrinted(line: string, i: nat, l: Label, post: string)
    requires IsLabelName(l.name) && Reads(line, i, RenderLabel(l) + post)
    ensures i < |line| && LabelAt(line, i) == Some(Found(l, SkipSeparators(line, i + |RenderLabel(l)|)))
  {
    var eq, next := PairParts(line, i, l, post);
    LabelAtParts(line, i, eq, l, next);
  }

  lemma LabelAtParts(line: string, i: nat, eq: nat, l: Label, next: nat)
    ensures i < eq && eq + 1 < |line| && line[eq + 1] == '"' && IndexOf(line, '=', i) == eq
            && TrimSpace(line[i..eq]) == l.name && ScanValue(line, eq + 2) == Some(Scanned(l.value, next))
            ==> LabelAt(line, i) == Some(Found(l, SkipSeparators(line, next)))
  {
  }

  lemma PairParts(line: string, i: nat, l: Label, post: string) returns (eq: nat, next: nat)
    requires IsLabelName(l.name) && Reads(line, i, RenderLabel(l) + post)
    ensures next == i + |RenderLabel(l)|
    ensures i < eq && eq + 1 < |line| && line[eq + 1] == '"'
    ensures IndexOf(line, '=', i) == eq && TrimSpace(line[i..eq]) == l.name
    ensures ScanValue(line, eq + 2) == Some(Scanned(l.value, next))
  {
    PairName(line, i, l, post);
    PairValue(line, i, l, post);
    eq, next := i + |l.name|, i + |RenderLabel(l)|;
  }

  lemma PairName(line: string, i: nat, l: Label, post: string)
    requires IsLabelName(l.name) && Reads(line, i, RenderLabel(l) + post)
    ensures var eq := i + |l.name|;
            i < eq < |line| && IndexOf(line, '=', i) == eq && TrimSpace(line[i..eq]) == l.name
  {
    ReadsLabel(line, i, l, post);
    IndexOfAt(line, '=', i, i + |l.name|);
    TrimName(l.name);
  }

  lemma PairValue(line: string, i: nat, l: Label, post: string)
    requires IsLabelName(l.name) && Reads(line, i, RenderLabel(l) + post)
    ensures var eq := i + |l.name|;
            && eq + 1 < |line| && line[eq + 1] == '"'
            && ScanValue(line, eq + 2) == Some(Scanned(l.value, i + |RenderLabel(l)|))
  {
    ReadsLabel(line, i, l, post);
    ScanEscaped(line, i + |l.name| + 2, l.value, post);
  }

  function FirstValue(ls: seq<Label>, key: string): string {
    if ls == [] then "" else if ls[0].name == key then ls[0].value else FirstValue(ls[1..], key)
  }

  lemma LabelsHead(ls: seq<Label>, comma: bool)
    requires ValidLabels(ls)
    ensures RenderLabels(ls, comma) != "" && RenderLabels(ls, comma)[0] != ',' && RenderLabels(ls, comma)[0] != ' '
  {
    if ls != [] {
      FirstLabel(ls, comma, "");
      assert RenderLabel(ls[0])[0] == ls[0].name[0];
      assert RenderLabels(ls, comma)[0] == ls[0].name[0];
    }
  }

  /** After the first pair, the scanner lands on the next pair or on the closing brace. */
  lemma SkipToNext(line: string, k: nat, ls: seq<Label>, comma: bool, post: string)
    requires ls != [] && ValidLabels(ls) && Reads(line, k, AfterFirst(ls, comma) + post)
    ensures |ls| == 1 ==> SkipSeparators(line, k) < |line| && line[SkipSeparators(line, k)] == '}'
    ensures |ls| > 1 ==> SkipSeparators(line, k) == k + 1 && Reads(line, k + 1, RenderLabels(ls[1..], comma) + post)
  {
    ReadsAfterFirst(line, k, ls, comma, post);
    if |ls| > 1 {
      var tail := RenderLabels(ls[1..], comma);
      ReadsOn(line, k + 1, tail, post);
      LabelsHead(ls[1..], comma);
      assert line[k + 1 + 0] == tail[0];
    }
  }

  /** The scanner reads the first pair and lands where the rest of the list starts. */
  lemma FirstPair(line: string, i: nat, ls: seq<Label>, comma: bool, post: string) returns (next: nat)
    requires ls != [] && ValidLabels(ls) && Reads(line, i, RenderLabels(ls, comma) + post)
    ensures i < |line| && line[i] != '}' && LabelAt(line, i) == Some(Found(ls[0], next))
    ensures |ls| == 1 ==> next < |line| && line[next] == '}'
    ensures |ls| > 1 ==> Reads(line, next, RenderLabels(ls[1..], comma) + post)
  {
    ReadsFirst(line, i, ls, comma, post);
    var k := i + |RenderLabel(ls[0])|;
    LabelAtPrinted(line, i, ls[0], AfterFirst(ls, comma) + post);
    ReadsLabel(line, i, ls[0], AfterFirst(ls, comma) + post);
    assert line[i] == ls[0].name[0];
    SkipToNext(line, k, ls, comma, post);
    next := SkipSeparators(line, k);
  }

  lemma {:induction false} LabelsPrinted(line: string, i: nat, ls: seq<Label>, comma: bool, post: string, key: string)
    requires ValidLabels(ls) && Reads(line, i, RenderLabels(ls, comma) + post)
    ensures LabelFrom(line, i, key) == FirstValue(ls, key)
    decreases |ls|
  {
    if ls == [] {
      ReadsNoLabels(line, i, comma, post);
    } else {
      var next := FirstPair(line, i, ls, comma, post);
      if |ls| > 1 {
        LabelsPrinted(line, next, ls[1..], comma, post, key);
      }
    }
  }

  // ---------------------------------------------------------------------------------------
  // Tokens
  // ---------------------------------------------------------------------------------------

  lemma {:induction false} TokenEndAt(s: string, i: nat, n: nat)
    requires i <= n <= |s| && (forall j :: i <= j < n ==> !IsSpace(s[j])) && (n == |s| || IsSpace(s[n]))
    ensures TokenEnd(s, i) == n
    decreases n - i
  {
    if i < n {
      TokenEndAt(s, i + 1, n);
    }
  }

  /** A token followed by white space, or by nothing, is the first field. */
  lemma FirstField(token: string, rest: string)
    requires token != "" && (forall j :: 0 <= j < |token| ==> !IsSpace(token[j]))
    requires rest == "" || IsSpace(rest[0])
    ensures Fields(token + rest) == [token] + Fields(rest)
  {
    var s := token + rest;
    TokenEndAt(s, 0, |token|);
    assert s[..|token|] == token && s[|token|..] == rest;
  }

  lemma TailFields(s: Sample)
    requires ValidSample(s)
    ensures Fields(RenderTail(s)) != [] && Fields(RenderTail(s))[0] == s.value
  {
    var after := match s.timestamp case None => "" case Some(t) => " " + t;
    FirstField(s.value, after);
    assert RenderTail(s)[1..] == s.value + after;
    assert IsSpace(RenderTail(s)[0]);
  }

  // ---------------------------------------------------------------------------------------
  // Round trips
  // ---------------------------------------------------------------------------------------

  lemma NoBraceInTail(s: Sample)
    requires ValidSample(s)
    ensures '{' !in s.name && '{' !in RenderTail(s)
  {
  }

  /** A labelled line is its name, an opening brace, the labels, and the tail. */
  lemma ReadsBlock(s: Sample)
    requires s.block.Block?
    ensures var line := Render(s);
            && |s.name| < |line| && line[..|s.name|] == s.name && line[|s.name|] == '{'
            && Reads(line, |s.name| + 1, RenderLabels(s.block.labels, s.block.trailingComma) + RenderTail(s))
  {
    var line, rest := Render(s), RenderLabels(s.block.labels, s.block.trailingComma) + RenderTail(s);
    assert line == s.name + ("{" + rest);
    ReadsItself(line, 0);
    assert line[0..] == line;
    ReadsOn(line, 0, s.name, "{" + rest);
    ReadsOn(line, |s.name|, "{", rest);
    assert line[|s.name| + 0] == '{';
  }

  lemma OpensAtName(s: Sample)
    requires ValidSample(s) && s.block.Block?
    ensures var line := Render(s);
            && IndexOf(line, '{', 0) == |s.name| && |s.name| < |line| && line[..|s.name|] == s.name
            && Reads(line, |s.name| + 1, RenderLabels(s.block.labels, s.block.trailingComma) + RenderTail(s))
  {
    ReadsBlock(s);
    NoBraceInTail(s);
    var line := Render(s);
    forall j | 0 <= j < |s.name|
      ensures line[j] != '{'
    {
      assert line[..|s.name|][j] == s.name[j];
    }
    IndexOfAt(line, '{', 0, |s.name|);
  }

  /** `Parse` of a line whose brace positions are known. */
  lemma ParseAt(line: string, open: nat, end: nat, name: string, tail: string)
    requires IndexOf(line, '{', 0) == open < |line| && BlockEnd(line, open + 1, false) == Some(end)
    requires end < |line| && line[..open] == name && line[end + 1..] == tail && Fields(tail) != []
    ensures Parse(line) == (name, Fields(tail)[0])
  {
  }

  /** Where the braces of a printed block are. */
  lemma BracesOfRender(s: Sample) returns (line: string, open: nat, end: nat)
    requires ValidSample(s) && s.block.Block?
    ensures line == Render(s) && IndexOf(line, '{', 0) == open && BlockEnd(line, open + 1, false) == Some(end)
    ensures open < end < |line| && line[..open] == s.name && end == |s.name + RenderBlock(s.block)| - 1
  {
    line, open, end := Render(s), |s.name|, |s.name + RenderBlock(s.block)| - 1;
    OpensAtName(s);
    BlockEndOfLabels(line, open + 1, s.block.labels, s.block.trailingComma, RenderTail(s));
    BlockEndInside(line, open + 1, false);
  }

  lemma ParseOfRenderBlock(s: Sample)
    requires ValidSample(s) && s.block.Block?
    ensures Parse(Render(s)) == (s.name, s.value)
  {
    var line, open, end := BracesOfRender(s);
    TailFields(s);
    assert line[end + 1..] == RenderTail(s);
    ParseAt(line, open, end, s.name, RenderTail(s));
  }

  lemma ParseOfRenderPlain(s: Sample)
    requires ValidSample(s) && s.block.NoBlock?
    ensures Parse(Render(s)) == (s.name, s.value)
  {
    var line, tail := Render(s), RenderTail(s);
    TailFields(s);
    assert line == s.name + tail;
    NoBraceInTail(s);
    IndexOfAbsent(line, '{', 0);
    FirstField(s.name, tail);
  }

  /** Every printed sample, labelled or not, with or without a timestamp, parses to its own name
      and value. */
  lemma ParseOfRender(s: Sample)
    requires ValidSample(s)
    ensures Parse(Render(s)) == (s.name, s.value)
  {
    match s.block
    case Block(_, _) => ParseOfRenderBlock(s);
    case NoBlock => ParseOfRenderPlain(s);
  }

  /** Extracting any key from a printed sample returns the value of the first label of that name,
      unescaped, and the empty string when no label has it. */
  lemma ExtractOfRender(s: Sample, key: string)
    requires ValidSample(s)
    ensures LabelOf(Render(s), key) == if s.block.Block? then FirstValue(s.block.labels, key) else ""
  {
    match s.block {
      case Block(ls, comma) =>
        OpensAtName(s);
        LabelsPrinted(Render(s), |s.name| + 1, ls, comma, RenderTail(s), key);
      case NoBlock =>
        assert Render(s) == s.name + RenderTail(s);
        NoBraceInTail(s);
        IndexOfAbsent(Render(s), '{', 0);
    }
  }

  /** With distinct label names each label's own value is returned, and only those. */
  lemma {:induction false} FirstValueOfDistinct(ls: seq<Label>, key: string)
    requires forall i, j :: 0 <= i < j < |ls| ==> ls[i].name != ls[j].name
    ensures forall i :: 0 <= i < |ls| && ls[i].name == key ==> FirstValue(ls, key) == ls[i].value
    ensures (forall i :: 0 <= i < |ls| ==> ls[i].name != key) ==> FirstValue(ls, key) == ""
  {
    if ls != [] {
      FirstValueOfDistinct(ls[1..], key);
      assert forall i :: 1 <= i < |ls| ==> ls[i] == ls[1..][i - 1];
    }
  }

  // ---------------------------------------------------------------------------------------
  // Uncurated series
  // ---------------------------------------------------------------------------------------

  /** The key `captureUncurated` files a line under. */
  function SeriesKey(name: string, line: string): string {
    var i := IndexOf(line, '{', 0);
    if i == |line| then name
    else match BlockEnd(line, i + 1, false)
         case None => name
         case Some(end) =>
           BlockEndInside(line, i + 1, false);
           name + line[i..end + 1]
  }

  lemma SeriesKeyOfRender(s: Sample)
    requires ValidSample(s)
    ensures SeriesKey(s.name, Render(s)) == s.name + RenderBlock(s.block)
  {
    var line := Render(s);
    match s.block {
      case Block(ls, comma) =>
        OpensAtName(s);
        BlockEndOfLabels(line, |s.name| + 1, ls, comma, RenderTail(s));
        BlockText(s);
      case NoBlock =>
        assert line == s.name + RenderTail(s);
        NoBraceInTail(s);
        IndexOfAbsent(line, '{', 0);
        assert s.name + "" == s.name;
    }
  }

  lemma BlockText(s: Sample)
    requires ValidSample(s) && s.block.Block?
    ensures var line, body := Render(s), RenderLabels(s.block.labels, s.block.trailingComma);
            |s.name| + 1 + |body| <= |line| && line[|s.name|..|s.name| + 1 + |body|] == RenderBlock(s.block)
  {
    var line, block := Render(s), RenderBlock(s.block);
    assert line == s.name + (block + RenderTail(s));
    ReadsItself(line, 0);
    assert line[0..] == line;
    ReadsOn(line, 0, s.name, block + RenderTail(s));
    ReadsOn(line, |s.name|, block, RenderTail(s));
  }

  /** Two label lists with the same text are the same list. */
  lemma {:induction false} LabelsInjective(ls: seq<Label>, c: bool, ls': seq<Label>, c': bool)
    requires ValidLabels(ls) && ValidLabels(ls') && RenderLabels(ls, c) == RenderLabels(ls', c')
    ensures ls == ls' && (ls != [] ==> c == c')
    decreases |ls|
  {
    var text := RenderLabels(ls, c);
    assert text == text + "";
    if ls != [] && ls' != [] {
      FirstLabel(ls, c, "");
      FirstLabel(ls', c', "");
      ReadsItself(text, 0);
      assert text[0..] == text;
      LabelAtPrinted(text, 0, ls[0], AfterFirst(ls, c) + "");
      LabelAtPrinted(text, 0, ls'[0], AfterFirst(ls', c') + "");
      assert ls[0] == ls'[0];
      assert AfterFirst(ls, c) == text[|RenderLabel(ls[0])|..] == AfterFirst(ls', c');
      RestInjective(ls, c, ls', c');
      assert ls == [ls[0]] + ls[1..] && ls' == [ls'[0]] + ls'[1..];
    } else if ls != [] {
      HeadIsNotBrace(ls, c);
    } else if ls' != [] {
      HeadIsNotBrace(ls', c');
    }
  }

  lemma HeadIsNotBrace(ls: seq<Label>, c: bool)
    requires ls != [] && ValidLabels(ls)
    ensures RenderLabels(ls, c)[0] != '}'
  {
    FirstLabel(ls, c, "");
    assert RenderLabels(ls, c)[0] == ls[0].name[0];
  }

  lemma RestInjective(ls: seq<Label>, c: bool, ls': seq<Label>, c': bool)
    requires ls != [] && ls' != [] && ValidLabels(ls) && ValidLabels(ls')
    requires AfterFirst(ls, c) == AfterFirst(ls', c')
    ensures ls[1..] == ls'[1..] && c == c'
    decreases |ls|, 0
  {
    var rest := AfterFirst(ls, c);
    if |ls| > 1 {
      HeadIsNotBrace(ls[1..], c);
      assert rest[1..] == RenderLabels(ls[1..], c);
    }
    if |ls'| > 1 {
      HeadIsNotBrace(ls'[1..], c');
      assert rest[1..] == RenderLabels(ls'[1..], c');
    }
    if |ls| > 1 && |ls'| > 1 {
      LabelsInjective(ls[1..], c, ls'[1..], c');
    }
  }

  /** Different names or label blocks never share an uncurated key. */
  lemma SeriesKeyInjective(s: Sample, s': Sample)
    requires ValidSample(s) && ValidSample(s')
    requires SeriesKey(s.name, Render(s)) == SeriesKey(s'.name, Render(s'))
    ensures s.name == s'.name && s.block == s'.block
  {
    SeriesKeyOfRender(s);
    SeriesKeyOfRender(s');
    NoBraceInTail(s);
    NoBraceInTail(s');
    var key := s.name + RenderBlock(s.block);
    KeyOpens(s);
    KeyOpens(s');
    assert s.name == key[..IndexOf(key, '{', 0)] == s'.name;
    assert RenderBlock(s.block) == key[|s.name|..] == RenderBlock(s'.block);
    if s.block.Block? && s'.block.Block? {
      assert RenderLabels(s.block.labels, s.block.trailingComma) == RenderBlock(s.block)[1..];
      assert RenderLabels(s'.block.labels, s'.block.trailingComma) == RenderBlock(s'.block)[1..];
      LabelsInjective(s.block.labels, s.block.trailingComma, s'.block.labels, s'.block.trailingComma);
    }
  }

  lemma KeysApart(s: Sample, s': Sample)
    requires ValidSample(s) && ValidSample(s') && (s.name, s.block) != (s'.name, s'.block)
    ensures SeriesKey(s.name, Render(s)) != SeriesKey(s'.name, Render(s'))
  {
    if SeriesKey(s.name, Render(s)) == SeriesKey(s'.name, Render(s')) {
      SeriesKeyInjective(s, s');
    }
  }

  lemma KeyOpens(s: Sample)
    requires ValidSample(s)
    ensures IndexOf(s.name + RenderBlock(s.block), '{', 0) == |s.name|
  {
    NoBraceInTail(s);
    var key := s.name + RenderBlock(s.block);
    forall j | 0 <= j < |s.name|
      ensures key[j] != '{'
    {
      assert key[j] == s.name[j];
    }
    if s.block.Block? {
      IndexOfAt(key, '{', 0, |s.name|);
    } else {
      assert key == s.name;
      IndexOfAbsent(key, '{', 0);
    }
  }
}

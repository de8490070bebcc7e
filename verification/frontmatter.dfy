/**
 The settings at the head of a Markdown file. Scanning cuts them off, parsing
 turns their lines into entries, and quoting writes a value that parses to itself.
 */
module Frontmatter {
  import opened Base

  // ---------------------------------------------------------------- characters and text

  predicate IsWhite(c: char) {
    var n := c as int;
    || 0x9 <= n <= 0xD || n == 0x20 || n == 0x85 || n == 0xA0 || n == 0x1680
    || 0x2000 <= n <= 0x200A || n == 0x2028 || n == 0x2029 || n == 0x202F || n == 0x205F || n == 0x3000
  }

  predicate IsControl(c: char) {
    c as int < 0x20 || 0x7F <= c as int <= 0x9F
  }

  predicate IsKeyChar(c: char) {
    'a' <= c <= 'z' || 'A' <= c <= 'Z' || '0' <= c <= '9' || c == '_' || c == '-'
  }

  predicate IsKey(key: string) {
    key != "" && forall i :: 0 <= i < |key| ==> IsKeyChar(key[i])
  }

  function TrimStart(s: string): string {
    if s != "" && IsWhite(s[0]) then TrimStart(s[1..]) else s
  }

  function TrimEnd(s: string): string {
    if s != "" && IsWhite(s[|s| - 1]) then TrimEnd(s[..|s| - 1]) else s
  }

  function Trim(s: string): string {
    TrimEnd(TrimStart(s))
  }

  function TrimCr(s: string): string {
    if s != "" && s[|s| - 1] == '\r' then TrimCr(s[..|s| - 1]) else s
  }

  function TrimCrLf(s: string): string {
    if s != "" && (s[|s| - 1] == '\r' || s[|s| - 1] == '\n') then TrimCrLf(s[..|s| - 1]) else s
  }

  predicate StartsWith(s: string, prefix: string) {
    |prefix| <= |s| && s[..|prefix|] == prefix
  }

  function IndexOf(s: string, c: char): (r: Option<nat>)
    ensures r.Some? ==> r.value < |s| && s[r.value] == c && forall i :: 0 <= i < r.value ==> s[i] != c
    ensures r.None? ==> forall i :: 0 <= i < |s| ==> s[i] != c
  {
    if s == "" then None
    else if s[0] == c then Some(0)
    else match IndexOf(s[1..], c)
      case None => None
      case Some(k) => Some(k + 1)
  }

  // ---------------------------------------------------------------- lines

  /** Where the first line ends, its newline included. */
  function LineEnd(s: string): (r: nat)
    ensures r <= |s| && (s != "" ==> r > 0)
  {
    match IndexOf(s, '\n')
    case Some(k) => k + 1
    case None => |s|
  }

  function Segments(s: string): (r: seq<string>) {
    if s == "" then [] else [s[..LineEnd(s)]] + Segments(s[LineEnd(s)..])
  }

  /** A line without its newline, and without the carriage return before that newline. */
  function StripNewline(segment: string): string {
    if segment == "" || segment[|segment| - 1] != '\n' then segment
    else
      var line := segment[..|segment| - 1];
      if line != "" && line[|line| - 1] == '\r' then line[..|line| - 1] else line
  }

  function Concat(parts: seq<string>): string {
    if parts == [] then "" else parts[0] + Concat(parts[1..])
  }

  /** A line by itself: no newline but at its end, which only the last may lack. */
  ghost predicate IsSegment(s: string) {
    s != "" && forall i :: 0 <= i < |s| - 1 ==> s[i] != '\n'
  }

  lemma {:induction false} SegmentsSplit(line: string, rest: string)
    requires IsSegment(line) && line[|line| - 1] == '\n'
    ensures Segments(line + rest) == [line] + Segments(rest)
  {
    var s := line + rest;
    assert IndexOf(s, '\n') == Some(|line| - 1) by {
      assert s[|line| - 1] == '\n';
      assert forall i :: 0 <= i < |line| - 1 ==> s[i] == line[i];
    }
    assert s[..|line|] == line && s[|line|..] == rest;
  }

  // ---------------------------------------------------------------- scanning

  datatype Scanned = Scanned(frontmatter: Option<string>, body: string)

  datatype Unterminated = Unterminated

  predicate IsDelimiter(segment: string) {
    TrimCrLf(segment) == "---"
  }

  /** The lines before the first delimiter line, and the text after it. */
  function Cut(text: string): (r: Option<(string, string)>)
    decreases |text|
  {
    if text == "" then None
    else
      var n := LineEnd(text);
      if IsDelimiter(text[..n]) then Some(("", text[n..]))
      else After(text[..n], Cut(text[n..]))
  }

  function After(line: string, cut: Option<(string, string)>): Option<(string, string)> {
    match cut
    case None => None
    case Some((block, body)) => Some((line + block, body))
  }

  const BOM: string := "\U{FEFF}"

  function WithoutBom(raw: string): string {
    if StartsWith(raw, BOM) then raw[1..] else raw
  }

  /** What follows the opening line, when there is one. */
  function Opening(raw: string): Option<string> {
    if StartsWith(raw, "---\r\n") then Some(raw[5..])
    else if StartsWith(raw, "---\n") then Some(raw[4..])
    else None
  }

  function Scan(raw: string): (r: Result<Scanned, Unterminated>) {
    var text := WithoutBom(raw);
    match Opening(text)
    case None => Ok(Scanned(None, text))
    case Some(opening) =>
      match Cut(opening)
      case Some((block, body)) => Ok(Scanned(Some(block), body))
      case None => Err(Unterminated)
  }

  /** A byte order mark makes no difference, and neither does the spelling of the opening line's end. */
  lemma {:induction false} OpeningSpellings(text: string)
    ensures !StartsWith(text, BOM) ==> Scan(BOM + text) == Scan(text)
    ensures Scan("---\r\n" + text) == Scan("---\n" + text)
    ensures Cut(text).None? ==> Scan("---\n" + text) == Err(Unterminated)
    ensures Cut(text).Some? ==>
              Scan("---\n" + text) == Ok(Scanned(Some(Cut(text).value.0), Cut(text).value.1))
  {
    assert StartsWith(BOM + text, BOM) && (BOM + text)[1..] == text;
    OpensWith("---\n", text);
    OpensWith("---\r\n", text);
  }

  lemma {:induction false} OpensWith(line: string, text: string)
    requires line == "---\n" || line == "---\r\n"
    ensures WithoutBom(line + text) == line + text && Opening(line + text) == Some(text)
  {
    var raw := line + text;
    assert raw[..|line|] == line && raw[|line|..] == text;
    assert !StartsWith(raw, BOM) by { assert raw[..1][0] == '-'; }
    if line == "---\n" {
      assert !StartsWith(raw, "---\r\n") by { assert |raw| >= 5 ==> raw[..5][3] == '\n'; }
    }
  }

  /** Text that does not open with a delimiter line is all body. */
  lemma {:induction false} NoOpening(text: string)
    requires !StartsWith(text, BOM) && !StartsWith(text, "---\n") && !StartsWith(text, "---\r\n")
    ensures Scan(text) == Ok(Scanned(None, text))
  {
  }

  lemma {:induction false} FirstLine(line: string, rest: string)
    requires IsSegment(line) && (line[|line| - 1] == '\n' || rest == "")
    ensures LineEnd(line + rest) == |line| && (line + rest)[..|line|] == line && (line + rest)[|line|..] == rest
  {
    var s := line + rest;
    assert forall i :: 0 <= i < |line| ==> s[i] == line[i];
    if line[|line| - 1] == '\n' {
      assert s[|line| - 1] == '\n';
      assert IndexOf(s, '\n') == Some(|line| - 1);
    } else {
      assert s == line;
      assert IndexOf(s, '\n') == None;
    }
  }

  lemma {:induction false} CutAt(closing: string, body: string)
    requires IsSegment(closing) && IsDelimiter(closing) && (closing[|closing| - 1] == '\n' || body == "")
    ensures Cut(closing + body) == Some(("", body))
  {
    FirstLine(closing, body);
  }

  lemma {:induction false} CutPast(line: string, rest: string)
    requires IsSegment(line) && line[|line| - 1] == '\n' && !IsDelimiter(line)
    ensures Cut(line + rest) == After(line, Cut(rest))
  {
    FirstLine(line, rest);
  }

  /** A whole line that does not close the block. */
  ghost predicate IsInnerLine(line: string) {
    IsSegment(line) && line[|line| - 1] == '\n' && !IsDelimiter(line)
  }

  /** A delimiter line after other lines closes the block there, whatever follows it. */
  lemma {:induction false} CutFindsFirst(lines: seq<string>, closing: string, body: string)
    requires forall i :: 0 <= i < |lines| ==> IsInnerLine(lines[i])
    requires IsSegment(closing) && IsDelimiter(closing) && (closing[|closing| - 1] == '\n' || body == "")
    ensures Cut(Concat(lines) + (closing + body)) == Some((Concat(lines), body))
    decreases |lines|
  {
    var end := closing + body;
    if lines == [] {
      assert Concat(lines) == "" && "" + end == end;
      CutAt(closing, body);
    } else {
      var line, more := lines[0], Concat(lines[1..]);
      assert Cut(more + end) == Some((more, body)) by { CutFindsFirst(lines[1..], closing, body); }
      assert Concat(lines) == line + more;
      Regroup(line, more, end);
      assert Cut(line + (more + end)) == After(line, Cut(more + end)) by {
        assert IsInnerLine(line);
        CutPast(line, more + end);
      }
    }
  }

  /** None of the lines is a delimiter. */
  ghost predicate NoDelimiter(segments: seq<string>) {
    forall i :: 0 <= i < |segments| ==> !IsDelimiter(segments[i])
  }

  /** The first line of a non-empty text, and the rest. */
  lemma {:induction false} SplitFirst(text: string) returns (line: string, rest: string)
    requires text != ""
    ensures text == line + rest && line == text[..LineEnd(text)] && rest == text[LineEnd(text)..]
    ensures IsSegment(line) && (line[|line| - 1] == '\n' || rest == "") && |rest| < |text|
    ensures Segments(text) == [line] + Segments(rest)
  {
    line, rest := text[..LineEnd(text)], text[LineEnd(text)..];
  }

  /** A text has no block exactly when none of its lines is a delimiter. */
  lemma {:induction false} UncutIffNoDelimiter(text: string)
    ensures Cut(text).None? <==> NoDelimiter(Segments(text))
    decreases |text|
  {
    if text != "" {
      var line, rest := SplitFirst(text);
      if IsDelimiter(line) {
        assert ([line] + Segments(rest))[0] == line;
      } else {
        assert Cut(text) == After(line, Cut(rest));
        UncutIffNoDelimiter(rest);
        NoDelimiterFrom(line, Segments(rest));
      }
    }
  }

  /** `cut` is `text` split at `closing`, its first delimiter line. */
  ghost predicate Partition(text: string, cut: Option<(string, string)>, closing: string) {
    cut.Some? ==>
      && text == cut.value.0 + closing + cut.value.1
      && IsDelimiter(closing)
      && NoDelimiter(Segments(cut.value.0))
  }

  lemma {:induction false} PartitionAfter(line: string, rest: string, cut: Option<(string, string)>, closing: string)
    requires Partition(rest, cut, closing) && IsSegment(line) && !IsDelimiter(line)
    requires cut.Some? ==> line[|line| - 1] == '\n'
    ensures Partition(line + rest, After(line, cut), closing)
  {
    if cut.Some? {
      var (block, body) := cut.value;
      assert line + (block + closing + body) == (line + block) + closing + body;
      SegmentsSplit(line, block);
      NoDelimiterFrom(line, Segments(block));
    }
  }

  lemma {:induction false} PartitionHere(line: string, rest: string)
    requires IsDelimiter(line)
    ensures Partition(line + rest, Some(("", rest)), line)
  {
    assert "" + line + rest == line + rest;
  }

  /** Block, closing line and body make up the text, and no earlier line is a delimiter. */
  lemma {:induction false} CutPartitions(text: string) returns (closing: string)
    ensures Partition(text, Cut(text), closing)
    decreases |text|
  {
    closing := "";
    if text != "" {
      var line, rest := SplitFirst(text);
      if IsDelimiter(line) {
        closing := line;
        assert Cut(text) == Some(("", rest));
        PartitionHere(line, rest);
      } else {
        assert Cut(text) == After(line, Cut(rest));
        closing := CutPartitions(rest);
        assert rest == "" ==> Cut(rest).None?;
        PartitionAfter(line, rest, Cut(rest), closing);
      }
    }
  }

  lemma {:induction false} NoDelimiterFrom(line: string, segments: seq<string>)
    requires !IsDelimiter(line)
    ensures NoDelimiter([line] + segments) <==> NoDelimiter(segments)
  {
    if NoDelimiter([line] + segments) {
      forall i | 0 <= i < |segments| ensures !IsDelimiter(segments[i]) {
        assert ([line] + segments)[i + 1] == segments[i];
      }
    }
  }

  // ---------------------------------------------------------------- values

  datatype Scalar = Text(text: string) | Bool(value: bool) | Null

  datatype Reason =
    | Indented | ListItem | NotKeyValue | NotAKey | NeedsSpace | GivenTwice
    | UnreadValue | BadEscape | UnknownEscape | NoClosingQuote | AfterClosingQuote

  datatype ParseError = ParseError(line: nat, reason: Reason)

  function HexDigit(n: nat): char
    requires n < 16
  {
    "0123456789abcdef"[n]
  }

  function HexValue(c: char): Option<nat> {
    if '0' <= c <= '9' then Some(c as int - '0' as int)
    else if 'a' <= c <= 'f' then Some(c as int - 'a' as int + 10)
    else if 'A' <= c <= 'F' then Some(c as int - 'A' as int + 10)
    else None
  }

  function HexDigits(s: string): Option<nat> {
    if s == "" then Some(0)
    else match (HexDigits(s[..|s| - 1]), HexValue(s[|s| - 1]))
      case (Some(high), Some(low)) => Some(16 * high + low)
      case _ => None
  }

  /** A hexadecimal number, a leading plus sign allowed. */
  function FromHex(s: string): Option<nat> {
    if s == "" || s == "+" then None
    else if s[0] == '+' then HexDigits(s[1..])
    else HexDigits(s)
  }

  /** The character a `\u` escape names; surrogates name none. */
  function EscapedChar(hex: string): Option<char> {
    match FromHex(hex)
    case Some(n) => if n < 0xD800 || 0xE000 <= n < 0x110000 then Some(n as char) else None
    case None => None
  }

  function SimpleEscape(c: char): Option<char> {
    match c
    case '"' => Some('"')
    case '\\' => Some('\\')
    case '/' => Some('/')
    case 'n' => Some('\n')
    case 't' => Some('\t')
    case 'r' => Some('\r')
    case '0' => Some('\0')
    case _ => None
  }

  /** Only blanks are left, or blanks and a comment. */
  predicate Trailing(rest: string) {
    var s := TrimStart(rest);
    s == "" || s[0] == '#'
  }

  /** The rest of a double-quoted value, `out` being what was read of it so far. */
  function DoubleQuoted(rest: string, out: string): (r: Result<string, Reason>)
    decreases |rest|
  {
    if rest == "" then Err(NoClosingQuote)
    else if rest[0] == '"' then (if Trailing(rest[1..]) then Ok(out) else Err(AfterClosingQuote))
    else if rest[0] != '\\' then DoubleQuoted(rest[1..], out + [rest[0]])
    else if |rest| == 1 then Err(NoClosingQuote)
    else if rest[1] == 'u' then
      var hex := if |rest| < 6 then rest[2..] else rest[2..6];
      match EscapedChar(hex)
      case Some(c) => DoubleQuoted(rest[2 + |hex|..], out + [c])
      case None => Err(BadEscape)
    else match SimpleEscape(rest[1])
      case Some(c) => DoubleQuoted(rest[2..], out + [c])
      case None => Err(UnknownEscape)
  }

  /** The rest of a single-quoted value, where a doubled quote is one quote. */
  function SingleQuoted(rest: string, out: string): (r: Result<string, Reason>)
    decreases |rest|
  {
    match IndexOf(rest, '\'')
    case None => Err(NoClosingQuote)
    case Some(at) =>
      var after := rest[at + 1..];
      if after != "" && after[0] == '\'' then SingleQuoted(after[1..], out + rest[..at] + "'")
      else if Trailing(after) then Ok(out + rest[..at])
      else Err(AfterClosingQuote)
  }

  function IndexOfComment(s: string): (r: Option<nat>)
    ensures r.Some? ==> r.value <= |s|
  {
    if |s| < 2 then None
    else if s[0] == ' ' && s[1] == '#' then Some(0)
    else match IndexOfComment(s[1..])
      case None => None
      case Some(k) => Some(k + 1)
  }

  predicate BeginsUnread(c: char) {
    c in "[{|>&*!%@`"
  }

  function PlainScalar(text: string): Scalar {
    var plain := match IndexOfComment(text) case Some(at) => TrimEnd(text[..at]) case None => text;
    if plain == "true" then Bool(true)
    else if plain == "false" then Bool(false)
    else if plain == "null" || plain == "~" then Null
    else Text(plain)
  }

  function AsText(r: Result<string, Reason>): Result<Scalar, Reason> {
    match r
    case Ok(text) => Ok(Text(text))
    case Err(reason) => Err(reason)
  }

  /** The value a trimmed text stands for. */
  function ScalarOf(text: string): (r: Result<Scalar, Reason>) {
    if text == "" then Ok(Null)
    else if text[0] == '"' then AsText(DoubleQuoted(text[1..], ""))
    else if text[0] == '\'' then AsText(SingleQuoted(text[1..], ""))
    else if BeginsUnread(text[0]) then Err(UnreadValue)
    else Ok(PlainScalar(text))
  }

  // ---------------------------------------------------------------- the block

  type Entry = (string, Scalar)

  predicate Has(entries: seq<Entry>, key: string) {
    exists i :: 0 <= i < |entries| && entries[i].0 == key
  }

  /** One line of the block: nothing, an entry, or an error. */
  function ParseLine(raw: string, entries: seq<Entry>): (r: Result<Option<Entry>, Reason>) {
    var line := TrimCr(raw);
    var trimmed := Trim(line);
    if trimmed == "" || trimmed[0] == '#' then Ok(None)
    else if line != "" && (line[0] == ' ' || line[0] == '\t') then Err(Indented)
    else if StartsWith(trimmed, "- ") || trimmed == "-" then Err(ListItem)
    else match IndexOf(line, ':')
      case None => Err(NotKeyValue)
      case Some(at) =>
        var key, rest := Trim(line[..at]), line[at + 1..];
        if !IsKey(key) then Err(NotAKey)
        else if rest != "" && rest[0] != ' ' && rest[0] != '\t' then Err(NeedsSpace)
        else if Has(entries, key) then Err(GivenTwice)
        else match ScalarOf(Trim(rest))
          case Ok(value) => Ok(Some((key, value)))
          case Err(reason) => Err(reason)
  }

  function Extended(entries: seq<Entry>, line: Option<Entry>): seq<Entry> {
    if line.Some? then entries + [line.value] else entries
  }

  /** Reads one line, given the entries before it. */
  type LineReader = (string, seq<Entry>) -> Result<Option<Entry>, Reason>

  /** The entries of the first `n` lines; the first error, with its line number, stops it. */
  function ParseLines(read: LineReader, lines: seq<string>, n: nat): (r: Result<seq<Entry>, ParseError>)
    requires n <= |lines|
  {
    if n == 0 then Ok([])
    else match ParseLines(read, lines, n - 1)
      case Err(error) => Err(error)
      case Ok(entries) =>
        match read(lines[n - 1], entries)
        case Ok(entry) => Ok(Extended(entries, entry))
        case Err(reason) => Err(ParseError(n, reason))
  }

  function Lines(block: string): (r: seq<string>) {
    var segments := Segments(block);
    seq(|segments|, i requires 0 <= i < |segments| => StripNewline(segments[i]))
  }

  function Parse(block: string): (r: Result<seq<Entry>, ParseError>) {
    ParseLines(ParseLine, Lines(block), |Lines(block)|)
  }

  ghost predicate DistinctKeys(entries: seq<Entry>) {
    forall i, j :: 0 <= i < j < |entries| ==> entries[i].0 != entries[j].0
  }

  /** Whatever the block, what parses has valid keys and gives none twice. */
  lemma {:induction false} ParsedKeysAreDistinct(lines: seq<string>, n: nat)
    requires n <= |lines| && ParseLines(ParseLine, lines, n).Ok?
    ensures DistinctKeys(ParseLines(ParseLine, lines, n).value)
    ensures forall i :: 0 <= i < |ParseLines(ParseLine, lines, n).value| ==>
          IsKey(ParseLines(ParseLine, lines, n).value[i].0)
    decreases n
  {
    if n > 0 {
      ParsedKeysAreDistinct(lines, n - 1);
      var entries := ParseLines(ParseLine, lines, n - 1).value;
      var entry := ParseLine(lines[n - 1], entries).value;
      if entry.Some? {
        assert !Has(entries, entry.value.0);
      }
    }
  }

  // ---------------------------------------------------------------- quoting

  function Hex4(n: nat): string
    requires n < 0x10000
  {
    [HexDigit(n / 16 / 16 / 16), HexDigit(n / 16 / 16 % 16), HexDigit(n / 16 % 16), HexDigit(n % 16)]
  }

  function QuoteChar(c: char): (r: string)
    ensures r != ""
  {
    if c == '"' then "\\\""
    else if c == '\\' then "\\\\"
    else if c == '\n' then "\\n"
    else if c == '\t' then "\\t"
    else if c == '\r' then "\\r"
    else if IsControl(c) then "\\u" + Hex4(c as int)
    else [c]
  }

  function QuoteBody(value: string): (r: string) {
    if value == "" then "" else QuoteChar(value[0]) + QuoteBody(value[1..])
  }

  function Quoted(value: string): (r: string) {
    "\"" + QuoteBody(value) + "\""
  }

  lemma {:induction false} HexDigitReads(n: nat)
    requires n < 16
    ensures HexValue(HexDigit(n)) == Some(n) && HexDigit(n) != '+'
  {
  }

  lemma {:induction false} HexDigitsAppend(s: string, c: char, high: nat, low: nat)
    requires HexValue(c) == Some(low) && HexDigits(s) == Some(high)
    ensures HexDigits(s + [c]) == Some(16 * high + low)
  {
    assert (s + [c])[..|s|] == s;
  }

  lemma {:induction false} FourDigits(w: char, x: char, y: char, z: char, a: nat, b: nat, c: nat, d: nat)
    requires HexValue(w) == Some(a) && HexValue(x) == Some(b) && HexValue(y) == Some(c) && HexValue(z) == Some(d) &&
          w != '+'
    ensures FromHex([w, x, y, z]) == Some(16 * (16 * (16 * a + b) + c) + d)
  {
    HexDigitsAppend([], w, 0, a);
    HexDigitsAppend([] + [w], x, a, b);
    HexDigitsAppend([] + [w] + [x], y, 16 * a + b, c);
    HexDigitsAppend([] + [w] + [x] + [y], z, 16 * (16 * a + b) + c, d);
    assert [w, x, y, z] == [] + [w] + [x] + [y] + [z];
  }

  lemma {:induction false} Hex4Reads(n: nat)
    requires n < 0x10000
    ensures FromHex(Hex4(n)) == Some(n)
  {
    var a, b, c, d := n / 16 / 16 / 16, n / 16 / 16 % 16, n / 16 % 16, n % 16;
    HexDigitReads(a);
    HexDigitReads(b);
    HexDigitReads(c);
    HexDigitReads(d);
    FourDigits(HexDigit(a), HexDigit(b), HexDigit(c), HexDigit(d), a, b, c, d);
  }

  /** Each quoted character reads back as itself. */
  lemma {:induction false} UnquoteChar(c: char, tail: string, out: string)
    ensures DoubleQuoted(QuoteChar(c) + tail, out) == DoubleQuoted(tail, out + [c])
  {
    var rest := QuoteChar(c) + tail;
    if c == '"' || c == '\\' || c == '\n' || c == '\t' || c == '\r' {
      assert rest[2..] == tail;
    } else if IsControl(c) {
      var hex := Hex4(c as int);
      assert rest == "\\u" + hex + tail;
      assert rest[2..6] == hex && rest[6..] == tail;
      Hex4Reads(c as int);
    } else {
      assert rest[1..] == tail;
    }
  }

  lemma {:induction false} UnquoteBody(value: string, tail: string, out: string)
    ensures DoubleQuoted(QuoteBody(value) + tail, out) == DoubleQuoted(tail, out + value)
    decreases |value|
  {
    if value == "" {
      assert QuoteBody(value) + tail == tail && out + value == out;
    } else {
      var c, more := value[0], value[1..];
      assert QuoteBody(value) + tail == QuoteChar(c) + (QuoteBody(more) + tail);
      UnquoteChar(c, QuoteBody(more) + tail, out);
      UnquoteBody(more, tail, out + [c]);
      assert out + [c] + more == out + value;
    }
  }

  /**
   Any value, quoted, is read back as that text, whatever it holds, if what follows the closing quote is blank or a
   comment. Anything else after the quote is an error.
   */
  lemma {:induction false} QuotedThen(value: string, tail: string)
    ensures ScalarOf(Quoted(value) + tail) == if Trailing(tail) then Ok(Text(value)) else Err(AfterClosingQuote)
  {
    var text, closing := Quoted(value) + tail, "\"" + tail;
    assert text[1..] == QuoteBody(value) + closing;
    UnquoteBody(value, closing, "");
    assert "" + value == value && closing[1..] == tail;
  }

  lemma {:induction false} ReadsBack(value: string)
    ensures ScalarOf(Quoted(value)) == Ok(Text(value))
  {
    QuotedThen(value, "");
    assert Quoted(value) + "" == Quoted(value);
  }

  /** A value with every single quote doubled. */
  function Doubled(value: string): string {
    match IndexOf(value, '\'')
    case None => value
    case Some(k) => value[..k] + "''" + Doubled(value[k + 1..])
  }

  lemma {:induction false} IndexOfFirst(s: string, k: nat, c: char)
    requires k < |s| && s[k] == c && forall i :: 0 <= i < k ==> s[i] != c
    ensures IndexOf(s, c) == Some(k)
  {
  }

  lemma {:induction false} SingleCloses(rest: string, k: nat, out: string)
    requires k < |rest| && rest[k] == '\'' && forall i :: 0 <= i < k ==> rest[i] != '\''
    requires k + 1 == |rest| || rest[k + 1] != '\''
    ensures SingleQuoted(rest, out) == if Trailing(rest[k + 1..]) then Ok(out + rest[..k]) else Err(AfterClosingQuote)
  {
    IndexOfFirst(rest, k, '\'');
  }

  lemma {:induction false} SingleGoesOn(rest: string, k: nat, out: string)
    requires k + 1 < |rest| && rest[k] == '\'' && rest[k + 1] == '\'' && forall i :: 0 <= i < k ==> rest[i] != '\''
    ensures SingleQuoted(rest, out) == SingleQuoted(rest[k + 2..], out + rest[..k] + "'")
  {
    IndexOfFirst(rest, k, '\'');
    assert rest[k + 1..][1..] == rest[k + 2..];
  }

  lemma {:induction false} DoubledAt(value: string, k: nat, closing: string)
    requires IndexOf(value, '\'') == Some(k)
    ensures var text := Doubled(value) + closing;
            && |text| > k + 1 && text[k] == '\'' && text[k + 1] == '\''
            && text[..k] == value[..k] && text[k + 2..] == Doubled(value[k + 1..]) + closing
  {
  }

  lemma {:induction false} UnquoteSingle(value: string, tail: string, out: string)
    requires tail == "" || tail[0] != '\''
    ensures SingleQuoted(Doubled(value) + ("'" + tail), out)
            == if Trailing(tail) then Ok(out + value) else Err(AfterClosingQuote)
    decreases |value|
  {
    var closing := "'" + tail;
    var text := Doubled(value) + closing;
    match IndexOf(value, '\'')
    case None =>
      assert text[..|value|] == value && text[|value| + 1..] == tail;
      SingleCloses(text, |value|, out);
    case Some(k) =>
      DoubledAt(value, k, closing);
      assert forall i :: 0 <= i < k ==> text[i] == text[..k][i];
      SingleGoesOn(text, k, out);
      UnquoteSingle(value[k + 1..], tail, out + value[..k] + "'");
      Rejoin(value, k, out);
  }

  lemma {:induction false} Rejoin(value: string, k: nat, out: string)
    requires k < |value| && value[k] == '\''
    ensures out + value[..k] + "'" + value[k + 1..] == out + value
  {
    assert value == value[..k] + "'" + value[k + 1..];
  }

  /** The same between single quotes, where only the quote itself is doubled. */
  lemma {:induction false} SingleQuotedThen(value: string, tail: string)
    requires tail == "" || tail[0] != '\''
    ensures ScalarOf("'" + (Doubled(value) + ("'" + tail)))
            == if Trailing(tail) then Ok(Text(value)) else Err(AfterClosingQuote)
  {
    var inner := Doubled(value) + ("'" + tail);
    assert ("'" + inner)[1..] == inner;
    UnquoteSingle(value, tail, "");
    assert "" + value == value;
  }

  ghost predicate NoComment(text: string) {
    forall i :: 0 <= i < |text| - 1 && text[i] == ' ' ==> text[i + 1] != '#'
  }

  lemma {:induction false} NoCommentFound(text: string)
    requires NoComment(text)
    ensures IndexOfComment(text).None?
    decreases |text|
  {
    if |text| >= 2 {
      forall i | 0 <= i < |text[1..]| - 1 && text[1..][i] == ' ' ensures text[1..][i + 1] != '#' {
        assert text[i + 1] == ' ';
      }
      NoCommentFound(text[1..]);
    }
  }

  predicate IsKeyword(text: string) {
    text == "true" || text == "false" || text == "null" || text == "~"
  }

  /** Without quotes, a value is refused exactly for how it begins, and plain text stands for itself. */
  lemma {:induction false} PlainReadsBack(text: string)
    requires text != "" && text[0] != '"' && text[0] != '\''
    ensures ScalarOf(text) == Err(UnreadValue) <==> text[0] in {'[', '{', '|', '>', '&', '*', '!', '%', '@', '`'}
    ensures ScalarOf(text).Err? ==> ScalarOf(text) == Err(UnreadValue)
    ensures NoComment(text) && !IsKeyword(text) && !BeginsUnread(text[0]) ==> ScalarOf(text) == Ok(Text(text))
  {
    if NoComment(text) {
      NoCommentFound(text);
    }
  }

  lemma {:induction false} CommentFound(plain: string, rest: string)
    requires NoComment(plain)
    ensures IndexOfComment(plain + (" #" + rest)) == Some(|plain|)
    decreases |plain|
  {
    var text := plain + (" #" + rest);
    assert text[|plain|] == ' ' && text[|plain| + 1] == '#';
    if plain != "" {
      var more := plain[1..];
      forall i | 0 <= i < |more| - 1 && more[i] == ' ' ensures more[i + 1] != '#' {
        assert plain[i + 1] == ' ';
      }
      CommentFound(more, rest);
      assert text[1..] == more + (" #" + rest);
    }
  }

  lemma {:induction false} TrimEndIsPrefix(s: string)
    ensures TrimEnd(s) <= s && (s != "" && !IsWhite(s[0]) ==> TrimEnd(s) != "")
    decreases |s|
  {
    if s != "" && IsWhite(s[|s| - 1]) {
      TrimEndIsPrefix(s[..|s| - 1]);
    }
  }

  /** A comment after plain text is cut off, with the blanks before it: what is left is read as if it stood alone. */
  lemma {:induction false} CommentIsCut(plain: string, rest: string)
    requires plain != "" && !IsWhite(plain[0]) && plain[0] != '"' && plain[0] != '\'' && NoComment(plain)
    ensures ScalarOf(plain + (" #" + rest)) == ScalarOf(TrimEnd(plain))
  {
    var text, word := plain + (" #" + rest), TrimEnd(plain);
    CommentFound(plain, rest);
    assert text[..|plain|] == plain && text[0] == plain[0];
    TrimEndIsPrefix(plain);
    assert NoComment(word);
    NoCommentFound(word);
  }

  ghost predicate OneLine(s: string) {
    forall i :: 0 <= i < |s| ==> s[i] != '\n' && s[i] != '\r'
  }

  lemma {:induction false} QuoteBodyIsOneLine(value: string)
    ensures OneLine(QuoteBody(value))
    decreases |value|
  {
    if value != "" {
      QuoteBodyIsOneLine(value[1..]);
      QuoteCharIsOneLine(value[0]);
    }
  }

  lemma {:induction false} QuoteCharIsOneLine(c: char)
    ensures OneLine(QuoteChar(c))
  {
    if IsControl(c) {
      var n := c as int;
      HexDigitReads(n / 16 / 16 / 16);
      HexDigitReads(n / 16 / 16 % 16);
      HexDigitReads(n / 16 % 16);
      HexDigitReads(n % 16);
      assert HexValue('\n') == None && HexValue('\r') == None;
      assert OneLine(Hex4(n));
    }
  }

  function EntryLine(key: string, value: string): string {
    key + ": " + Quoted(value)
  }

  lemma {:induction false} EntryLineShape(key: string, value: string)
    requires IsKey(key)
    ensures var line := EntryLine(key, value);
            && OneLine(line) && line != "" && IsKeyChar(line[0]) && line[|line| - 1] == '"'
            && line[..|key|] == key && line[|key|] == ':' && line[|key| + 1..] == " " + Quoted(value)
  {
    QuoteBodyIsOneLine(value);
    var line := EntryLine(key, value);
    assert line[|line| - 1] == Quoted(value)[|Quoted(value)| - 1];
    assert line[|key| + 1..] == " " + Quoted(value);
    forall i | 0 <= i < |line| ensures line[i] != '\n' && line[i] != '\r' {
      if i < |key| { assert IsKeyChar(line[i]); }
    }
  }

  lemma {:induction false} TrimNothing(s: string)
    requires s != "" && !IsWhite(s[0]) && !IsWhite(s[|s| - 1])
    ensures Trim(s) == s && TrimCr(s) == s
  {
  }

  ghost predicate IsGap(gap: string) {
    forall i :: 0 <= i < |gap| ==> gap[i] == ' ' || gap[i] == '\t'
  }

  lemma {:induction false} TrimStartGap(gap: string, s: string)
    requires IsGap(gap) && (s == "" || !IsWhite(s[0]))
    ensures TrimStart(gap + s) == s
    decreases |gap|
  {
    if gap == "" {
      assert gap + s == s;
    } else {
      assert (gap + s)[1..] == gap[1..] + s;
      TrimStartGap(gap[1..], s);
    }
  }

  lemma {:induction false} TrimEndGap(s: string, gap: string)
    requires IsGap(gap) && (s == "" || !IsWhite(s[|s| - 1]))
    ensures TrimEnd(s + gap) == s
    decreases |gap|
  {
    if gap == "" {
      assert s + gap == s;
    } else {
      var less := gap[..|gap| - 1];
      assert (s + gap)[..|s + gap| - 1] == s + less;
      TrimEndGap(s, less);
    }
  }

  /** A value as it may be written: nothing, or something without blanks around it. */
  ghost predicate IsTight(text: string) {
    text != "" ==> !IsWhite(text[0]) && !IsWhite(text[|text| - 1])
  }

  lemma {:induction false} TrimGap(gap: string, text: string)
    requires IsGap(gap) && IsTight(text)
    ensures Trim(gap + text) == text
  {
    TrimStartGap(gap, text);
    TrimEndGap(text, "");
    assert text + "" == text;
  }

  /** What a written line is once trimmed: it starts with its key and the colon, and it is no list item. */
  lemma {:induction false} WrittenLineTrimmed(key: string, gap: string, text: string)
    requires IsKey(key) && IsGap(gap) && IsTight(text)
    ensures var line := key + ":" + (gap + text);
            && TrimCr(line) == line && Trim(line) != "" && Trim(line)[0] == key[0]
            && !StartsWith(Trim(line), "- ") && Trim(line) != "-"
  {
    var head := key + ":";
    var line := head + (gap + text);
    assert line[0] == key[0] && IsKeyChar(key[0]);
    assert TrimStart(line) == line;
    if text == "" {
      assert gap + text == gap;
      TrimEndGap(head, gap);
      NotAListItem(key, "");
      assert head + "" == head;
    } else {
      assert line[|line| - 1] == text[|text| - 1];
      TrimNothing(line);
      NotAListItem(key, gap + text);
    }
  }

  lemma {:induction false} NotAListItem(key: string, rest: string)
    requires IsKey(key)
    ensures !StartsWith(key + ":" + rest, "- ") && key + ":" + rest != "-"
  {
    var line := key + ":" + rest;
    assert line[1] == if |key| > 1 then key[1] else ':';
    assert |key| > 1 ==> IsKeyChar(key[1]);
    assert line[..2][1] == line[1];
  }

  lemma {:induction false} WrittenLineSplits(key: string, rest: string)
    requires IsKey(key)
    ensures var line := key + ":" + rest;
            IndexOf(line, ':') == Some(|key|) && line[..|key|] == key && line[|key| + 1..] == rest && Trim(key) == key
  {
    var line := key + ":" + rest;
    forall i | 0 <= i < |key| ensures line[i] != ':' {
      assert line[i] == key[i] && IsKeyChar(key[i]);
    }
    IndexOfFirst(line, |key|, ':');
    assert IsKeyChar(key[0]) && IsKeyChar(key[|key| - 1]);
    TrimNothing(key);
  }

  /**
   A valid key, a colon, and after some blanks any value at all: the line gives that key the value as read, passes on
   the error in reading it, and is refused when the key was given before.
   */
  lemma {:induction false} WrittenLineParses(key: string, gap: string, text: string, entries: seq<Entry>)
    requires IsKey(key) && IsGap(gap) && IsTight(text) && (text != "" ==> gap != "")
    ensures ParseLine(key + ":" + (gap + text), entries) ==
              if Has(entries, key) then Err(GivenTwice)
              else match ScalarOf(text)
                case Ok(value) => Ok(Some((key, value)))
                case Err(reason) => Err(reason)
  {
    var line := key + ":" + (gap + text);
    assert line[0] == key[0] && IsKeyChar(key[0]);
    WrittenLineTrimmed(key, gap, text);
    WrittenLineSplits(key, gap + text);
    TrimGap(gap, text);
  }

  /** What may follow a closing quote: blanks to the end of the line, or up to a comment. */
  lemma {:induction false} TrailingMeans(rest: string)
    ensures Trailing(rest) <==>
              exists k :: 0 <= k <= |rest| && (k == |rest| || rest[k] == '#') &&
                          forall i :: 0 <= i < k ==> IsWhite(rest[i])
  {
    var n := TrimmedFrom(rest);
    if k :| 0 <= k <= |rest| && (k == |rest| || rest[k] == '#') && forall i :: 0 <= i < k ==> IsWhite(rest[i]) {
      assert k == n;
    }
  }

  /** Where the first character that is no blank stands. */
  lemma {:induction false} TrimmedFrom(s: string) returns (n: nat)
    ensures n <= |s| && TrimStart(s) == s[n..] && forall i :: 0 <= i < n ==> IsWhite(s[i])
    ensures n < |s| ==> !IsWhite(s[n])
    decreases |s|
  {
    if s == "" || !IsWhite(s[0]) {
      n := 0;
    } else {
      var m := TrimmedFrom(s[1..]);
      n := m + 1;
      assert s[1..][m..] == s[n..];
    }
  }

  /** The escapes a double-quoted value knows besides `\\u`, and what becomes of any other. */
  lemma {:induction false} EscapesMean(c: char, tail: string, out: string)
    ensures c in {'"', '\\', '/'} ==> DoubleQuoted("\\" + [c] + tail, out) == DoubleQuoted(tail, out + [c])
    ensures DoubleQuoted("\\" + ['n'] + tail, out) == DoubleQuoted(tail, out + ['\n'])
    ensures DoubleQuoted("\\" + ['t'] + tail, out) == DoubleQuoted(tail, out + ['\t'])
    ensures DoubleQuoted("\\" + ['r'] + tail, out) == DoubleQuoted(tail, out + ['\r'])
    ensures DoubleQuoted("\\" + ['0'] + tail, out) == DoubleQuoted(tail, out + ['\0'])
    ensures c !in {'"', '\\', '/', 'n', 't', 'r', '0', 'u'} ==>
              DoubleQuoted("\\" + [c] + tail, out) == Err(UnknownEscape)
  {
    if c != 'u' {
      EscapeReads(c, tail, out);
    }
    EscapeReads('n', tail, out);
    EscapeReads('t', tail, out);
    EscapeReads('r', tail, out);
    EscapeReads('0', tail, out);
  }

  lemma {:induction false} EscapeReads(c: char, tail: string, out: string)
    requires c != 'u'
    ensures DoubleQuoted("\\" + [c] + tail, out) ==
            match SimpleEscape(c)
            case Some(meant) => DoubleQuoted(tail, out + [meant])
            case None => Err(UnknownEscape)
  {
    var text := "\\" + [c] + tail;
    assert text[0] == '\\' && text[1] == c && text[2..] == tail;
  }

  /** Four hexadecimal digits name their character, unless that is half of a surrogate pair. */
  lemma {:induction false} UnicodeEscapeMeans(n: nat, tail: string, out: string)
    requires n < 0x10000
    ensures DoubleQuoted("\\u" + Hex4(n) + tail, out) ==
            if 0xD800 <= n < 0xE000 then Err(BadEscape) else DoubleQuoted(tail, out + [n as char])
  {
    var rest := "\\u" + Hex4(n) + tail;
    assert rest[2..6] == Hex4(n) && rest[6..] == tail;
    Hex4Reads(n);
  }

  // ---------------------------------------------------------------- lines that are no entries

  /** An empty line, or one that begins with a comment, says nothing, however far it is indented. */
  lemma {:induction false} IdleLine(gap: string, text: string, entries: seq<Entry>)
    requires IsGap(gap) && IsTight(text) && (text == "" || text[0] == '#')
    ensures ParseLine(gap + text, entries) == Ok(None)
  {
    GapLine(gap, text);
  }

  /** Anything else that is indented is refused. */
  lemma {:induction false} IndentedLine(gap: string, text: string, entries: seq<Entry>)
    requires IsGap(gap) && gap != "" && IsTight(text) && text != "" && text[0] != '#'
    ensures ParseLine(gap + text, entries) == Err(Indented)
  {
    GapLine(gap, text);
    assert (gap + text)[0] == gap[0];
  }

  lemma {:induction false} GapLine(gap: string, text: string)
    requires IsGap(gap) && IsTight(text)
    ensures TrimCr(gap + text) == gap + text && Trim(gap + text) == text
  {
    var line := gap + text;
    TrimGap(gap, text);
    if line != "" {
      assert line[|line| - 1] == if text == "" then gap[|gap| - 1] else text[|text| - 1];
    }
  }

  /** A list item is refused, whatever it lists. */
  lemma {:induction false} ListLine(text: string, entries: seq<Entry>)
    requires IsTight(text)
    ensures ParseLine(if text == "" then "-" else "- " + text, entries) == Err(ListItem)
  {
    var line := if text == "" then "-" else "- " + text;
    assert line[|line| - 1] == if text == "" then '-' else text[|text| - 1];
    TrimNothing(line);
    assert text != "" ==> line[..2] == "- ";
  }

  ghost predicate IsOrdinary(line: string) {
    && line != "" && IsTight(line) && line[0] != '#' && !StartsWith(line, "- ") && line != "-"
  }

  /** A line without a colon is refused. */
  lemma {:induction false} LineWithoutColon(line: string, entries: seq<Entry>)
    requires IsOrdinary(line) && forall i :: 0 <= i < |line| ==> line[i] != ':'
    ensures ParseLine(line, entries) == Err(NotKeyValue)
  {
    TrimNothing(line);
  }

  /** What stands before the first colon must be a key, blanks after it aside. */
  lemma {:induction false} LineWithBadKey(name: string, rest: string, entries: seq<Entry>)
    requires IsOrdinary(name + ":" + rest) && forall i :: 0 <= i < |name| ==> name[i] != ':'
    requires !IsKey(Trim(name))
    ensures ParseLine(name + ":" + rest, entries) == Err(NotAKey)
  {
    var line := name + ":" + rest;
    TrimNothing(line);
    ColonSplits(name, rest);
  }

  /** The value must not touch the colon. */
  lemma {:induction false} LineWithoutSpace(key: string, rest: string, entries: seq<Entry>)
    requires IsKey(key) && IsTight(rest) && rest != ""
    ensures ParseLine(key + ":" + rest, entries) == Err(NeedsSpace)
  {
    var line := key + ":" + rest;
    assert line[0] == key[0] && IsKeyChar(key[0]) && line[|line| - 1] == rest[|rest| - 1];
    assert Trim(line) == line && TrimCr(line) == line by { TrimNothing(line); }
    assert !StartsWith(line, "- ") && line != "-" by { NotAListItem(key, rest); }
    assert IndexOf(line, ':') == Some(|key|) && line[|key| + 1..] == rest && Trim(line[..|key|]) == key by {
      WrittenLineSplits(key, rest);
    }
    assert rest[0] != ' ' && rest[0] != '\t';
  }

  lemma {:induction false} ColonSplits(name: string, rest: string)
    requires forall i :: 0 <= i < |name| ==> name[i] != ':'
    ensures var line := name + ":" + rest;
            IndexOf(line, ':') == Some(|name|) && line[..|name|] == name && line[|name| + 1..] == rest
  {
    var line := name + ":" + rest;
    IndexOfFirst(line, |name|, ':');
  }

  /** Unquoted, `true` and `false` are truth values; `null`, `~` and no value at all are null. */
  lemma {:induction false} KeywordsMean(key: string, gap: string, entries: seq<Entry>)
    requires IsKey(key) && IsGap(gap) && gap != "" && !Has(entries, key)
    ensures ParseLine(key + ":" + (gap + "true"), entries) == Ok(Some((key, Bool(true))))
    ensures ParseLine(key + ":" + (gap + "false"), entries) == Ok(Some((key, Bool(false))))
    ensures ParseLine(key + ":" + (gap + "null"), entries) == Ok(Some((key, Null)))
    ensures ParseLine(key + ":" + (gap + "~"), entries) == Ok(Some((key, Null)))
    ensures ParseLine(key + ":" + (gap + ""), entries) == Ok(Some((key, Null)))
  {
    KeywordScalar("true");
    KeywordScalar("false");
    KeywordScalar("null");
    KeywordScalar("~");
    WrittenLineParses(key, gap, "true", entries);
    WrittenLineParses(key, gap, "false", entries);
    WrittenLineParses(key, gap, "null", entries);
    WrittenLineParses(key, gap, "~", entries);
    WrittenLineParses(key, gap, "", entries);
  }

  lemma {:induction false} KeywordScalar(word: string)
    requires IsKeyword(word)
    ensures ScalarOf(word) == Ok(if word == "true" then Bool(true) else if word == "false" then Bool(false) else Null)
  {
    NoCommentFound(word);
  }

  /** A printed entry parses to that entry. */
  lemma {:induction false} EntryLineParses(key: string, value: string, entries: seq<Entry>)
    requires IsKey(key) && !Has(entries, key)
    ensures ParseLine(EntryLine(key, value), entries) == Ok(Some((key, Text(value))))
  {
    var text := Quoted(value);
    assert text[0] == '"' && text[|text| - 1] == '"';
    assert EntryLine(key, value) == key + ":" + (" " + text);
    WrittenLineParses(key, " ", text, entries);
    ReadsBack(value);
  }

  lemma {:induction false} TrimCrLfNothing(s: string)
    requires s != "" && s[|s| - 1] != '\r' && s[|s| - 1] != '\n'
    ensures TrimCrLf(s + "\n") == s && StripNewline(s + "\n") == s
  {
    assert (s + "\n")[..|s|] == s;
  }

  lemma {:induction false} EntryLineIsInner(key: string, value: string)
    requires IsKey(key)
    ensures IsInnerLine(EntryLine(key, value) + "\n") &&
          StripNewline(EntryLine(key, value) + "\n") == EntryLine(key, value)
  {
    var line := EntryLine(key, value);
    EntryLineShape(key, value);
    TrimCrLfNothing(line);
    assert line[|line| - 1] != "---"[2];
  }

  /** Printed entries, one line each. */
  function PrintedLines(fields: seq<(string, string)>): (r: seq<string>)
    ensures |r| == |fields|
  {
    seq(|fields|, i requires 0 <= i < |fields| => EntryLine(fields[i].0, fields[i].1) + "\n")
  }

  function Printed(fields: seq<(string, string)>, body: string): string {
    "---\n" + (Concat(PrintedLines(fields)) + ("---\n" + body))
  }

  ghost predicate ValidFields(fields: seq<(string, string)>) {
    && (forall i :: 0 <= i < |fields| ==> IsKey(fields[i].0))
    && (forall i, j :: 0 <= i < j < |fields| ==> fields[i].0 != fields[j].0)
  }

  function AsEntries(fields: seq<(string, string)>): (r: seq<Entry>)
    ensures |r| == |fields| && forall i :: 0 <= i < |fields| ==> r[i] == (fields[i].0, Text(fields[i].1))
  {
    seq(|fields|, i requires 0 <= i < |fields| => (fields[i].0, Text(fields[i].1)))
  }

  lemma {:induction false} SegmentsOfLines(lines: seq<string>)
    requires forall i :: 0 <= i < |lines| ==> IsInnerLine(lines[i])
    ensures Segments(Concat(lines)) == lines
    decreases |lines|
  {
    if lines != [] {
      var line, rest := lines[0], Concat(lines[1..]);
      assert Segments(rest) == lines[1..] by { SegmentsOfLines(lines[1..]); }
      assert Segments(line + rest) == [line] + Segments(rest) by {
        assert IsInnerLine(line);
        SegmentsSplit(line, rest);
      }
      assert Concat(lines) == line + rest;
    }
  }

  lemma {:induction false} PrintedLinesAreInner(fields: seq<(string, string)>)
    requires ValidFields(fields)
    ensures forall i :: 0 <= i < |fields| ==> IsInnerLine(PrintedLines(fields)[i])
    ensures forall i :: 0 <= i < |fields| ==>
          StripNewline(PrintedLines(fields)[i]) == EntryLine(fields[i].0, fields[i].1)
  {
    forall i | 0 <= i < |fields|
      ensures IsInnerLine(PrintedLines(fields)[i]) &&
            StripNewline(PrintedLines(fields)[i]) == EntryLine(fields[i].0, fields[i].1)
    {
      EntryLineIsInner(fields[i].0, fields[i].1);
    }
  }

  lemma {:induction false} ParseEach(read: LineReader, lines: seq<string>, entries: seq<Entry>, n: nat)
    requires |lines| == |entries| && n <= |lines|
    requires forall i :: 0 <= i < |lines| ==> read(lines[i], entries[..i]) == Ok(Some(entries[i]))
    ensures ParseLines(read, lines, n) == Ok(entries[..n])
    decreases n
  {
    if n > 0 {
      ParseEach(read, lines, entries, n - 1);
      assert entries[..n] == entries[..n - 1] + [entries[n - 1]];
    }
  }

  lemma {:induction false} PrintedLineParses(fields: seq<(string, string)>, i: nat)
    requires ValidFields(fields) && i < |fields|
    ensures ParseLine(EntryLine(fields[i].0, fields[i].1), AsEntries(fields)[..i]) == Ok(Some(AsEntries(fields)[i]))
  {
    var before := AsEntries(fields)[..i];
    assert !Has(before, fields[i].0);
    EntryLineParses(fields[i].0, fields[i].1, before);
  }

  /**
   Printing any fields with distinct valid keys, whatever their values, above any body, then scanning and parsing,
   gives back exactly those fields in order and exactly that body.
   */
  lemma {:induction false} PrintedReadsBack(fields: seq<(string, string)>, body: string)
    requires ValidFields(fields)
    ensures Scan(Printed(fields, body)) == Ok(Scanned(Some(Concat(PrintedLines(fields))), body))
    ensures Parse(Concat(PrintedLines(fields))) == Ok(AsEntries(fields))
  {
    assert Scan(Printed(fields, body)) == Ok(Scanned(Some(Concat(PrintedLines(fields))), body)) by {
      PrintedLinesAreInner(fields);
      ScanPrinted(PrintedLines(fields), body);
    }
    PrintedParses(fields);
  }

  lemma {:induction false} PrintedParses(fields: seq<(string, string)>)
    requires ValidFields(fields)
    ensures Parse(Concat(PrintedLines(fields))) == Ok(AsEntries(fields))
  {
    var lines, entries := PrintedLines(fields), AsEntries(fields);
    PrintedLinesAreInner(fields);
    SegmentsOfLines(lines);
    var read: LineReader := ParseLine;
    forall i | 0 <= i < |fields| ensures read(Lines(Concat(lines))[i], entries[..i]) == Ok(Some(entries[i])) {
      PrintedLineParses(fields, i);
    }
    ParseEach(read, Lines(Concat(lines)), entries, |fields|);
    assert entries[..|fields|] == entries;
  }

  lemma {:induction false} ScanPrinted(lines: seq<string>, body: string)
    requires forall i :: 0 <= i < |lines| ==> IsInnerLine(lines[i])
    ensures Scan("---\n" + (Concat(lines) + ("---\n" + body))) == Ok(Scanned(Some(Concat(lines)), body))
  {
    var opening := Concat(lines) + ("---\n" + body);
    var raw := "---\n" + opening;
    assert raw[0] == '-';
    assert !StartsWith(raw, BOM) by { assert |raw| > 0 && raw[..1][0] == '-'; }
    assert !StartsWith(raw, "---\r\n") by { assert |raw| >= 5 ==> raw[..5][3] == '\n'; }
    assert StartsWith(raw, "---\n") && raw[4..] == opening;
    TrimCrLfNothing("---");
    assert "---" + "\n" == "---\n";
    CutFindsFirst(lines, "---\n", body);
  }

  // ---------------------------------------------------------------- the program

  /** Cuts a file at its delimiter lines. */
  method ScanFile(raw: string) returns (r: Result<Scanned, Unterminated>)
    ensures r == Scan(raw)
  {
    var text := WithoutBom(raw);
    var found := Opening(text);
    if found.None? {
      return Ok(Scanned(None, text));
    }
    var opening := found.value;
    var cursor := 0;
    ScanStarts(opening);
    while cursor < |opening|
      invariant cursor <= |opening|
      invariant Cut(opening) == After(opening[..cursor], Cut(opening[cursor..]))
      decreases |opening| - cursor
    {
      var text := opening[cursor..];
      var n := LineEnd(text);
      ScanGoesOn(opening, opening[..cursor], text);
      SliceOfSlice(opening, cursor, n);
      if IsDelimiter(text[..n]) {
        return Ok(Scanned(Some(opening[..cursor]), opening[cursor + n..]));
      }
      cursor := cursor + n;
    }
    return Err(Unterminated);
  }

  lemma {:induction false} ScanStarts(opening: string)
    ensures Cut(opening) == After(opening[..0], Cut(opening[0..]))
  {
    AfterNothing(Cut(opening));
    assert opening[0..] == opening && opening[..0] == "";
  }

  lemma {:induction false} SliceOfSlice(s: string, from: nat, n: nat)
    requires from + n <= |s|
    ensures s[from..][..n] == s[from..from + n] && s[from..][n..] == s[from + n..]
    ensures s[..from] + s[from..from + n] == s[..from + n]
  {
  }

  /** The line `text` starts with closes the block, or belongs to it. */
  lemma {:induction false} ScanGoesOn(opening: string, before: string, text: string)
    requires text != "" && Cut(opening) == After(before, Cut(text))
    ensures var n := LineEnd(text);
            if IsDelimiter(text[..n]) then Cut(opening) == Some((before, text[n..]))
            else Cut(opening) == After(before + text[..n], Cut(text[n..]))
  {
    var n := LineEnd(text);
    if IsDelimiter(text[..n]) {
      CutHere(before, text, text[..n], text[n..]);
    } else {
      CutOnward(before, text, text[..n], text[n..]);
    }
  }

  lemma {:induction false} CutHere(before: string, text: string, line: string, rest: string)
    requires text != "" && line == text[..LineEnd(text)] && rest == text[LineEnd(text)..] && IsDelimiter(line)
    ensures After(before, Cut(text)) == Some((before, rest))
  {
    assert before + "" == before;
  }

  lemma {:induction false} CutOnward(before: string, text: string, line: string, rest: string)
    requires text != "" && line == text[..LineEnd(text)] && rest == text[LineEnd(text)..] && !IsDelimiter(line)
    ensures After(before, Cut(text)) == After(before + line, Cut(rest))
  {
    assert Cut(text) == After(line, Cut(rest));
    AfterTwice(before, line, Cut(rest));
  }

  lemma {:induction false} AfterNothing(cut: Option<(string, string)>)
    ensures After("", cut) == cut
  {
    if cut.Some? {
      assert "" + cut.value.0 == cut.value.0;
    }
  }

  lemma {:induction false} AfterTwice(a: string, b: string, cut: Option<(string, string)>)
    ensures After(a, After(b, cut)) == After(a + b, cut)
  {
    if cut.Some? {
      assert a + (b + cut.value.0) == (a + b) + cut.value.0;
    }
  }

  method ReadDoubleQuoted(inner: string) returns (r: Result<string, Reason>)
    ensures r == DoubleQuoted(inner, "")
  {
    var out, rest := "", inner;
    while rest != ""
      invariant DoubleQuoted(rest, out) == DoubleQuoted(inner, "")
      decreases |rest|
    {
      var c := rest[0];
      if c == '"' {
        return if Trailing(rest[1..]) then Ok(out) else Err(AfterClosingQuote);
      }
      if c != '\\' {
        out, rest := out + [c], rest[1..];
        continue;
      }
      if |rest| == 1 {
        break;
      }
      if rest[1] == 'u' {
        var hex := if |rest| < 6 then rest[2..] else rest[2..6];
        var code := EscapedChar(hex);
        if code.None? {
          return Err(BadEscape);
        }
        out, rest := out + [code.value], rest[2 + |hex|..];
      } else {
        var escaped := SimpleEscape(rest[1]);
        if escaped.None? {
          return Err(UnknownEscape);
        }
        out, rest := out + [escaped.value], rest[2..];
      }
    }
    return Err(NoClosingQuote);
  }

  /** One turn of the search: up to the next quote, which is doubled or ends the value. */
  method ReadToQuote(rest: string, out: string)
    returns (end: Option<Result<string, Reason>>, rest': string, out': string)
    ensures end.Some? ==> end.value == SingleQuoted(rest, out)
    ensures end.None? ==> SingleQuoted(rest', out') == SingleQuoted(rest, out) && |rest'| < |rest|
  {
    rest', out' := rest, out;
    var at := IndexOf(rest, '\'');
    if at.None? {
      return Some(Err(NoClosingQuote)), rest, out;
    }
    var before, after := out + rest[..at.value], rest[at.value + 1..];
    if after == "" || after[0] != '\'' {
      return Some(if Trailing(after) then Ok(before) else Err(AfterClosingQuote)), rest, out;
    }
    end, rest', out' := None, after[1..], before + "'";
  }

  method ReadSingleQuoted(inner: string) returns (r: Result<string, Reason>)
    ensures r == SingleQuoted(inner, "")
  {
    var out, rest := "", inner;
    ghost var whole := SingleQuoted(inner, out);
    while true
      invariant SingleQuoted(rest, out) == whole
      decreases |rest|
    {
      var end;
      end, rest, out := ReadToQuote(rest, out);
      if end.Some? {
        return end.value;
      }
    }
  }

  method ReadScalar(text: string) returns (r: Result<Scalar, Reason>)
    ensures r == ScalarOf(text)
  {
    if text == "" {
      return Ok(Null);
    }
    if text[0] == '"' {
      var inner := ReadDoubleQuoted(text[1..]);
      return AsText(inner);
    }
    if text[0] == '\'' {
      var inner := ReadSingleQuoted(text[1..]);
      return AsText(inner);
    }
    return if BeginsUnread(text[0]) then Err(UnreadValue) else Ok(PlainScalar(text));
  }

  method ReadLine(raw: string, entries: seq<Entry>) returns (r: Result<Option<Entry>, Reason>)
    ensures r == ParseLine(raw, entries)
  {
    var line := TrimCr(raw);
    var trimmed := Trim(line);
    if trimmed == "" || trimmed[0] == '#' {
      return Ok(None);
    }
    if line != "" && (line[0] == ' ' || line[0] == '\t') {
      return Err(Indented);
    }
    if StartsWith(trimmed, "- ") || trimmed == "-" {
      return Err(ListItem);
    }
    var at := IndexOf(line, ':');
    if at.None? {
      return Err(NotKeyValue);
    }
    var key, rest := Trim(line[..at.value]), line[at.value + 1..];
    if !IsKey(key) {
      return Err(NotAKey);
    }
    if rest != "" && rest[0] != ' ' && rest[0] != '\t' {
      return Err(NeedsSpace);
    }
    if Has(entries, key) {
      return Err(GivenTwice);
    }
    var value := ReadScalar(Trim(rest));
    match value {
      case Ok(scalar) => return Ok(Some((key, scalar)));
      case Err(reason) => return Err(reason);
    }
  }

  method ReadNext(lines: seq<string>, k: nat, entries: seq<Entry>) returns (entry: Result<Option<Entry>, Reason>)
    requires k < |lines| && ParseLines(ParseLine, lines, k) == Ok(entries)
    ensures entry.Ok? ==> ParseLines(ParseLine, lines, k + 1) == Ok(Extended(entries, entry.value))
    ensures entry.Err? ==> ParseLines(ParseLine, lines, |lines|) == Err(ParseError(k + 1, entry.error))
  {
    entry := ReadLine(lines[k], entries);
    ParseStep(ParseLine, lines, k, entries, entry);
  }

  method ReadLines(lines: seq<string>) returns (r: Result<seq<Entry>, ParseError>)
    ensures r == ParseLines(ParseLine, lines, |lines|)
  {
    var entries: seq<Entry> := [];
    for k := 0 to |lines|
      invariant ParseLines(ParseLine, lines, k) == Ok(entries)
    {
      var entry := ReadNext(lines, k, entries);
      if entry.Err? {
        return Err(ParseError(k + 1, entry.error));
      }
      entries := Extended(entries, entry.value);
    }
    return Ok(entries);
  }

  /** Reads a frontmatter block, line by line. */
  method ParseBlock(block: string) returns (r: Result<seq<Entry>, ParseError>)
    ensures r == Parse(block)
  {
    r := ReadLines(Lines(block));
  }

  lemma {:induction false} ParseStep(read: LineReader, lines: seq<string>, k: nat, entries: seq<Entry>,
                                     entry: Result<Option<Entry>, Reason>)
    requires k < |lines| && ParseLines(read, lines, k) == Ok(entries) && read(lines[k], entries) == entry
    ensures entry.Ok? ==> ParseLines(read, lines, k + 1) == Ok(Extended(entries, entry.value))
    ensures entry.Err? ==> ParseLines(read, lines, |lines|) == Err(ParseError(k + 1, entry.error))
  {
    if entry.Err? {
      ParseStops(read, lines, k + 1, |lines|);
    }
  }

  lemma {:induction false} ParseStops(read: LineReader, lines: seq<string>, n: nat, m: nat)
    requires n <= m <= |lines| && ParseLines(read, lines, n).Err?
    ensures ParseLines(read, lines, m) == ParseLines(read, lines, n)
    decreases m
  {
    if n < m {
      ParseStops(read, lines, n, m - 1);
    }
  }

  method QuoteValue(value: string) returns (out: string)
    ensures out == Quoted(value)
  {
    out := "\"";
    for k := 0 to |value|
      invariant out == "\"" + QuoteBody(value[..k])
    {
      assert QuoteBody(value[..k + 1]) == QuoteBody(value[..k]) + QuoteChar(value[k]) by {
        assert value[..k + 1] == value[..k] + [value[k]];
        QuoteBodyAppend(value[..k], value[k]);
      }
      Regroup("\"", QuoteBody(value[..k]), QuoteChar(value[k]));
      out := out + QuoteChar(value[k]);
    }
    assert value[..|value|] == value;
    out := out + "\"";
  }

  lemma {:induction false} QuoteBodyAppend(value: string, c: char)
    ensures QuoteBody(value + [c]) == QuoteBody(value) + QuoteChar(c)
    decreases |value|
  {
    if value == "" {
      assert [c][1..] == "" && QuoteBody([c]) == QuoteChar(c) + "";
    } else {
      var more := value[1..];
      assert QuoteBody(more + [c]) == QuoteBody(more) + QuoteChar(c) by { QuoteBodyAppend(more, c); }
      assert QuoteBody(value + [c]) == QuoteChar(value[0]) + QuoteBody(more + [c]) by {
        assert (value + [c])[1..] == more + [c];
      }
      Regroup(QuoteChar(value[0]), QuoteBody(more), QuoteChar(c));
    }
  }
}

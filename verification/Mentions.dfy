/**
  Mentions and their URIs. A URL is taken apart into scheme, path, query pairs and
  fragment. Strings are UTF-8: each character stands for the byte with its code.
 */
module Mentions {
  import opened Prelude
  import opened Decimals
  import Utf8

  datatype Url = Url(scheme: string, path: string, query: seq<(string, string)>, fragment: Option<string>)

  /** Lines count from zero. */
  datatype Lines = Lines(start: nat, end: nat)

  datatype Mention =
    | File(path: string)
    | PastedImage(name: string)
    | Directory(path: string)
    | Symbol(path: string, name: string, lines: Lines)
    | Thread(id: string, name: string)
    | Rule(id: string, name: string)
    | Diagnostics(errors: bool, warnings: bool)
    | Selection(file: Option<string>, lines: Lines)
    | Fetch(url: Url)
    | TerminalSelection(count: nat)
    | GitDiff(base: string)
    | MergeConflict(path: string)

  const U32: nat := 0x1_0000_0000

  // ----- Printing -----

  predicate EndsWith(s: string, c: char) {
    s != [] && Last(s) == c
  }

  /** Adding one wraps around at the width of the line numbers. */
  function Next(line: nat): nat {
    if line + 1 == U32 then 0 else line + 1
  }

  function PrintLines(lines: Lines): string {
    "L" + Print(Next(lines.start)) + ":" + Print(Next(lines.end))
  }

  function ToUri(m: Mention): Url {
    match m
    case File(path) => Url("file", path, [], None)
    case PastedImage(name) => Url("zed", "/agent/pasted-image", [("name", name)], None)
    case Directory(path) =>
      Url("file", if EndsWith(path, '/') || EndsWith(path, '\\') then path else path + "/", [], None)
    case Symbol(path, name, lines) => Url("file", path, [("symbol", name)], Some(PrintLines(lines)))
    case Selection(Some(path), lines) => Url("file", path, [], Some(PrintLines(lines)))
    case Selection(None, lines) => Url("zed", "/agent/untitled-buffer", [], Some(PrintLines(lines)))
    case Thread(id, name) => Url("zed", "/agent/thread/" + id, [("name", name)], None)
    case Rule(id, name) => Url("zed", "/agent/rule/" + id, [("name", name)], None)
    case Diagnostics(errors, warnings) =>
      Url("zed", "/agent/diagnostics",
          (if warnings then [("include_warnings", "true")] else [])
          + (if errors then [] else [("include_errors", "false")]), None)
    case Fetch(url) => url
    case TerminalSelection(count) => Url("zed", "/agent/terminal-selection", [("lines", Print(count))], None)
    case GitDiff(base) => Url("zed", "/agent/git-diff", [("base", base)], None)
    case MergeConflict(path) => Url("zed", "/agent/merge-conflict", [("path", path)], None)
  }

  // ----- Parsing -----

  /** What the parser is given: a URL, and whether its text ends in a slash. */
  datatype Input = Input(url: Url, endsInSlash: bool)

  /** The text of a URL ends with its path when nothing comes after it; a printed query never ends in a slash. */
  function Printed(url: Url): Input {
    Input(url, url.query == [] && url.fragment.None? && EndsWith(url.path, '/'))
  }

  function SplitOnce(s: string, c: char): Option<(string, string)> {
    if s == [] then None
    else if s[0] == c then Some(([], s[1..]))
    else
      match SplitOnce(s[1..], c)
      case None => None
      case Some((a, b)) => Some(([s[0]] + a, b))
  }

  function Unprefix(s: string, c: char): string {
    if s != [] && s[0] == c then s[1..] else s
  }

  /** `str::parse::<u32>` */
  function ParseU32(s: string): Option<nat> {
    var digits := Unprefix(s, '+');
    if digits != [] && AllDigits(digits) && Value(digits) < U32 then Some(Value(digits)) else None
  }

  /** A line number counts from one. */
  function ParseLine(s: string): Option<nat> {
    var n := ParseU32(s);
    if n.Some? && n.value > 0 then Some(n.value - 1) else None
  }

  function Bounds(range: string): (string, string) {
    match SplitOnce(range, ':')
    case Some(pair) => pair
    case None =>
      match SplitOnce(range, '-')
      case Some((start, end)) => (start, Unprefix(end, 'L'))
      case None => (range, range)
  }

  function ParseLines(fragment: string): Result<Lines> {
    var (start, end) := Bounds(Unprefix(fragment, 'L'));
    var s, e := ParseLine(start), ParseLine(end);
    if s.Some? && e.Some? then Ok(Lines(s.value, e.value)) else Err
  }

  function HexValue(c: char): Option<nat> {
    if '0' <= c <= '9' then Some((c - '0') as nat)
    else if 'a' <= c <= 'f' then Some((c - 'a') as nat + 10)
    else if 'A' <= c <= 'F' then Some((c - 'A') as nat + 10)
    else None
  }

  predicate EscapeAt(s: string, i: nat) {
    i + 2 < |s| && s[i] == '%' && HexValue(s[i + 1]).Some? && HexValue(s[i + 2]).Some?
  }

  function PercentDecode(s: string): string {
    if s == [] then []
    else if EscapeAt(s, 0) then
      [(16 * HexValue(s[1]).value + HexValue(s[2]).value) as char] + PercentDecode(s[3..])
    else [s[0]] + PercentDecode(s[1..])
  }

  predicate InBytes(s: string) {
    forall i | 0 <= i < |s| :: s[i] as int < 256
  }

  function Bytes(s: string): Utf8.Text
    requires InBytes(s)
  {
    seq(|s|, i requires 0 <= i < |s| => s[i] as int as Utf8.Byte)
  }

  predicate IsString(s: string) {
    InBytes(s) && Utf8.WellFormed(Bytes(s))
  }

  function TrimStart(s: string, c: char): string {
    if s != [] && s[0] == c then TrimStart(s[1..], c) else s
  }

  function Replace(s: string, a: char, b: char): string {
    seq(|s|, i requires 0 <= i < |s| => if s[i] == a then b else s[i])
  }

  function FilePath(path: string, windows: bool): string {
    var trimmed := if windows then TrimStart(path, '/') else path;
    var decoded := PercentDecode(trimmed);
    var text := if IsString(decoded) then decoded else trimmed;
    if windows then Replace(text, '/', '\\') else text
  }

  /** `single_query_param` */
  function SingleParam(query: seq<(string, string)>, name: string): Result<Option<string>> {
    if query == [] then Ok(None)
    else if |query| == 1 && query[0].0 == name then Ok(Some(query[0].1))
    else Err
  }

  function Required<T>(r: Result<Option<T>>): Result<T> {
    if r.Ok? && r.value.Some? then Ok(r.value.value) else Err
  }

  function OrElse<T>(r: Result<Option<T>>, otherwise: T): Result<T> {
    match r
    case Err => Err
    case Ok(None) => Ok(otherwise)
    case Ok(Some(v)) => Ok(v)
  }

  function FragmentLines(url: Url): Result<Lines> {
    if url.fragment.None? then Err else ParseLines(url.fragment.value)
  }

  function Flags(query: seq<(string, string)>, errors: bool, warnings: bool): Result<Mention>
    decreases |query|
  {
    if query == [] then Ok(Diagnostics(errors, warnings))
    else if query[0].0 == "include_warnings" then Flags(query[1..], errors, query[0].1 == "true")
    else if query[0].0 == "include_errors" then Flags(query[1..], query[0].1 == "true", warnings)
    else Err
  }

  function ParseFile(input: Input, windows: bool): Result<Mention> {
    var url := input.url;
    var path := FilePath(url.path, windows);
    match url.fragment
    case Some(fragment) =>
      var parsed := ParseLines(fragment);
      var lines := if parsed.Ok? then parsed.value else Lines(1, 1);
      (match SingleParam(url.query, "symbol")
       case Err => Err
       case Ok(Some(name)) => Ok(Symbol(path, name, lines))
       case Ok(None) => Ok(Selection(Some(path), lines)))
    case None => Ok(if input.endsInSlash then Directory(path) else File(path))
  }

  /** A mention made of lines and one required parameter. */
  function WithLines(lines: Result<Lines>, param: Result<string>, f: (Lines, string) -> Mention): Result<Mention> {
    if lines.Err? || param.Err? then Err else Ok(f(lines.value, param.value))
  }

  function Named(param: Result<string>, f: string -> Mention): Result<Mention> {
    if param.Err? then Err else Ok(f(param.value))
  }

  /** `uuid` is the library's parser of rule ids. */
  function ParseZed(url: Url, uuid: string -> Option<string>): Result<Mention> {
    var path, query := url.path, url.query;
    if "/agent/thread/" <= path then
      Named(Required(SingleParam(query, "name")), name => Thread(path[14..], name))
    else if "/agent/rule/" <= path then
      var id := uuid(path[12..]);
      var name := Required(SingleParam(query, "name"));
      if id.None? || name.Err? then Err else Ok(Rule(id.value, name.value))
    else if path == "/agent/diagnostics" then Flags(query, true, false)
    else if "/agent/pasted-image" <= path then
      Named(OrElse(SingleParam(query, "name"), "Image"), name => PastedImage(name))
    else if "/agent/untitled-buffer" <= path then
      var lines := FragmentLines(url);
      if lines.Err? then Err else Ok(Selection(None, lines.value))
    else if "/agent/symbol/" <= path then
      var file := Required(SingleParam(query, "path"));
      WithLines(FragmentLines(url), file, (lines, file) => Symbol(file, path[14..], lines))
    else if "/agent/file" <= path then Named(Required(SingleParam(query, "path")), file => File(file))
    else if "/agent/directory" <= path then Named(Required(SingleParam(query, "path")), file => Directory(file))
    else if "/agent/selection" <= path then
      WithLines(FragmentLines(url), Required(SingleParam(query, "path")), (lines, file) => Selection(Some(file), lines))
    else if "/agent/terminal-selection" <= path then
      var count := OrElse(SingleParam(query, "lines"), "0");
      if count.Err? then Err
      else Ok(TerminalSelection(if ParseU32(count.value).Some? then ParseU32(count.value).value else 0))
    else if "/agent/git-diff" <= path then Named(OrElse(SingleParam(query, "base"), "main"), base => GitDiff(base))
    else if "/agent/merge-conflict" <= path then
      Named(OrElse(SingleParam(query, "path"), ""), file => MergeConflict(file))
    else Err
  }

  function Parse(input: Input, windows: bool, uuid: string -> Option<string>): Result<Mention> {
    if input.url.scheme == "file" then ParseFile(input, windows)
    else if input.url.scheme == "zed" then ParseZed(input.url, uuid)
    else if input.url.scheme == "http" || input.url.scheme == "https" then Ok(Fetch(input.url))
    else Err
  }

  /** The flags of a diagnostics mention are read off in a loop. */
  method ParseDiagnostics(query: seq<(string, string)>) returns (r: Result<Mention>)
    ensures r == Flags(query, true, false)
  {
    var errors, warnings, i := true, false, 0;
    while i < |query|
      invariant i <= |query| && Flags(query[i..], errors, warnings) == Flags(query, true, false)
    {
      assert query[i..][0] == query[i] && query[i..][1..] == query[i + 1..];
      if query[i].0 == "include_warnings" {
        warnings := query[i].1 == "true";
      } else if query[i].0 == "include_errors" {
        errors := query[i].1 == "true";
      } else {
        return Err;
      }
      i := i + 1;
    }
    return Ok(Diagnostics(errors, warnings));
  }

  // ----- Line ranges -----

  lemma {:induction false} SplitAt(a: string, c: char, b: string)
    requires c !in a
    ensures SplitOnce(a + [c] + b, c) == Some((a, b))
  {
    var s := a + [c] + b;
    if a == [] {
      assert s[1..] == b;
    } else {
      assert s[1..] == a[1..] + [c] + b;
      SplitAt(a[1..], c, b);
      assert [s[0]] + a[1..] == a;
    }
  }

  lemma {:induction false} NoSplit(s: string, c: char)
    requires c !in s
    ensures SplitOnce(s, c).None?
  {
    if s != [] {
      NoSplit(s[1..], c);
    }
  }

  lemma {:induction false} PrintedNumber(n: nat)
    ensures ':' !in Print(n) && '-' !in Print(n) && Unprefix(Print(n), 'L') == Print(n)
    ensures ParseU32(Print(n)) == if n < U32 then Some(n) else None
  {
    PrintValue(n);
    assert forall i | 0 <= i < |Print(n)| :: IsDigit(Print(n)[i]);
  }

  lemma {:induction false} ColonBounds(a: string, b: string)
    requires ':' !in a
    ensures Bounds(a + ":" + b) == (a, b)
  {
    SplitAt(a, ':', b);
  }

  lemma {:induction false} DashBounds(a: string, b: string)
    requires ':' !in a && ':' !in b && '-' !in a
    ensures Bounds(a + "-" + b) == (a, Unprefix(b, 'L'))
  {
    NoSplit(a + "-" + b, ':');
    SplitAt(a, '-', b);
  }

  lemma {:induction false} SingleBounds(a: string)
    requires ':' !in a && '-' !in a
    ensures Bounds(a) == (a, a)
  {
    NoSplit(a, ':');
    NoSplit(a, '-');
  }

  function LinesFrom(m: nat, n: nat): Result<Lines> {
    if 0 < m < U32 && 0 < n < U32 then Ok(Lines(m - 1, n - 1)) else Err
  }

  lemma {:induction false} BoundsParse(fragment: string, m: nat, n: nat)
    requires Bounds(Unprefix(fragment, 'L')) == (Print(m), Print(n))
    ensures ParseLines(fragment) == LinesFrom(m, n)
  {
    PrintedNumber(m);
    PrintedNumber(n);
  }

  lemma {:induction false} ColonForm(m: nat, n: nat)
    ensures ParseLines("L" + Print(m) + ":" + Print(n)) == LinesFrom(m, n)
  {
    var a, b := Print(m), Print(n);
    PrintedNumber(m);
    ColonBounds(a, b);
    assert ("L" + a + ":" + b)[1..] == a + ":" + b;
    BoundsParse("L" + a + ":" + b, m, n);
  }

  lemma {:induction false} DashForm(m: nat, n: nat)
    ensures ParseLines("L" + Print(m) + "-" + Print(n)) == LinesFrom(m, n)
  {
    var a, b := Print(m), Print(n);
    PrintedNumber(m);
    PrintedNumber(n);
    DashBounds(a, b);
    assert ("L" + a + "-" + b)[1..] == a + "-" + b;
    BoundsParse("L" + a + "-" + b, m, n);
  }

  lemma DashLShape(a: string, b: string)
    ensures Unprefix("L" + a + "-L" + b, 'L') == a + "-" + ("L" + b) && Unprefix("L" + b, 'L') == b
  {
    var s := "L" + a + "-L" + b;
    assert "-L" == "-" + "L";
    assert s[0] == 'L' && s[1..] == a + "-L" + b;
  }

  lemma {:induction false} DashLForm(m: nat, n: nat)
    ensures ParseLines("L" + Print(m) + "-L" + Print(n)) == LinesFrom(m, n)
  {
    var a, b := Print(m), Print(n);
    PrintedNumber(m);
    PrintedNumber(n);
    DashLShape(a, b);
    DashBounds(a, "L" + b);
    BoundsParse("L" + a + "-L" + b, m, n);
  }

  /** `L10:20`, `L10-20` and `L10-L20` mean the same, and `L10` alone is a range of one line. */
  lemma {:induction false} LineForms(m: nat, n: nat)
    ensures ParseLines("L" + Print(m) + ":" + Print(n)) == LinesFrom(m, n)
    ensures ParseLines("L" + Print(m) + "-" + Print(n)) == LinesFrom(m, n)
    ensures ParseLines("L" + Print(m) + "-L" + Print(n)) == LinesFrom(m, n)
    ensures ParseLines("L" + Print(m)) == LinesFrom(m, m)
  {
    ColonForm(m, n);
    DashForm(m, n);
    DashLForm(m, n);
    PrintedNumber(m);
    SingleBounds(Print(m));
    assert ("L" + Print(m))[1..] == Print(m);
    BoundsParse("L" + Print(m), m, m);
  }

  predicate InRange(lines: Lines) {
    lines.start + 1 < U32 && lines.end + 1 < U32
  }

  lemma {:induction false} LinesRoundTrip(lines: Lines)
    requires lines.start < U32 && lines.end < U32
    ensures ParseLines(PrintLines(lines)) == if InRange(lines) then Ok(lines) else Err
  {
    ColonForm(Next(lines.start), Next(lines.end));
  }

  // ----- Paths -----

  predicate HasEscape(s: string) {
    exists i | 0 <= i < |s| :: EscapeAt(s, i)
  }

  lemma {:induction false} DecodeShortens(s: string)
    ensures |PercentDecode(s)| <= |s|
    ensures PercentDecode(s) == s <==> !HasEscape(s)
    ensures HasEscape(s) ==> |PercentDecode(s)| < |s|
  {
    if s == [] {
    } else if EscapeAt(s, 0) {
      DecodeShortens(s[3..]);
    } else {
      DecodeShortens(s[1..]);
      assert HasEscape(s) <==> HasEscape(s[1..]) by {
        if HasEscape(s) {
          var i :| 0 <= i < |s| && EscapeAt(s, i);
          assert EscapeAt(s[1..], i - 1);
        }
        if HasEscape(s[1..]) {
          var i :| 0 <= i < |s[1..]| && EscapeAt(s[1..], i);
          assert EscapeAt(s, i + 1);
        }
      }
    }
  }

  /** Decoding leaves the path alone: it has no escapes, or they do not decode to a string. */
  predicate Undecoded(path: string) {
    !HasEscape(path) || !IsString(PercentDecode(path))
  }

  lemma {:induction false} PathRoundTrip(path: string)
    ensures FilePath(path, false) == path <==> Undecoded(path)
  {
    DecodeShortens(path);
  }

  // ----- Round trips -----

  /** Numbers fit their 32 bits. */
  predicate Fits(m: Mention) {
    match m
    case Symbol(_, _, lines) => lines.start < U32 && lines.end < U32
    case Selection(_, lines) => lines.start < U32 && lines.end < U32
    case TerminalSelection(count) => count < U32
    case _ => true
  }

  /** What a mention must look like to survive. */
  predicate Survives(m: Mention, uuid: string -> Option<string>) {
    match m
    case File(path) => !EndsWith(path, '/') && Undecoded(path)
    case Symbol(path, _, lines) => Undecoded(path) && InRange(lines)
    case Selection(Some(path), lines) => Undecoded(path) && InRange(lines)
    case Selection(None, lines) => InRange(lines)
    case Rule(id, _) => uuid(id) == Some(id)
    case Fetch(url) => url.scheme == "http" || url.scheme == "https"
    case _ => true
  }

  lemma NotPrefix(a: string, b: string, i: nat)
    requires i < |a| && i < |b| && a[i] != b[i]
    ensures !(a <= b)
  {
  }

  lemma {:induction false} FileMentions(m: Mention, uuid: string -> Option<string>)
    requires Fits(m) && (m.File? || m.Symbol? || (m.Selection? && m.file.Some?))
    ensures Parse(Printed(ToUri(m)), false, uuid) == Ok(m) <==> Survives(m, uuid)
  {
    match m
    case File(path) => PathRoundTrip(path);
    case Symbol(path, _, lines) => PathRoundTrip(path); LinesRoundTrip(lines);
    case Selection(Some(path), lines) => PathRoundTrip(path); LinesRoundTrip(lines);
  }

  /** The path of a directory as it is printed. */
  function WithSlash(path: string): string {
    if EndsWith(path, '/') || EndsWith(path, '\\') then path else path + "/"
  }

  lemma {:induction false} SlashStays(s: string)
    requires EndsWith(s, '/')
    ensures EndsWith(PercentDecode(s), '/')
    decreases |s|
  {
    if EscapeAt(s, 0) {
      assert |s| > 3 && Last(s[3..]) == Last(s);
      SlashStays(s[3..]);
      assert Last(PercentDecode(s)) == Last(PercentDecode(s[3..]));
    } else if |s| > 1 {
      assert Last(s[1..]) == Last(s);
      SlashStays(s[1..]);
      assert Last(PercentDecode(s)) == Last(PercentDecode(s[1..]));
    } else {
      assert s[1..] == [] && PercentDecode(s) == [s[0]] + [];
    }
  }

  /** A directory comes back as the same directory, written with its slash, exactly when its path is not decoded. */
  lemma {:induction false} DirectoryRoundTrip(path: string, uuid: string -> Option<string>)
    ensures
      Parse(Printed(ToUri(Directory(path))), false, uuid) == Ok(Directory(WithSlash(path)))
      <==> !EndsWith(path, '\\') && Undecoded(WithSlash(path))
    ensures
      Parse(Printed(ToUri(Directory(path))), false, uuid) == Ok(Directory(path))
      <==> EndsWith(path, '/') && Undecoded(path)
  {
    PathRoundTrip(WithSlash(path));
    if !EndsWith(path, '/') && !EndsWith(path, '\\') {
      SlashStays(path + "/");
    }
  }

  lemma {:induction false} IdMentions(m: Mention, uuid: string -> Option<string>)
    requires m.Thread? || m.Rule?
    ensures Parse(Printed(ToUri(m)), false, uuid) == Ok(m) <==> Survives(m, uuid)
  {
    var path := ToUri(m).path;
    if m.Thread? {
      assert path[14..] == m.id;
    } else {
      assert path[7] == 'r';
      NotPrefix("/agent/thread/", path, 7);
      assert path[12..] == m.id;
    }
  }

  /** The fixed paths are told apart by one character. */
  lemma {:induction false} FixedPaths()
    ensures !("/agent/thread/" <= "/agent/diagnostics") && !("/agent/rule/" <= "/agent/diagnostics")
    ensures !("/agent/thread/" <= "/agent/pasted-image") && !("/agent/rule/" <= "/agent/pasted-image")
    ensures !("/agent/thread/" <= "/agent/untitled-buffer") && !("/agent/rule/" <= "/agent/untitled-buffer")
    ensures !("/agent/pasted-image" <= "/agent/untitled-buffer")
  {
    assert "/agent/diagnostics"[7] == 'd' && "/agent/pasted-image"[7] == 'p' && "/agent/untitled-buffer"[7] == 'u';
    NotPrefix("/agent/thread/", "/agent/diagnostics", 7);
    NotPrefix("/agent/rule/", "/agent/diagnostics", 7);
    NotPrefix("/agent/thread/", "/agent/pasted-image", 7);
    NotPrefix("/agent/rule/", "/agent/pasted-image", 7);
    NotPrefix("/agent/thread/", "/agent/untitled-buffer", 7);
    NotPrefix("/agent/rule/", "/agent/untitled-buffer", 7);
    NotPrefix("/agent/pasted-image", "/agent/untitled-buffer", 7);
  }

  /** A path whose eighth character starts none of the earlier branches. */
  lemma {:induction false} LaterPath(path: string)
    requires |path| > 7 && (path[7] == 'g' || path[7] == 'm' || (path[7] == 't' && |path| > 8 && path[8] == 'e'))
    ensures !("/agent/thread/" <= path) && !("/agent/rule/" <= path) && path != "/agent/diagnostics"
    ensures !("/agent/pasted-image" <= path) && !("/agent/untitled-buffer" <= path) && !("/agent/symbol/" <= path)
    ensures !("/agent/file" <= path) && !("/agent/directory" <= path) && !("/agent/selection" <= path)
  {
    NotPrefix("/agent/thread/", path, if path[7] == 't' then 8 else 7);
    NotPrefix("/agent/rule/", path, 7);
    NotPrefix("/agent/diagnostics", path, 7);
    NotPrefix("/agent/pasted-image", path, 7);
    NotPrefix("/agent/untitled-buffer", path, 7);
    NotPrefix("/agent/symbol/", path, 7);
    NotPrefix("/agent/file", path, 7);
    NotPrefix("/agent/directory", path, 7);
    NotPrefix("/agent/selection", path, 7);
  }

  lemma {:induction false} ImageMentions(name: string, uuid: string -> Option<string>)
    ensures Parse(Printed(ToUri(PastedImage(name))), false, uuid) == Ok(PastedImage(name))
  {
    FixedPaths();
    assert "/agent/pasted-image"[7] != "/agent/diagnostics"[7];
  }

  /** Lines without a file are read off the fragment alone. */
  lemma {:induction false} UntitledReads(fragment: string, uuid: string -> Option<string>)
    ensures
      var lines := ParseLines(fragment);
      ParseZed(Url("zed", "/agent/untitled-buffer", [], Some(fragment)), uuid)
      == if lines.Err? then Err else Ok(Selection(None, lines.value))
  {
    FixedPaths();
    assert "/agent/untitled-buffer"[7] != "/agent/diagnostics"[7];
  }

  lemma {:induction false} UntitledMentions(lines: Lines, uuid: string -> Option<string>)
    requires Fits(Selection(None, lines))
    ensures
      var m := Selection(None, lines);
      Parse(Printed(ToUri(m)), false, uuid) == Ok(m) <==> Survives(m, uuid)
  {
    LinesRoundTrip(lines);
    UntitledReads(PrintLines(lines), uuid);
  }

  lemma {:induction false} DiagnosticsMentions(errors: bool, warnings: bool, uuid: string -> Option<string>)
    ensures Parse(Printed(ToUri(Diagnostics(errors, warnings))), false, uuid) == Ok(Diagnostics(errors, warnings))
  {
    FixedPaths();
    FlagsRoundTrip(errors, warnings);
  }

  lemma {:induction false} FlagsRoundTrip(errors: bool, warnings: bool)
    ensures Flags(ToUri(Diagnostics(errors, warnings)).query, true, false) == Ok(Diagnostics(errors, warnings))
  {
    var w, e := ("include_warnings", "true"), ("include_errors", "false");
    assert "include_warnings"[8] != "include_errors"[8] && "true"[0] != "false"[0];
    assert [w] + [e] == [w, e] && [w, e][1..] == [e] && [e][1..] == [] && [w][1..] == [] && [] + [e] == [e]
      && [w] + [] == [w];
    assert Flags([e], true, warnings) == Flags([], false, warnings);
    assert Flags([w], true, false) == Flags([], true, true);
    assert Flags([w, e], true, false) == Flags([e], true, true);
  }

  lemma {:induction false} TerminalReads(digits: string, uuid: string -> Option<string>)
    requires ParseU32(digits).Some?
    ensures ParseZed(Url("zed", "/agent/terminal-selection", [("lines", digits)], None), uuid)
         == Ok(TerminalSelection(ParseU32(digits).value))
  {
    assert "/agent/terminal-selection"[7] == 't' && "/agent/terminal-selection"[8] == 'e';
    LaterPath("/agent/terminal-selection");
  }

  lemma {:induction false} TerminalMentions(count: nat, uuid: string -> Option<string>)
    requires count < U32
    ensures Parse(Printed(ToUri(TerminalSelection(count))), false, uuid) == Ok(TerminalSelection(count))
  {
    var digits := Print(count);
    assert ParseU32(digits) == Some(count) by { PrintedNumber(count); }
    TerminalReads(digits, uuid);
    assert "zed" != "file" by { Schemes(); }
  }

  lemma {:induction false} LateMentions(m: Mention, uuid: string -> Option<string>)
    requires m.GitDiff? || m.MergeConflict?
    ensures Parse(Printed(ToUri(m)), false, uuid) == Ok(m)
  {
    assert "/agent/git-diff"[7] == 'g' && "/agent/merge-conflict"[7] == 'm';
    LaterPath(ToUri(m).path);
    NotPrefix("/agent/terminal-selection", ToUri(m).path, 7);
    if m.MergeConflict? {
      NotPrefix("/agent/git-diff", "/agent/merge-conflict", 7);
    }
  }

  lemma Schemes()
    ensures "zed" != "file" && "http" != "file" && "https" != "file" && "http" != "zed" && "https" != "zed"
  {
    assert "zed"[0] == 'z' && "file"[0] == 'f' && "http"[0] == 'h' && "https"[0] == 'h';
  }

  lemma {:induction false} FetchMentions(url: Url, uuid: string -> Option<string>)
    ensures Parse(Printed(url), false, uuid) == Ok(Fetch(url)) <==> Survives(Fetch(url), uuid)
  {
    Schemes();
    if url.scheme == "zed" {
      ZedIsNoFetch(url, uuid);
    }
  }

  lemma {:induction false} ZedIsNoFetch(url: Url, uuid: string -> Option<string>)
    ensures ParseZed(url, uuid).Ok? ==> !ParseZed(url, uuid).value.Fetch?
  {
    if url.path == "/agent/diagnostics" {
      FlagsAreDiagnostics(url.query, true, false);
    }
  }

  lemma {:induction false} FlagsAreDiagnostics(query: seq<(string, string)>, errors: bool, warnings: bool)
    ensures Flags(query, errors, warnings).Ok? ==> Flags(query, errors, warnings).value.Diagnostics?
    decreases |query|
  {
    if query != [] {
      FlagsAreDiagnostics(query[1..], errors, query[0].1 == "true");
      FlagsAreDiagnostics(query[1..], query[0].1 == "true", warnings);
    }
  }

  /**
    A mention other than a directory survives printing and parsing on POSIX exactly when
    its path is no directory and has no escapes that decode, its line numbers are below
    the largest, its rule id is one the library prints, and its URL is a web address.
   */
  lemma {:induction false} RoundTrip(m: Mention, uuid: string -> Option<string>)
    requires Fits(m) && !m.Directory?
    ensures Parse(Printed(ToUri(m)), false, uuid) == Ok(m) <==> Survives(m, uuid)
  {
    match m
    case File(_) => FileMentions(m, uuid);
    case Symbol(_, _, _) => FileMentions(m, uuid);
    case Selection(Some(_), _) => FileMentions(m, uuid);
    case Selection(None, lines) => UntitledMentions(lines, uuid);
    case Diagnostics(errors, warnings) => DiagnosticsMentions(errors, warnings, uuid);
    case PastedImage(name) => ImageMentions(name, uuid);
    case Thread(_, _) => IdMentions(m, uuid);
    case Rule(_, _) => IdMentions(m, uuid);
    case Fetch(url) => FetchMentions(url, uuid);
    case TerminalSelection(count) => TerminalMentions(count, uuid);
    case _ => LateMentions(m, uuid);
  }

  /** Two files that do not come back: one is decoded, one turns into a directory. */
  lemma {:induction false} LetterIsString()
    ensures IsString("/A")
  {
    var bytes: Utf8.Text := [0x2F, 0x41];
    assert bytes[..1] == [0x2F] && bytes[1..] == [0x41];
    assert [0x41 as Utf8.Byte][..1] == [0x41] && [0x41 as Utf8.Byte][1..] == [];
    assert Utf8.WellFormed([0x41 as Utf8.Byte]);
    assert Utf8.WellFormed(bytes);
    assert Bytes("/A") == bytes;
  }

  lemma {:induction false} FilesThatChange(uuid: string -> Option<string>)
    ensures Parse(Printed(ToUri(File("/%41"))), false, uuid) == Ok(File("/A"))
    ensures Parse(Printed(ToUri(File("/a/"))), false, uuid) == Ok(Directory("/a/"))
  {
    var s := "/%41";
    assert s[1..] == "%41" && s[1..][3..] == "";
    assert PercentDecode(s[1..]) == ['A'] + PercentDecode(s[1..][3..]) == "A";
    assert !EscapeAt(s, 0) && PercentDecode(s) == ['/'] + PercentDecode(s[1..]) == "/A";
    LetterIsString();
    var d := "/a/";
    assert !EscapeAt(d, 0) && !EscapeAt(d, 1) && !EscapeAt(d, 2);
    PathRoundTrip(d);
  }
}

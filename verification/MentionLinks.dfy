/** Links that are no longer printed but still parsed, the defaults of the parser, and what it refuses. */
module MentionLinks {
  import opened Prelude
  import opened Decimals
  import opened Mentions

  /** A path that differs from the earlier forms at its eighth character, or else at its ninth. */
  lemma {:induction false} NotEarlier(path: string)
    requires |path| > 8 && path[7] != 'r' && path[7] != 'p' && path[7] != 'u' && (path[7] == 't' ==> path[8] != 'h')
    requires path[7] == 'd' ==> path[8] != 'i' || (|path| > 9 && path[9] != 'a')
    ensures !("/agent/thread/" <= path) && !("/agent/rule/" <= path) && path != "/agent/diagnostics"
    ensures !("/agent/pasted-image" <= path) && !("/agent/untitled-buffer" <= path)
  {
    assert "/agent/thread/"[7] == 't' && "/agent/thread/"[8] == 'h';
    if path[7] == 't' {
      NotPrefix("/agent/thread/", path, 8);
    } else {
      NotPrefix("/agent/thread/", path, 7);
    }
    NotPrefix("/agent/rule/", path, 7);
    NotPrefix("/agent/pasted-image", path, 7);
    NotPrefix("/agent/untitled-buffer", path, 7);
    if path[7] == 'd' {
      assert "/agent/diagnostics"[8] == 'i' && "/agent/diagnostics"[9] == 'a';
    } else {
      NotPrefix("/agent/diagnostics", path, 7);
    }
  }

  lemma {:induction false} OldFileLink(file: string, fragment: Option<string>, uuid: string -> Option<string>)
    ensures ParseZed(Url("zed", "/agent/file", [("path", file)], fragment), uuid) == Ok(File(file))
  {
    var path := "/agent/file";
    assert path[7] == 'f';
    NotEarlier(path);
    NotPrefix("/agent/symbol/", path, 7);
  }

  lemma {:induction false} OldDirectoryLink(file: string, fragment: Option<string>, uuid: string -> Option<string>)
    ensures ParseZed(Url("zed", "/agent/directory", [("path", file)], fragment), uuid) == Ok(Directory(file))
  {
    var path := "/agent/directory";
    assert path[7] == 'd' && path[8] == 'i' && path[9] == 'r';
    NotEarlier(path);
    NotPrefix("/agent/symbol/", path, 7);
    NotPrefix("/agent/file", path, 7);
  }

  lemma {:induction false} OldSymbolReads(file: string, name: string, fragment: string, uuid: string -> Option<string>)
    ensures
      var lines := ParseLines(fragment);
      ParseZed(Url("zed", "/agent/symbol/" + name, [("path", file)], Some(fragment)), uuid)
      == if lines.Err? then Err else Ok(Symbol(file, name, lines.value))
  {
    var path := "/agent/symbol/" + name;
    assert path[7] == 's' && path[14..] == name;
    NotEarlier(path);
  }

  lemma {:induction false} OldSelectionReads(file: string, fragment: string, uuid: string -> Option<string>)
    ensures
      var lines := ParseLines(fragment);
      ParseZed(Url("zed", "/agent/selection", [("path", file)], Some(fragment)), uuid)
      == if lines.Err? then Err else Ok(Selection(Some(file), lines.value))
  {
    var path := "/agent/selection";
    assert path[7] == 's' && path[8] == 'e' && "/agent/symbol/"[8] == 'y';
    NotEarlier(path);
    NotPrefix("/agent/symbol/", path, 8);
    NotPrefix("/agent/file", path, 7);
    NotPrefix("/agent/directory", path, 7);
  }

  /** The older links to files, directories, symbols and selections still name what they named. */
  lemma {:induction false} OldLinksParse(file: string, name: string, lines: Lines, uuid: string -> Option<string>)
    requires InRange(lines)
    ensures ParseZed(Url("zed", "/agent/file", [("path", file)], None), uuid) == Ok(File(file))
    ensures ParseZed(Url("zed", "/agent/directory", [("path", file)], None), uuid) == Ok(Directory(file))
    ensures ParseZed(Url("zed", "/agent/symbol/" + name, [("path", file)], Some(PrintLines(lines))), uuid)
         == Ok(Symbol(file, name, lines))
    ensures ParseZed(Url("zed", "/agent/selection", [("path", file)], Some(PrintLines(lines))), uuid)
         == Ok(Selection(Some(file), lines))
  {
    OldFileLink(file, None, uuid);
    OldDirectoryLink(file, None, uuid);
    LinesRoundTrip(lines);
    OldSymbolReads(file, name, PrintLines(lines), uuid);
    OldSelectionReads(file, PrintLines(lines), uuid);
  }

  /** Where a parameter may be left out, what stands in for it. */
  lemma {:induction false} Defaults(uuid: string -> Option<string>)
    ensures ParseZed(Url("zed", "/agent/pasted-image", [], None), uuid) == Ok(PastedImage("Image"))
    ensures ParseZed(Url("zed", "/agent/git-diff", [], None), uuid) == Ok(GitDiff("main"))
    ensures ParseZed(Url("zed", "/agent/merge-conflict", [], None), uuid) == Ok(MergeConflict(""))
    ensures ParseZed(Url("zed", "/agent/diagnostics", [], None), uuid) == Ok(Diagnostics(true, false))
  {
    FixedPaths();
    assert "/agent/pasted-image"[7] != "/agent/diagnostics"[7];
    assert "/agent/git-diff"[7] == 'g' && "/agent/merge-conflict"[7] == 'm';
    LaterPath("/agent/git-diff");
    LaterPath("/agent/merge-conflict");
    NotPrefix("/agent/terminal-selection", "/agent/git-diff", 7);
    NotPrefix("/agent/terminal-selection", "/agent/merge-conflict", 7);
    NotPrefix("/agent/git-diff", "/agent/merge-conflict", 7);
  }

  /** One parameter at most, except for the flags of diagnostics and for unsaved buffers, which have none. */
  lemma {:induction false} TwoParametersRefused(url: Url, uuid: string -> Option<string>)
    requires |url.query| > 1 && url.path != "/agent/diagnostics" && !("/agent/untitled-buffer" <= url.path)
    ensures ParseZed(url, uuid) == Err
  {
    assert forall name :: SingleParam(url.query, name) == Err;
  }

  lemma {:induction false} UnknownParameterRefused(url: Url, uuid: string -> Option<string>)
    requires |url.query| == 1 && url.query[0].0 !in {"name", "path", "lines", "base"}
    requires url.path != "/agent/diagnostics" && !("/agent/untitled-buffer" <= url.path)
    ensures ParseZed(url, uuid) == Err
  {
    assert forall name | name in {"name", "path", "lines", "base"} :: SingleParam(url.query, name) == Err;
  }

  /** A fragment of a file link that is no line range stands for the second line. */
  lemma {:induction false} BadLinesInFile(
    path: string, name: string, fragment: string, endsInSlash: bool, uuid: string -> Option<string>)
    requires ParseLines(fragment) == Err && Undecoded(path)
    ensures Parse(Input(Url("file", path, [], Some(fragment)), endsInSlash), false, uuid)
         == Ok(Selection(Some(path), Lines(1, 1)))
    ensures Parse(Input(Url("file", path, [("symbol", name)], Some(fragment)), endsInSlash), false, uuid)
         == Ok(Symbol(path, name, Lines(1, 1)))
  {
    PathRoundTrip(path);
  }

  /** Only four schemes are known. */
  lemma {:induction false} OtherSchemesRefused(input: Input, windows: bool, uuid: string -> Option<string>)
    requires input.url.scheme !in {"file", "zed", "http", "https"}
    ensures Parse(input, windows, uuid) == Err
  {
  }

  lemma {:induction false} TrimmedStart(s: string, c: char)
    ensures
      var t := TrimStart(s, c);
      && |t| <= |s| && s[|s| - |t|..] == t && (t == [] || t[0] != c)
      && forall i | 0 <= i < |s| - |t| :: s[i] == c
  {
    if s != [] && s[0] == c {
      TrimmedStart(s[1..], c);
      var t := TrimStart(s[1..], c);
      assert s[|s| - |t|..] == s[1..][|s| - 1 - |t|..];
    }
  }

  /** On Windows the slashes in front of a path go, and the others become backslashes. */
  lemma {:induction false} WindowsPath(path: string, uuid: string -> Option<string>)
    requires Undecoded(TrimStart(path, '/'))
    ensures
      var p := FilePath(path, true);
      var t := TrimStart(path, '/');
      && |p| == |t| && (forall i | 0 <= i < |p| :: p[i] == if t[i] == '/' then '\\' else t[i])
      && '/' !in p
      && Parse(Input(Url("file", path, [], None), false), true, uuid) == Ok(File(p))
  {
    PathRoundTrip(TrimStart(path, '/'));
  }

  // ----- Links that are printed, read off directly -----

  lemma {:induction false} ThreadLink(
    id: string, name: string, fragment: Option<string>, uuid: string -> Option<string>)
    ensures ParseZed(Url("zed", "/agent/thread/" + id, [("name", name)], fragment), uuid) == Ok(Thread(id, name))
    ensures ParseZed(Url("zed", "/agent/thread/" + id, [], fragment), uuid) == Err
  {
    assert ("/agent/thread/" + id)[14..] == id;
  }

  lemma {:induction false} RuleLink(id: string, name: string, fragment: Option<string>, uuid: string -> Option<string>)
    ensures
      ParseZed(Url("zed", "/agent/rule/" + id, [("name", name)], fragment), uuid)
      == if uuid(id).None? then Err else Ok(Rule(uuid(id).value, name))
  {
    var path := "/agent/rule/" + id;
    assert path[7] == 'r' && path[12..] == id;
    NotPrefix("/agent/thread/", path, 7);
  }

  lemma {:induction false} LateLinks(value: string, fragment: Option<string>, uuid: string -> Option<string>)
    ensures ParseZed(Url("zed", "/agent/git-diff", [("base", value)], fragment), uuid) == Ok(GitDiff(value))
    ensures ParseZed(Url("zed", "/agent/merge-conflict", [("path", value)], fragment), uuid) == Ok(MergeConflict(value))
  {
    assert "/agent/git-diff"[7] == 'g' && "/agent/merge-conflict"[7] == 'm';
    LaterPath("/agent/git-diff");
    LaterPath("/agent/merge-conflict");
    NotPrefix("/agent/terminal-selection", "/agent/git-diff", 7);
    NotPrefix("/agent/terminal-selection", "/agent/merge-conflict", 7);
    NotPrefix("/agent/git-diff", "/agent/merge-conflict", 7);
  }

  lemma {:induction false} ImageLink(name: string, fragment: Option<string>, uuid: string -> Option<string>)
    ensures ParseZed(Url("zed", "/agent/pasted-image", [("name", name)], fragment), uuid) == Ok(PastedImage(name))
  {
    FixedPaths();
    assert "/agent/pasted-image"[7] != "/agent/diagnostics"[7];
  }

  /** What the links that are printed name, whatever comes in their parameters. */
  lemma {:induction false} LinksParse(
    id: string, value: string, fragment: Option<string>, uuid: string -> Option<string>)
    ensures ParseZed(Url("zed", "/agent/thread/" + id, [("name", value)], fragment), uuid) == Ok(Thread(id, value))
    ensures
      ParseZed(Url("zed", "/agent/rule/" + id, [("name", value)], fragment), uuid)
      == if uuid(id).None? then Err else Ok(Rule(uuid(id).value, value))
    ensures ParseZed(Url("zed", "/agent/pasted-image", [("name", value)], fragment), uuid) == Ok(PastedImage(value))
    ensures ParseZed(Url("zed", "/agent/git-diff", [("base", value)], fragment), uuid) == Ok(GitDiff(value))
    ensures ParseZed(Url("zed", "/agent/merge-conflict", [("path", value)], fragment), uuid) == Ok(MergeConflict(value))
  {
    ThreadLink(id, value, fragment, uuid);
    RuleLink(id, value, fragment, uuid);
    ImageLink(value, fragment, uuid);
    LateLinks(value, fragment, uuid);
  }

  // ----- Percent escapes -----

  const LOWER_HEX := "0123456789abcdef"
  const UPPER_HEX := "0123456789ABCDEF"

  lemma HexDigits(v: nat)
    requires v < 16
    ensures |LOWER_HEX| == 16 && HexValue(LOWER_HEX[v]) == Some(v)
    ensures |UPPER_HEX| == 16 && HexValue(UPPER_HEX[v]) == Some(v)
  {
  }

  /** An escape stands for its byte, in either case of letters; anything else stands for itself. */
  lemma {:induction false} EscapesDecode(byte: nat, rest: string)
    requires byte < 256
    ensures |LOWER_HEX| == |UPPER_HEX| == 16
    ensures PercentDecode(['%', LOWER_HEX[byte / 16], LOWER_HEX[byte % 16]] + rest)
      == [byte as char] + PercentDecode(rest)
    ensures PercentDecode(['%', UPPER_HEX[byte / 16], UPPER_HEX[byte % 16]] + rest)
      == [byte as char] + PercentDecode(rest)
  {
    HexDigits(byte / 16);
    HexDigits(byte % 16);
    var low := ['%', LOWER_HEX[byte / 16], LOWER_HEX[byte % 16]] + rest;
    var up := ['%', UPPER_HEX[byte / 16], UPPER_HEX[byte % 16]] + rest;
    assert low[3..] == rest && up[3..] == rest && EscapeAt(low, 0) && EscapeAt(up, 0);
  }
}

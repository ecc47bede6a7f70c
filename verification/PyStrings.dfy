/** The string operations of Python that the report scripts use. */
module PyStrings {
  import opened Prelude
  import opened Decimals

  /** `str.isspace` for one character. */
  predicate IsSpace(c: char) {
    var n := c as int;
    9 <= n <= 13 || 28 <= n <= 32 || n == 0x85 || n == 0xA0 || n == 0x1680 || 0x2000 <= n <= 0x200A
    || n == 0x2028 || n == 0x2029 || n == 0x202F || n == 0x205F || n == 0x3000
  }

  function SkipSpaces(s: string): string {
    if s != [] && IsSpace(s[0]) then SkipSpaces(s[1..]) else s
  }

  function DropSpaces(s: string): string {
    if s != [] && IsSpace(Last(s)) then DropSpaces(Init(s)) else s
  }

  /** `s.strip()` */
  function Strip(s: string): string {
    DropSpaces(SkipSpaces(s))
  }

  /** `s.rstrip(c)` for one character. */
  function RStrip(s: string, c: char): string {
    if s != [] && Last(s) == c then RStrip(Init(s), c) else s
  }

  function UpToSpace(s: string): string {
    if s == [] || IsSpace(s[0]) then [] else [s[0]] + UpToSpace(s[1..])
  }

  /** `s.split()[0]`, if there is one. */
  function FirstToken(s: string): Option<string> {
    var t := SkipSpaces(s);
    if t == [] then None else Some(UpToSpace(t))
  }

  /** Where `sep` first occurs. */
  function Find(s: string, sep: string): (r: Option<nat>)
    ensures r.Some? ==> r.value + |sep| <= |s| && sep <= s[r.value..]
  {
    if sep <= s then Some(0)
    else if s == [] then None
    else
      var r := Find(s[1..], sep);
      if r.None? then None else Some(r.value + 1)
  }

  /** `s.split(sep)[1]`, if there is one. */
  function SecondPiece(s: string, sep: string): Option<string>
    requires sep != []
  {
    match Find(s, sep)
    case None => None
    case Some(i) =>
      var rest := s[i + |sep|..];
      match Find(rest, sep)
      case None => Some(rest)
      case Some(j) => Some(rest[..j])
  }

  function Without(s: string, c: char): string {
    if s == [] then [] else (if s[0] == c then [] else [s[0]]) + Without(s[1..], c)
  }

  /** Digits, with single underscores between them. */
  predicate Numeral(s: string) {
    && s != [] && IsDigit(s[0]) && IsDigit(Last(s))
    && (forall i | 0 <= i < |s| :: IsDigit(s[i]) || s[i] == '_')
    && (forall i | 0 <= i < |s| - 1 :: s[i] == '_' ==> s[i + 1] != '_')
  }

  /** `int(s)`; digits of other scripts are not considered. */
  function Int(s: string): Option<int> {
    var t := Strip(s);
    var signed := t != [] && (t[0] == '-' || t[0] == '+');
    var body := if signed then t[1..] else t;
    if !Numeral(body) || !AllDigits(Without(body, '_')) then None
    else
      var n: int := Value(Without(body, '_'));
      Some(if signed && t[0] == '-' then -n else n)
  }

  /** `sep.join(lines)` */
  function Join(lines: seq<string>, sep: char): string {
    if lines == [] then [] else if |lines| == 1 then lines[0] else lines[0] + [sep] + Join(lines[1..], sep)
  }

  /** `s.split(sep)` for one character. */
  function Split(s: string, sep: char): (lines: seq<string>)
    ensures lines != []
  {
    if s == [] then [[]]
    else if s[0] == sep then [[]] + Split(s[1..], sep)
    else
      var rest := Split(s[1..], sep);
      [[s[0]] + rest[0]] + rest[1..]
  }

  // ----- Lemmas -----

  lemma {:induction false} SplitFirst(line: string, sep: char, rest: string)
    requires sep !in line
    ensures Split(line + [sep] + rest, sep) == [line] + Split(rest, sep)
  {
    var s := line + [sep] + rest;
    if line == [] {
      assert s[1..] == rest;
    } else {
      assert s[1..] == line[1..] + [sep] + rest;
      SplitFirst(line[1..], sep, rest);
      assert [s[0]] + line[1..] == line;
    }
  }

  lemma {:induction false} SplitOne(line: string, sep: char)
    requires sep !in line
    ensures Split(line, sep) == [line]
  {
    if line != [] {
      SplitOne(line[1..], sep);
      assert [line[0]] + line[1..] == line;
    }
  }

  /** Lines that hold no separator come back from a joined text. */
  lemma {:induction false} SplitJoin(lines: seq<string>, sep: char)
    requires lines != [] && forall i | 0 <= i < |lines| :: sep !in lines[i]
    ensures Split(Join(lines, sep), sep) == lines
  {
    if |lines| == 1 {
      SplitOne(lines[0], sep);
    } else {
      SplitJoin(lines[1..], sep);
      SplitFirst(lines[0], sep, Join(lines[1..], sep));
    }
  }

  lemma {:induction false} FindAt(p: string, sep: string, rest: string)
    requires sep != [] && forall i | 0 <= i < |p| :: !(sep <= (p + sep + rest)[i..])
    ensures Find(p + sep + rest, sep) == Some(|p|)
  {
    var s := p + sep + rest;
    if p == [] {
      assert s == sep + rest;
    } else {
      assert s[0..] == s;
      assert !(sep <= (p + sep + rest)[0..]);
      assert s[1..] == p[1..] + sep + rest;
      forall i | 0 <= i < |p[1..]|
        ensures !(sep <= (p[1..] + sep + rest)[i..])
      {
        assert (p[1..] + sep + rest)[i..] == s[i + 1..];
      }
      FindAt(p[1..], sep, rest);
    }
  }

  lemma {:induction false} FindNowhere(s: string, sep: string)
    requires sep != [] && sep[0] !in s
    ensures Find(s, sep).None?
  {
    if s != [] {
      FindNowhere(s[1..], sep);
    }
  }

  lemma {:induction false} WithoutNothing(s: string, c: char)
    requires c !in s
    ensures Without(s, c) == s
  {
    if s != [] {
      WithoutNothing(s[1..], c);
      assert [s[0]] + s[1..] == s;
    }
  }

  lemma {:induction false} TokenOf(t: string, rest: string)
    requires t != [] && (forall i | 0 <= i < |t| :: !IsSpace(t[i])) && (rest != [] ==> IsSpace(rest[0]))
    ensures UpToSpace(t + rest) == t
  {
    if |t| == 1 {
      assert (t + rest)[1..] == rest;
      assert UpToSpace(rest) == [];
      assert [t[0]] + [] == t;
    } else {
      assert (t + rest)[1..] == t[1..] + rest;
      TokenOf(t[1..], rest);
      assert [t[0]] + t[1..] == t;
    }
  }

  lemma {:induction false} PrintedInt(n: nat)
    ensures Int(Print(n)) == Some(n) && Print(n) != [] && RStrip(Print(n), ')') == Print(n)
    ensures forall i | 0 <= i < |Print(n)| :: IsDigit(Print(n)[i]) && !IsSpace(Print(n)[i])
  {
    PrintValue(n);
    var s := Print(n);
    assert IsDigit(s[0]) && IsDigit(s[|s| - 1]);
    assert Strip(s) == s;
    WithoutNothing(s, '_');
  }
}

/** The licence-header checker (hack/boilerplate/boilerplate.py). */
module Boilerplate {
  import opened Common
  import opened Text

  /** A file as the checker meets it: `text` is absent if it cannot be opened; `basename` and `extension` are
      what the path library makes of `name`. */
  datatype File = File(name: string, basename: string, extension: string, text: Option<string>)

  /** The current year, as far as it has four digits. */
  type Year = y: int | 2014 <= y <= 9999 witness 2014

  const YEAR := "YEAR"
  const GENERATED := "DO NOT EDIT"
  const SKIPPED_UNGENERATED := ["hack/lib/swagger.sh", "hack/boilerplate/boilerplate.py"]

  // ---------- the regular expressions ----------

  function Digit(n: int): char
    requires 0 <= n < 10
  {
    ['0', '1', '2', '3', '4', '5', '6', '7', '8', '9'][n]
  }

  predicate IsDigit(c: char) {
    '0' <= c <= '9'
  }

  function YearText(y: Year): string {
    [Digit(y / 1000), Digit(y / 100 % 10), Digit(y / 10 % 10), Digit(y % 10)]
  }

  /** `t` is one of the alternatives of the date expression. */
  predicate LegalYear(t: string, now: Year) {
    exists y: Year :: 2014 <= y <= now && t == YearText(y)
  }

  /** Leftmost, non-overlapping legal years replaced by YEAR, with their number (subn). */
  function SubYears(line: string, now: Year): (string, nat) {
    if line == "" then ("", 0)
    else if |line| >= 4 && LegalYear(line[..4], now) then
      var rest := SubYears(line[4..], now);
      (YEAR + rest.0, rest.1 + 1)
    else
      var rest := SubYears(line[1..], now);
      ([line[0]] + rest.0, rest.1)
  }

  function FirstNewline(s: string): (n: nat)
    ensures n <= |s| && '\n' !in s[..n] && (n < |s| ==> s[n] == '\n')
  {
    if s == "" || s[0] == '\n' then 0
    else
      var n := FirstNewline(s[1..]);
      assert s[..n + 1] == [s[0]] + s[1..][..n];
      n + 1
  }

  function DropNewlines(s: string): string {
    if s != "" && s[0] == '\n' then DropNewlines(s[1..]) else s
  }

  datatype Preamble = GoConstraints | Shebang

  /** A whole line of the preamble stands at the front of `s`. */
  predicate StartsPreamble(s: string, p: Preamble) {
    && FirstNewline(s) < |s|
    && match p
       case GoConstraints => StartsWith(s, "//go:build") || StartsWith(s, "// +build")
       case Shebang => StartsWith(s, "#!")
  }

  function AfterConstraints(s: string): string {
    if StartsPreamble(s, GoConstraints) then AfterConstraints(s[FirstNewline(s) + 1..]) else s
  }

  /** What follows a match at the front of `s`: one or more constraint lines and an empty line, or a shebang
      line and any empty lines. */
  function MatchPreamble(s: string, p: Preamble): Option<string> {
    if !StartsPreamble(s, p) then None
    else
      match p
      case Shebang => Some(DropNewlines(s[FirstNewline(s) + 1..]))
      case GoConstraints =>
        var rest := AfterConstraints(s);
        if rest != "" && rest[0] == '\n' then Some(rest[1..]) else None
  }

  /** The first match at the beginning of a line removed. */
  function Strip(s: string, p: Preamble): string {
    match MatchPreamble(s, p)
    case Some(rest) => rest
    case None =>
      var n := FirstNewline(s);
      if n == |s| then s else s[..n + 1] + Strip(s[n + 1..], p)
  }

  // ---------- lines ----------

  predicate IsBreak(c: char) {
    c in {'\n', '\r', '\U{000B}', '\U{000C}', '\U{001C}', '\U{001D}', '\U{001E}', '\U{0085}', '\U{2028}', '\U{2029}'}
  }

  function FirstBreak(s: string): (n: nat)
    ensures n <= |s| && (n < |s| ==> IsBreak(s[n]))
  {
    if s == "" || IsBreak(s[0]) then 0 else FirstBreak(s[1..]) + 1
  }

  function SplitLines(s: string): seq<string>
    decreases |s|
  {
    if s == "" then []
    else
      var n := FirstBreak(s);
      if n == |s| then [s]
      else
        var skip := if s[n] == '\r' && n + 1 < |s| && s[n + 1] == '\n' then 2 else 1;
        [s[..n]] + SplitLines(s[n + skip..])
  }

  // ---------- the check ----------

  predicate IsGenerated(name: string, text: string) {
    (forall d :: d in SKIPPED_UNGENERATED ==> !Contains(name, d)) && Contains(text, GENERATED)
  }

  /** The key under which the reference header is looked up. */
  function RefKey(file: File, generated: bool): string {
    if generated && file.extension == "go" then "generatego"
    else if generated && file.extension == "bzl" then "generatebzl"
    else if file.extension != "" then file.extension
    else file.basename
  }

  function Body(file: File, text: string): string {
    if file.extension in {"go", "generatego"} then Strip(text, GoConstraints)
    else if file.extension in {"sh", "py"} then Strip(text, Shebang)
    else text
  }

  /** Years replaced on the first line that has any. */
  function StampOut(data: seq<string>, now: Year): seq<string> {
    if data == [] then []
    else
      var (line, found) := SubYears(data[0], now);
      if found != 0 then [line] + data[1..] else [data[0]] + StampOut(data[1..], now)
  }

  predicate MatchesRef(lines: seq<string>, ref: seq<string>, generated: bool, now: Year) {
    && |ref| <= |lines|
    && var data := lines[..|ref|];
       && (forall d :: d in data ==> !Contains(d, YEAR))
       && ref == if generated then data else StampOut(data, now)
  }

  /** The verdict on a file, or the missing reference key. */
  function Verdict(file: File, refs: map<string, seq<string>>, now: Year): Result<bool, string> {
    if file.text.None? then Ok(false)
    else
      var generated := IsGenerated(file.name, file.text.value);
      var key := RefKey(file, generated);
      if key !in refs then Err(key)
      else Ok(MatchesRef(SplitLines(Body(file, file.text.value)), refs[key], generated, now))
  }

  lemma {:induction false} NoYearNoChange(line: string, now: Year)
    ensures SubYears(line, now).1 == 0 ==> SubYears(line, now).0 == line
  {
    if line != "" && !(|line| >= 4 && LegalYear(line[..4], now)) {
      NoYearNoChange(line[1..], now);
      assert [line[0]] + line[1..] == line;
    }
  }

  method FilePasses(file: File, refs: map<string, seq<string>>, now: Year) returns (verdict: Result<bool, string>)
    ensures verdict == Verdict(file, refs, now)
  {
    if file.text.None? {
      return Ok(false);
    }
    var text := file.text.value;
    var generated := IsGenerated(file.name, text);
    var extension := file.extension;
    if generated {
      if extension == "go" {
        extension := "generatego";
      } else if extension == "bzl" {
        extension := "generatebzl";
      }
    }
    var key := if extension != "" then extension else file.basename;
    if key !in refs {
      return Err(key);
    }
    var ref := refs[key];
    if extension == "go" || extension == "generatego" {
      text := Strip(text, GoConstraints);
    } else if extension in {"sh", "py"} {
      text := Strip(text, Shebang);
    }
    var data := SplitLines(text);
    if |ref| > |data| {
      return Ok(false);
    }
    data := data[..|ref|];
    for i := 0 to |data|
      invariant forall j :: 0 <= j < i ==> !Contains(data[j], YEAR)
    {
      if Contains(data[i], YEAR) {
        return Ok(false);
      }
    }
    if !generated {
      data := StampOutLoop(data, now);
    }
    return Ok(ref == data);
  }

  /** The substitution loop, which stops at the first line where it finds a year. */
  method StampOutLoop(lines: seq<string>, now: Year) returns (data: seq<string>)
    ensures data == StampOut(lines, now)
  {
    hide LegalYear, SubYears;
    data := lines;
    for i := 0 to |lines|
      invariant data == lines
      invariant StampOut(lines, now) == lines[..i] + StampOut(lines[i..], now)
    {
      var (line, found) := SubYears(data[i], now);
      NoYearNoChange(data[i], now);
      data := data[i := line];
      if found != 0 {
        assert data == lines[..i] + ([line] + lines[i..][1..]);
        break;
      }
      assert lines[..i + 1] == lines[..i] + [lines[i]];
      assert lines[i..][1..] == lines[i + 1..];
    }
  }
}

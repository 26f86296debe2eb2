/** The verdict of the header check, said of the text of a file: its lines, its kind, and the reference header. */
module Header {
  import opened Common
  import opened Text
  import opened Boilerplate
  import opened Stamp
  import opened Preambles

  // ---------- lines ----------

  lemma BreaksAreLineBoundaries(c: char)
    ensures IsBreak(c) <==> 10 <= c as int <= 13 || c as int in {0x1C, 0x1D, 0x1E, 0x85, 0x2028, 0x2029}
  {
  }

  ghost predicate Plain(s: string) {
    forall c :: c in s ==> !IsBreak(c)
  }

  lemma {:induction false} FirstBreakBehind(line: string, rest: string)
    requires Plain(line) && (rest == "" || IsBreak(rest[0]))
    ensures FirstBreak(line + rest) == |line|
  {
    if line == "" {
      assert line + rest == rest;
    } else {
      assert line[0] in line;
      assert (line + rest)[1..] == line[1..] + rest;
      FirstBreakBehind(line[1..], rest);
    }
  }

  lemma SplitPlain(line: string)
    requires Plain(line)
    ensures SplitLines(line) == if line == "" then [] else [line]
  {
    FirstBreakBehind(line, "");
    assert line + "" == line;
  }

  /** One break between `line` and `rest`; a carriage return and a newline together are one. */
  predicate IsOneBreak(brk: string, rest: string) {
    || brk == "\r\n"
    || (|brk| == 1 && IsBreak(brk[0]) && !(brk == "\r" && rest != "" && rest[0] == '\n'))
  }

  lemma SplitAtBreak(line: string, brk: string, rest: string)
    requires Plain(line) && IsOneBreak(brk, rest)
    ensures SplitLines(line + brk + rest) == [line] + SplitLines(rest)
  {
    var s := line + brk + rest;
    assert s == line + (brk + rest);
    FirstBreakBehind(line, brk + rest);
    assert s[..|line|] == line;
    assert s[|line|] == brk[0];
    assert s[|line| + |brk|..] == rest;
    assert |s| > |line| + 1 ==> s[|line| + 1] == (brk + rest)[1];
  }

  lemma {:induction false} FirstBreakIsFirst(s: string)
    ensures Plain(s[..FirstBreak(s)])
  {
    if s != "" && !IsBreak(s[0]) {
      FirstBreakIsFirst(s[1..]);
      assert s[..FirstBreak(s)] == [s[0]] + s[1..][..FirstBreak(s[1..])];
    }
  }

  lemma {:induction false} LinesArePlain(s: string)
    ensures forall l :: l in SplitLines(s) ==> Plain(l)
    decreases |s|
  {
    hide FirstBreak, Plain;
    if s != "" {
      FirstBreakIsFirst(s);
      var n := FirstBreak(s);
      if n == |s| {
        assert s[..n] == s;
      } else {
        var skip := if s[n] == '\r' && n + 1 < |s| && s[n + 1] == '\n' then 2 else 1;
        LinesArePlain(s[n + skip..]);
      }
    }
  }

  /** The lines of a text that ends in `last`, perhaps empty, behind its final newline. */
  function WithLast(lines: seq<string>, last: string): seq<string> {
    lines + if last == "" then [] else [last]
  }

  /** Splitting gives back the lines that were joined, empty ones included, with or without a final newline. */
  lemma {:induction false} SplitUndoesUnlines(lines: seq<string>, last: string)
    requires (forall l :: l in lines ==> Plain(l)) && Plain(last)
    ensures SplitLines(Unlines(lines) + last) == WithLast(lines, last)
  {
    hide Plain, SplitLines, FirstBreak;
    if lines == [] {
      SplitPlain(last);
      assert Unlines(lines) + last == last;
    } else {
      var rest := Unlines(lines[1..]) + last;
      assert Unlines(lines) + last == lines[0] + "\n" + rest;
      SplitAtBreak(lines[0], "\n", rest);
      SplitUndoesUnlines(lines[1..], last);
      assert [lines[0]] + WithLast(lines[1..], last) == WithLast(lines, last);
    }
  }

  // ---------- years ----------

  function Value(c: char): int {
    c as int - 48
  }

  lemma LegalYearsAreNumbers(t: string, now: Year)
    ensures LegalYear(t, now) <==>
              && |t| == 4 && (forall c :: c in t ==> 0 <= Value(c) <= 9)
              && 2014 <= 1000 * Value(t[0]) + 100 * Value(t[1]) + 10 * Value(t[2]) + Value(t[3]) <= now
  {
    if |t| == 4 && forall c :: c in t ==> 0 <= Value(c) <= 9 {
      var y := 1000 * Value(t[0]) + 100 * Value(t[1]) + 10 * Value(t[2]) + Value(t[3]);
      if 2014 <= y <= now {
        YearTextOf(t);
      }
    }
    if y: Year :| 2014 <= y <= now && t == YearText(y) {
      TextOfYear(y);
    }
  }

  lemma DigitValue(n: int)
    requires 0 <= n < 10
    ensures Value(Digit(n)) == n
  {
  }

  lemma Digits(y: int)
    requires 0 <= y <= 9999
    ensures 0 <= y / 1000 <= 9 && y == 1000 * (y / 1000) + 100 * (y / 100 % 10) + 10 * (y / 10 % 10) + y % 10
  {
    assert y / 100 / 10 == y / 1000 && y / 10 / 10 == y / 100;
  }

  lemma DigitsAreUnique(a: int, b: int, c: int, d: int)
    requires 0 <= a <= 9 && 0 <= b <= 9 && 0 <= c <= 9 && 0 <= d <= 9
    ensures var y := 1000 * a + 100 * b + 10 * c + d;
            y / 1000 == a && y / 100 % 10 == b && y / 10 % 10 == c && y % 10 == d
  {
    Tens(100 * a + 10 * b + c, d);
    Tens(10 * a + b, c);
    Tens(a, b);
    Quotients(1000 * a + 100 * b + 10 * c + d);
  }

  lemma Tens(q: int, d: int)
    requires 0 <= d <= 9
    ensures (10 * q + d) / 10 == q && (10 * q + d) % 10 == d
  {
  }

  lemma Quotients(y: int)
    ensures y / 100 == y / 10 / 10 && y / 1000 == y / 10 / 10 / 10
  {
  }

  lemma TextOfYear(y: Year)
    ensures var t := YearText(y);
            && |t| == 4 && (forall c :: c in t ==> 0 <= Value(c) <= 9)
            && 1000 * Value(t[0]) + 100 * Value(t[1]) + 10 * Value(t[2]) + Value(t[3]) == y
  {
    hide Digit, Value;
    Digits(y);
    DigitValue(y / 1000);
    DigitValue(y / 100 % 10);
    DigitValue(y / 10 % 10);
    DigitValue(y % 10);
  }

  lemma YearTextOf(t: string)
    requires |t| == 4 && forall c :: c in t ==> 0 <= Value(c) <= 9
    requires 2014 <= 1000 * Value(t[0]) + 100 * Value(t[1]) + 10 * Value(t[2]) + Value(t[3])
    ensures t == YearText(1000 * Value(t[0]) + 100 * Value(t[1]) + 10 * Value(t[2]) + Value(t[3]))
  {
    hide Digit, Value;
    assert t[0] in t && t[1] in t && t[2] in t && t[3] in t;
    DigitsAreUnique(Value(t[0]), Value(t[1]), Value(t[2]), Value(t[3]));
    DigitOfValue(t[0]);
    DigitOfValue(t[1]);
    DigitOfValue(t[2]);
    DigitOfValue(t[3]);
    assert t == [t[0], t[1], t[2], t[3]];
  }

  lemma DigitOfValue(c: char)
    requires 0 <= Value(c) <= 9
    ensures Digit(Value(c)) == c
  {
  }

  // ---------- the verdict ----------

  /** Files that say so are generated, but for two that only mention it. */
  ghost predicate SaysGenerated(name: string, text: string) {
    && (exists a, b :: text == a + "DO NOT EDIT" + b)
    && (forall a, b :: name != a + "hack/lib/swagger.sh" + b && name != a + "hack/boilerplate/boilerplate.py" + b)
  }

  lemma GeneratedExactly(name: string, text: string)
    ensures IsGenerated(name, text) <==> SaysGenerated(name, text)
  {
    ContainsExactly(text, "DO NOT EDIT");
    ContainsExactly(name, "hack/lib/swagger.sh");
    ContainsExactly(name, "hack/boilerplate/boilerplate.py");
    assert SKIPPED_UNGENERATED[0] in SKIPPED_UNGENERATED && SKIPPED_UNGENERATED[1] in SKIPPED_UNGENERATED;
  }

  /** The reference header that a file is held against. */
  ghost predicate IsRefKey(file: File, text: string, key: string) {
    var generated := SaysGenerated(file.name, text);
    if generated && file.extension == "go" then key == "generatego"
    else if generated && file.extension == "bzl" then key == "generatebzl"
    else key == if file.extension != "" then file.extension else file.basename
  }

  /** A Go file loses build constraints, a script its shebang, and others nothing. */
  ghost predicate IsBody(file: File, text: string, body: string) {
    body == if file.extension in {"go", "generatego"} then Strip(text, GoConstraints)
            else if file.extension in {"sh", "py"} then Strip(text, Shebang)
            else text
  }

  /** A file that cannot be opened is refused; without a reference header the check ends in a key error. A
      generated file has to begin with its reference header as it is, free of YEAR. Any other has to begin with
      the reference header stamped with one legal year that the template takes. */
  lemma VerdictExactly(file: File, refs: map<string, seq<string>>, now: Year, key: string, lines: seq<string>, last: string)
    requires file.text.Some? ==> IsRefKey(file, file.text.value, key)
    requires file.text.Some? ==> IsBody(file, file.text.value, Unlines(lines) + last)
    requires (forall l :: l in lines ==> Plain(l)) && Plain(last)
    ensures file.text.None? ==> Verdict(file, refs, now) == Ok(false)
    ensures file.text.Some? ==> (Verdict(file, refs, now) == Err(key) <==> key !in refs)
    ensures file.text.Some? && key in refs && SaysGenerated(file.name, file.text.value) ==>
              var ref, all := refs[key], WithLast(lines, last);
              Verdict(file, refs, now) == Ok(ref <= all && forall l :: l in ref ==> !Contains(l, "YEAR"))
    ensures file.text.Some? && key in refs && !SaysGenerated(file.name, file.text.value) ==>
              var ref, all := refs[key], WithLast(lines, last);
              forall n: nat, a, b :: IsTemplate(ref, n, a, b) ==>
                Verdict(file, refs, now) ==
                Ok(&& |ref| <= |all|
                   && exists y :: LegalYear(y, now) && TakesStamp(ref, n, a, y, b, now) && all[..|ref|] == Stamped(ref, n, a, b, y))
  {
    hide SplitLines, Strip, TakesStamp, LegalYear, Plain, Contains, StampOut, SaysGenerated, IsGenerated;
    if file.text.Some? {
      var text := file.text.value;
      GeneratedExactly(file.name, text);
      SplitUndoesUnlines(lines, last);
      if key in refs {
        var ref, all := refs[key], WithLast(lines, last);
        assert SplitLines(Body(file, text)) == all;
        if SaysGenerated(file.name, text) {
          assert ref <= all <==> |ref| <= |all| && ref == all[..|ref|];
        } else {
          forall n: nat, a, b | IsTemplate(ref, n, a, b)
            ensures Verdict(file, refs, now) ==
                    Ok(&& |ref| <= |all|
                       && exists y :: LegalYear(y, now) && TakesStamp(ref, n, a, y, b, now) && all[..|ref|] == Stamped(ref, n, a, b, y))
          {
            FilePassesIffStamped(file, refs, n, a, b, now);
          }
        }
      }
    }
  }
}

/** What the header check takes off the front of a text, and that it makes no difference there. */
module Preambles {
  import opened Common
  import opened Text
  import opened Boilerplate

  // ---------- what is taken off: the two regular expressions ----------

  function Newlines(n: nat): (r: string)
    ensures |r| == n && forall i :: 0 <= i < n ==> r[i] == '\n'
  {
    seq(n, _ => '\n')
  }

  /** The lines, each with a newline behind it. */
  function Unlines(lines: seq<string>): string {
    if lines == [] then "" else lines[0] + "\n" + Unlines(lines[1..])
  }

  predicate IsShebang(block: string, line: string, n: nat) {
    StartsWith(line, "#!") && '\n' !in line && block == line + "\n" + Newlines(n)
  }

  predicate IsConstraint(line: string) {
    '\n' !in line && (StartsWith(line, "//go:build") || StartsWith(line, "// +build"))
  }

  ghost predicate IsConstraintBlock(block: string, lines: seq<string>) {
    lines != [] && (forall l :: l in lines ==> IsConstraint(l)) && block == Unlines(lines) + "\n"
  }

  /** A shebang line and any empty lines, or build constraints and one empty line. */
  ghost predicate IsPreamble(block: string, p: Preamble) {
    match p
    case Shebang => exists line, n: nat :: IsShebang(block, line, n)
    case GoConstraints => exists lines :: IsConstraintBlock(block, lines)
  }

  lemma {:induction false} FirstNewlineAfter(line: string, rest: string)
    requires '\n' !in line
    ensures FirstNewline(line + "\n" + rest) == |line|
  {
    if line != "" {
      FirstNewlineAfter(line[1..], rest);
      assert (line + "\n" + rest)[1..] == line[1..] + "\n" + rest;
    }
  }

  lemma MarkOfLine(line: string, rest: string, mark: string)
    requires '\n' !in line && '\n' !in mark
    ensures StartsWith(line + "\n" + rest, mark) <==> StartsWith(line, mark)
  {
    var s := line + "\n" + rest;
    assert s[|line|] == '\n';
    if |mark| <= |line| {
      assert s[..|mark|] == line[..|mark|];
    } else {
      assert mark[|line|] in mark;
    }
  }

  /** A text that begins with this line. */
  lemma BeginsWithLine(line: string, rest: string)
    requires '\n' !in line
    ensures var s := line + "\n" + rest;
            && FirstNewline(s) == |line| && s[..|line|] == line && s[|line| + 1..] == rest
            && (StartsPreamble(s, Shebang) <==> StartsWith(line, "#!"))
            && (StartsPreamble(s, GoConstraints) <==> IsConstraint(line))
  {
    hide FirstNewline, StartsWith;
    FirstNewlineAfter(line, rest);
    MarkOfLine(line, rest, "#!");
    MarkOfLine(line, rest, "//go:build");
    MarkOfLine(line, rest, "// +build");
  }

  /** The first line of a text that has a newline. */
  lemma FirstLine(s: string)
    requires FirstNewline(s) < |s|
    ensures var n := FirstNewline(s); '\n' !in s[..n] && s == s[..n] + "\n" + s[n + 1..]
  {
    hide FirstNewline;
    CutAt(s, FirstNewline(s));
  }

  lemma CutAt(s: string, n: nat)
    requires n < |s| && s[n] == '\n'
    ensures s == s[..n] + "\n" + s[n + 1..]
  {
  }

  lemma {:induction false} DropsSomeNewlines(s: string) returns (n: nat)
    ensures n <= |s| && s == Newlines(n) + DropNewlines(s)
    ensures DropNewlines(s) == "" || DropNewlines(s)[0] != '\n'
  {
    n := 0;
    if s != "" && s[0] == '\n' {
      n := DropsSomeNewlines(s[1..]);
      assert s == [s[0]] + s[1..];
      n := n + 1;
    }
  }

  lemma UnlinesCons(line: string, lines: seq<string>, rest: string)
    ensures Unlines([line] + lines) + rest == line + "\n" + (Unlines(lines) + rest)
  {
    assert ([line] + lines)[1..] == lines;
  }

  lemma {:induction false} AfterSomeConstraints(s: string) returns (lines: seq<string>)
    ensures s == Unlines(lines) + AfterConstraints(s)
    ensures forall l :: l in lines ==> IsConstraint(l)
    ensures StartsPreamble(s, GoConstraints) ==> lines != []
  {
    hide FirstNewline, IsConstraint, StartsPreamble;
    lines := [];
    if StartsPreamble(s, GoConstraints) {
      var n := FirstNewline(s);
      assert n < |s| by { HasFirstLine(s); }
      var line, rest := s[..n], s[n + 1..];
      FirstLine(s);
      BeginsWithLine(line, rest);
      var others := AfterSomeConstraints(rest);
      UnlinesCons(line, others, AfterConstraints(rest));
      lines := [line] + others;
    }
  }

  lemma HasFirstLine(s: string)
    requires StartsPreamble(s, GoConstraints)
    ensures FirstNewline(s) < |s|
  {
  }

  lemma {:induction false} ConstraintsAreConsumed(lines: seq<string>, rest: string)
    requires forall l :: l in lines ==> IsConstraint(l)
    ensures AfterConstraints(Unlines(lines) + "\n" + rest) == "\n" + rest
    ensures lines != [] ==> StartsPreamble(Unlines(lines) + "\n" + rest, GoConstraints)
  {
    hide FirstNewline, StartsWith;
    var s := Unlines(lines) + "\n" + rest;
    if lines == [] {
      assert s == "" + "\n" + rest;
      BeginsWithLine("", rest);
      assert !IsConstraint("") by { EmptyIsNoConstraint(); }
    } else {
      var first, tail := lines[0], Unlines(lines[1..]) + "\n" + rest;
      assert first in lines;
      assert s == first + "\n" + tail;
      BeginsWithLine(first, tail);
      ConstraintsAreConsumed(lines[1..], rest);
    }
  }

  lemma EmptyIsNoConstraint()
    ensures !IsConstraint("")
  {
  }

  /** A match is such a block, and takes all the empty lines it can. */
  lemma ShebangMatchIsPreamble(s: string) returns (block: string)
    requires MatchPreamble(s, Shebang).Some?
    ensures s == block + MatchPreamble(s, Shebang).value && IsPreamble(block, Shebang)
    ensures MatchPreamble(s, Shebang).value == "" || MatchPreamble(s, Shebang).value[0] != '\n'
  {
    hide FirstNewline, StartsWith, DropNewlines;
    var k := FirstNewline(s);
    var line, more := s[..k], s[k + 1..];
    FirstLine(s);
    BeginsWithLine(line, more);
    var n := DropsSomeNewlines(more);
    block := line + "\n" + Newlines(n);
    assert IsShebang(block, line, n);
  }

  lemma ConstraintsMatchIsPreamble(s: string) returns (block: string)
    requires MatchPreamble(s, GoConstraints).Some?
    ensures s == block + MatchPreamble(s, GoConstraints).value && IsPreamble(block, GoConstraints)
  {
    hide FirstNewline, AfterConstraints, StartsPreamble, IsConstraint;
    var lines := AfterSomeConstraints(s);
    block := Unlines(lines) + "\n";
    assert AfterConstraints(s) == "\n" + MatchPreamble(s, GoConstraints).value;
    assert IsConstraintBlock(block, lines);
  }

  lemma ShebangMatches(block: string, line: string, n: nat, rest: string)
    requires IsShebang(block, line, n)
    ensures MatchPreamble(block + rest, Shebang).Some?
    ensures rest == "" || rest[0] != '\n' ==> MatchPreamble(block + rest, Shebang) == Some(rest)
  {
    hide FirstNewline, StartsWith, DropNewlines;
    var more := Newlines(n) + rest;
    assert block + rest == line + "\n" + more;
    BeginsWithLine(line, more);
    if rest == "" || rest[0] != '\n' { NewlinesDrop(n, rest); }
  }

  lemma ConstraintsMatch(block: string, lines: seq<string>, rest: string)
    requires IsConstraintBlock(block, lines)
    ensures MatchPreamble(block + rest, GoConstraints) == Some(rest)
  {
    hide FirstNewline, AfterConstraints, StartsPreamble, IsConstraint, Unlines;
    ConstraintsAreConsumed(lines, rest);
  }

  lemma {:induction false} PreambleMatches(block: string, rest: string, p: Preamble)
    requires IsPreamble(block, p)
    ensures MatchPreamble(block + rest, p).Some?
    ensures p.GoConstraints? || rest == "" || rest[0] != '\n' ==> MatchPreamble(block + rest, p) == Some(rest)
  {
    hide MatchPreamble, IsShebang, IsConstraintBlock;
    match p
    case Shebang =>
      var line, n: nat :| IsShebang(block, line, n);
      ShebangMatches(block, line, n, rest);
    case GoConstraints =>
      var lines :| IsConstraintBlock(block, lines);
      ConstraintsMatch(block, lines, rest);
  }

  lemma {:induction false} NewlinesDrop(n: nat, text: string)
    requires text == "" || text[0] != '\n'
    ensures DropNewlines(Newlines(n) + text) == text
  {
    var s := Newlines(n) + text;
    if n == 0 {
      assert s == text;
    } else {
      NewlinesDrop(n - 1, text);
      assert s[1..] == Newlines(n - 1) + text;
    }
  }

  // ---------- the first match is removed ----------

  predicate LineStart(s: string, i: nat) {
    i <= |s| && (i == 0 || s[i - 1] == '\n')
  }

  /** No such block begins at `i`. */
  ghost predicate NoneAt(s: string, i: nat, p: Preamble) {
    forall j: nat :: i <= j <= |s| ==> !IsPreamble(s[i..j], p)
  }

  lemma NoMatchMeansNone(s: string, p: Preamble)
    requires MatchPreamble(s, p).None?
    ensures NoneAt(s, 0, p)
  {
    hide MatchPreamble, IsPreamble;
    forall j: nat | j <= |s| ensures !IsPreamble(s[0..j], p) {
      assert s[0..j] + s[j..] == s;
      if IsPreamble(s[0..j], p) { PreambleMatches(s[0..j], s[j..], p); }
    }
  }

  /** What is not in the text behind a line is not in the whole either, where lines start. */
  lemma NoneBehind(s: string, n: nat, i: nat, p: Preamble)
    requires n < i <= |s| && NoneAt(s[n + 1..], i - n - 1, p)
    ensures NoneAt(s, i, p)
  {
    hide IsPreamble;
    var tail := s[n + 1..];
    forall j: nat | i <= j <= |s| ensures !IsPreamble(s[i..j], p) {
      assert s[i..j] == tail[i - n - 1..j - n - 1];
    }
  }

  lemma LineStartsBehind(s: string, n: nat, i: nat)
    requires n <= |s| && '\n' !in s[..n] && 0 < i && LineStart(s, i)
    ensures i > n && LineStart(s[n + 1..], i - n - 1)
  {
    assert forall m :: 0 <= m < n ==> s[..n][m] == s[m] && s[m] in s[..n];
  }

  /** No block begins at a line start before `k`. */
  ghost predicate NoneBefore(s: string, k: nat, p: Preamble) {
    forall i: nat :: i < k && LineStart(s, i) ==> NoneAt(s, i, p)
  }

  lemma NoneBeforeBehind(s: string, n: nat, k: nat, p: Preamble)
    requires n < |s| && '\n' !in s[..n] && NoneAt(s, 0, p) && NoneBefore(s[n + 1..], k, p)
    ensures NoneBefore(s, n + 1 + k, p)
  {
    hide NoneAt;
    forall i: nat | i < n + 1 + k && LineStart(s, i) ensures NoneAt(s, i, p) {
      if i > 0 {
        LineStartsBehind(s, n, i);
        NoneBehind(s, n, i, p);
      }
    }
  }

  lemma NoneInLastLine(s: string, k: nat, p: Preamble)
    requires '\n' !in s && NoneAt(s, 0, p)
    ensures NoneBefore(s, k, p)
  {
    hide NoneAt;
    assert forall m :: 0 <= m < |s| ==> s[m] in s;
  }

  /** The text in front of the first block and the text behind it are what remains; without a block, all. */
  lemma {:induction false} StripRemovesTheFirst(s: string, p: Preamble)
    returns (found: bool, pre: string, block: string, post: string)
    ensures found ==> s == pre + block + post && IsPreamble(block, p) && LineStart(s, |pre|) && Strip(s, p) == pre + post
    ensures found && p.Shebang? ==> post == "" || post[0] != '\n'
    ensures !found ==> Strip(s, p) == s
    ensures NoneBefore(s, if found then |pre| else |s| + 1, p)
    decreases |s|
  {
    hide IsPreamble, MatchPreamble, FirstNewline, NoneAt, NoneBefore, LineStart;
    found, pre, block, post := false, "", "", "";
    match MatchPreamble(s, p)
    case Some(rest) =>
      if p.Shebang? { block := ShebangMatchIsPreamble(s); } else { block := ConstraintsMatchIsPreamble(s); }
      found, post := true, rest;
      assert pre + block + post == s;
      NoneBeforeStart(s, p);
    case None =>
      NoMatchMeansNone(s, p);
      var n := FirstNewline(s);
      if n < |s| {
        var tail := s[n + 1..];
        found, pre, block, post := StripRemovesTheFirst(tail, p);
        NoneBeforeBehind(s, n, if found then |pre| else |tail| + 1, p);
        BehindFirstLine(s, n, pre, block, post);
        pre := s[..n + 1] + pre;
      } else {
        assert s[..n] == s;
        NoneInLastLine(s, |s| + 1, p);
      }
  }

  lemma NoneBeforeStart(s: string, p: Preamble)
    ensures NoneBefore(s, 0, p) && LineStart(s, 0)
  {
  }

  /** What splits the text behind the first line splits the whole, and line starts stay line starts. */
  lemma BehindFirstLine(s: string, n: nat, pre: string, block: string, post: string)
    requires n < |s| && s[n] == '\n'
    ensures s == s[..n + 1] + s[n + 1..]
    ensures s[n + 1..] == pre + block + post ==> s == s[..n + 1] + pre + block + post
    ensures s[..n + 1] + (pre + post) == s[..n + 1] + pre + post
    ensures LineStart(s[n + 1..], |pre|) ==> LineStart(s, |s[..n + 1] + pre|)
  {
    assert s == s[..n + 1] + s[n + 1..];
  }

  // ---------- what the check ignores in front of the header ----------

  lemma BlockIsThere(pre: string, block: string, post: string, p: Preamble)
    requires IsPreamble(block, p)
    ensures !NoneAt(pre + block + post, |pre|, p)
  {
    assert (pre + block + post)[|pre|..|pre| + |block|] == block;
  }

  lemma NothingToStrip(s: string, p: Preamble)
    requires NoneBefore(s, |s| + 1, p)
    ensures Strip(s, p) == s
  {
    hide IsPreamble, Strip;
    var found, pre, block, post := StripRemovesTheFirst(s, p);
    if found {
      BlockIsThere(pre, block, post, p);
    }
  }

  lemma FoundAcross(s: string, i: nat, needle: string, c: nat)
    requires At(s, i, needle) && i <= c < i + |needle|
    ensures s[c] in needle
  {
    assert s[c] == s[i..i + |needle|][c - i];
  }

  /** A needle without newlines is found in joined lines exactly when it is found in one of the parts. */
  lemma ContainsByLines(a: string, b: string, needle: string)
    requires needle != "" && '\n' !in needle
    ensures Contains(a + "\n" + b, needle) <==> Contains(a, needle) || Contains(b, needle)
  {
    var s := a + "\n" + b;
    if i: nat :| i <= |a| && At(a, i, needle) {
      assert s[i..i + |needle|] == a[i..i + |needle|];
      assert At(s, i, needle);
    }
    if i: nat :| i <= |b| && At(b, i, needle) {
      assert s[|a| + 1 + i..|a| + 1 + i + |needle|] == b[i..i + |needle|];
      assert At(s, |a| + 1 + i, needle);
    }
    if i: nat :| i <= |s| && At(s, i, needle) {
      if i + |needle| <= |a| {
        assert s[i..i + |needle|] == a[i..i + |needle|];
        assert At(a, i, needle);
      } else if i > |a| {
        assert s[i..i + |needle|] == b[i - |a| - 1..i - |a| - 1 + |needle|];
        assert At(b, i - |a| - 1, needle);
      } else {
        FoundAcross(s, i, needle, |a|);
      }
    }
  }

  lemma PreambleEnds(block: string, p: Preamble)
    requires IsPreamble(block, p)
    ensures block != "" && block[|block| - 1] == '\n'
  {
  }

  lemma PreambleIsStripped(block: string, text: string, p: Preamble)
    requires IsPreamble(block, p) && (p.GoConstraints? || text == "" || text[0] != '\n')
    ensures Strip(block + text, p) == text
  {
    hide MatchPreamble, IsPreamble;
    PreambleMatches(block, text, p);
  }

  /** A shebang line with empty lines in front of a script, or build constraints with an empty line in front of a
      Go file, change nothing in the verdict. */
  lemma PreambleIsNeutral(file: File, refs: map<string, seq<string>>, now: Year, p: Preamble, block: string, text: string)
    requires file.extension in (if p.Shebang? then {"sh", "py"} else {"go", "generatego"})
    requires IsPreamble(block, p) && !Contains(block, "DO NOT EDIT")
    requires NoneBefore(text, |text| + 1, p) && (p.GoConstraints? || text == "" || text[0] != '\n')
    ensures Verdict(file.(text := Some(block + text)), refs, now) == Verdict(file.(text := Some(text)), refs, now)
  {
    hide SplitLines, Strip, Contains, MatchesRef, IsPreamble, NoneBefore;
    NothingToStrip(text, p);
    PreambleIsStripped(block, text, p);
    PreambleEnds(block, p);
    var line := block[..|block| - 1];
    assert block == line + "\n" + "" && block + text == line + "\n" + text;
    ContainsByLines(line, "", "DO NOT EDIT");
    ContainsByLines(line, text, "DO NOT EDIT");
    assert !Contains("", "DO NOT EDIT") by { EmptyContainsNothing("DO NOT EDIT"); }
  }

  lemma EmptyContainsNothing(needle: string)
    requires needle != ""
    ensures !Contains("", needle)
  {
  }
}

/** What the header check means: the header is the template with YEAR stamped by one legal year. */
module Stamp {
  import opened Common
  import opened Text
  import opened Boilerplate

  // ---------- templates ----------

  predicate YearAt(line: string, i: nat, now: Year) {
    i + 4 <= |line| && LegalYear(line[i..i + 4], now)
  }

  ghost predicate NoYear(line: string, now: Year) {
    forall i: nat :: !YearAt(line, i, now)
  }

  /** `ref` has YEAR at one place only, in line `n` between `a` and `b`. */
  ghost predicate IsTemplate(ref: seq<string>, n: nat, a: string, b: string) {
    && n < |ref| && ref[n] == a + "YEAR" + b
    && (forall l, i: nat :: 0 <= l < |ref| && At(ref[l], i, YEAR) ==> l == n && i == |a|)
  }

  /** No legal year begins in front of the stamp. */
  ghost predicate StampComesFirst(a: string, y: string, b: string, now: Year) {
    forall i: nat :: i < |a| ==> !YearAt(a + y + b, i, now)
  }

  /** Stamped with `y`, the template has no legal year in front of the stamp, nor behind it in its line. */
  ghost predicate TakesStamp(ref: seq<string>, n: nat, a: string, y: string, b: string, now: Year)
    requires n < |ref|
  {
    (forall l :: 0 <= l < n ==> NoYear(ref[l], now)) && StampComesFirst(a, y, b, now) && NoYear(b, now)
  }

  function Stamped(ref: seq<string>, n: nat, a: string, b: string, y: string): seq<string>
    requires n < |ref|
  {
    ref[n := a + y + b]
  }

  lemma YearsAreFourDigits(t: string, now: Year)
    requires LegalYear(t, now)
    ensures |t| == 4 && IsDigit(t[0]) && IsDigit(t[1]) && IsDigit(t[2]) && IsDigit(t[3])
  {
  }

  // ---------- substitution ----------

  lemma SliceOfSlice(s: string, i: nat, j: nat, k: nat, l: nat)
    requires i <= j <= |s| && k <= l <= j - i
    ensures s[i..j][k..l] == s[i + k..i + l]
  {
    var part, slice := s[i..j][k..l], s[i + k..i + l];
    assert |part| == |slice|;
    assert forall m :: 0 <= m < |slice| ==> part[m] == slice[m];
  }

  lemma PartHasNoYear(line: string, i: nat, j: nat, now: Year)
    requires i <= j <= |line| && NoYear(line, now)
    ensures NoYear(line[i..j], now)
  {
    hide LegalYear;
    forall k: nat ensures !YearAt(line[i..j], k, now) {
      if k + 4 <= j - i {
        SliceOfSlice(line, i, j, k, k + 4);
        assert !YearAt(line, i + k, now);
      }
    }
  }

  lemma {:induction false} NothingToReplace(line: string, now: Year)
    requires NoYear(line, now)
    ensures SubYears(line, now) == (line, 0)
  {
    hide LegalYear;
    if line != "" {
      assert !YearAt(line, 0, now);
      PartHasNoYear(line, 1, |line|, now);
      assert line[1..|line|] == line[1..];
      NothingToReplace(line[1..], now);
      assert [line[0]] + line[1..] == line;
    }
  }

  lemma {:induction false} YearIsReplaced(line: string, k: nat, now: Year)
    requires YearAt(line, k, now)
    ensures SubYears(line, now).1 > 0
  {
    hide LegalYear;
    if k == 0 {
      assert line[0..4] == line[..4];
    } else if !LegalYear(line[..4], now) {
      assert line[1..][k - 1..k + 3] == line[k..k + 4];
      YearIsReplaced(line[1..], k - 1, now);
    }
  }

  lemma NothingReplaced(line: string, now: Year)
    requires SubYears(line, now).1 == 0
    ensures NoYear(line, now)
  {
    hide LegalYear, SubYears;
    forall k: nat | YearAt(line, k, now) ensures false { YearIsReplaced(line, k, now); }
  }

  lemma NonDigitIsNoYear(t: string, i: nat, now: Year)
    requires |t| == 4 && i < 4 && !IsDigit(t[i])
    ensures !LegalYear(t, now)
  {
  }

  /** No legal year begins in `a` and reaches into the stamp behind it. */
  lemma NoYearStraddles(a: string, rest: string, now: Year)
    requires a != "" && !IsDigit(a[|a| - 1]) && NoYear(a, now)
    ensures !YearAt(a + rest, 0, now)
  {
    hide LegalYear;
    var line := a + rest;
    if |a| >= 4 {
      assert line[0..4] == a[0..4];
      assert !YearAt(a, 0, now);
    } else if |line| >= 4 {
      assert line[0..4][|a| - 1] == a[|a| - 1];
      NonDigitIsNoYear(line[0..4], |a| - 1, now);
    }
  }

  lemma {:induction false} SubAtStamp(y: string, b: string, now: Year)
    requires LegalYear(y, now) && NoYear(b, now)
    ensures SubYears(y + b, now) == (YEAR + b, 1)
  {
    hide LegalYear, NoYear;
    YearsAreFourDigits(y, now);
    assert (y + b)[..4] == y && (y + b)[4..] == b;
    NothingToReplace(b, now);
  }

  lemma SubBesideYears(line: string, now: Year)
    requires line != "" && !YearAt(line, 0, now)
    ensures SubYears(line, now) == ([line[0]] + SubYears(line[1..], now).0, SubYears(line[1..], now).1)
  {
    hide LegalYear;
    if |line| >= 4 { assert line[0..0 + 4] == line[..4]; }
  }

  lemma NonDigitLetsStampComeFirst(a: string, y: string, b: string, now: Year)
    requires NoYear(a, now) && (a == "" || !IsDigit(a[|a| - 1]))
    ensures StampComesFirst(a, y, b, now)
  {
    hide LegalYear, NoYear;
    forall i: nat | i < |a| ensures !YearAt(a + y + b, i, now) {
      PartHasNoYear(a, i, |a|, now);
      NoYearStraddles(a[i..|a|], y + b, now);
      if i + 4 <= |a + y + b| {
        assert (a[i..|a|] + (y + b))[0..4] == (a + y + b)[i..i + 4];
      }
    }
  }

  lemma StampComesFirstInTail(a: string, y: string, b: string, now: Year)
    requires a != "" && StampComesFirst(a, y, b, now)
    ensures StampComesFirst(a[1..], y, b, now)
  {
    hide LegalYear;
    forall i: nat | i < |a[1..]| ensures !YearAt(a[1..] + y + b, i, now) {
      assert !YearAt(a + y + b, i + 1, now);
      if i + 4 <= |a[1..] + y + b| {
        assert (a[1..] + y + b)[i..i + 4] == (a + y + b)[i + 1..i + 5];
      }
    }
  }

  lemma {:induction false} StampIsReplaced(a: string, y: string, b: string, now: Year)
    requires LegalYear(y, now) && StampComesFirst(a, y, b, now) && NoYear(b, now)
    ensures SubYears(a + y + b, now) == (a + YEAR + b, 1)
  {
    hide LegalYear, NoYear, SubYears, YearAt;
    var line := a + y + b;
    if a == "" {
      SubAtStamp(y, b, now);
      assert line == y + b && a + YEAR + b == YEAR + b;
    } else {
      var tail := a[1..];
      StampComesFirstInTail(a, y, b, now);
      StampIsReplaced(tail, y, b, now);
      assert !YearAt(line, 0, now);
      SubBesideYears(line, now);
      assert a == [a[0]] + tail;
      assert line[1..] == tail + y + b;
      assert [line[0]] + (tail + YEAR + b) == a + YEAR + b;
    }
  }

  /** A line in which something was replaced splits at its first legal year. */
  lemma {:induction false} FirstReplaced(line: string, now: Year) returns (p: string, y: string, q: string)
    requires SubYears(line, now).1 > 0
    ensures line == p + y + q && LegalYear(y, now) && StampComesFirst(p, y, q, now)
    ensures SubYears(line, now).0 == p + YEAR + SubYears(q, now).0
  {
    hide LegalYear, StampComesFirst;
    if |line| >= 4 && LegalYear(line[..4], now) {
      p, y, q := "", line[..4], line[4..];
      StampIsFirst(y, q, now);
    } else {
      var tail := line[1..];
      p, y, q := FirstReplaced(tail, now);
      assert [line[0]] + tail == line;
      assert |line| >= 4 ==> line[0..4] == line[..4];
      StampComesFirstBehind(line[0], p, y, q, now);
      p := [line[0]] + p;
      assert p + y + q == line;
    }
  }

  lemma StampIsFirst(y: string, q: string, now: Year)
    ensures StampComesFirst("", y, q, now)
  {
  }

  lemma StampComesFirstBehind(c: char, p: string, y: string, q: string, now: Year)
    requires StampComesFirst(p, y, q, now) && !YearAt([c] + (p + y + q), 0, now)
    ensures StampComesFirst([c] + p, y, q, now)
  {
    hide LegalYear;
    var line, tail := [c] + p + y + q, p + y + q;
    assert line == [c] + tail;
    forall i: nat | i < |p| + 1 ensures !YearAt(line, i, now) {
      if i > 0 {
        assert !YearAt(tail, i - 1, now);
        assert i + 4 <= |line| ==> line[i..i + 4] == tail[i - 1..i + 3];
      }
    }
  }

  /** If the result has YEAR at one place only, one year was replaced, there, and it was the first. */
  lemma OnlyStampsAtYear(line: string, a: string, b: string, now: Year) returns (y: string)
    requires SubYears(line, now).1 > 0 && SubYears(line, now).0 == a + YEAR + b
    requires forall i: nat :: At(a + YEAR + b, i, YEAR) ==> i == |a|
    ensures LegalYear(y, now) && line == a + y + b && StampComesFirst(a, y, b, now) && NoYear(b, now)
  {
    hide LegalYear, SubYears, NoYear, YearAt, StampComesFirst;
    var p, q;
    p, y, q := FirstReplaced(line, now);
    var rest := SubYears(q, now);
    YearIsAt(p, rest.0);
    SameSplit(p, rest.0, a, b);
    if rest.1 > 0 {
      var p', y', q' := FirstReplaced(q, now);
      YearIsAt(p', SubYears(q', now).0);
      YearShifts(p, rest.0, |p'|);
    } else {
      NoYearNoChange(q, now);
      NothingReplaced(q, now);
    }
  }

  /** Substitution turns a stamped line back into the template line exactly if no legal year begins in front
      of the stamp and none is behind it. */
  lemma {:induction false} StampIsReplacedExactly(a: string, y: string, b: string, now: Year)
    requires LegalYear(y, now)
    requires forall i: nat :: At(a + YEAR + b, i, YEAR) ==> i == |a|
    ensures SubYears(a + y + b, now).0 == a + YEAR + b <==> StampComesFirst(a, y, b, now) && NoYear(b, now)
  {
    hide LegalYear, SubYears, NoYear, StampComesFirst;
    var line := a + y + b;
    YearsAreFourDigits(y, now);
    assert line[|a|..|a| + 4] == y;
    if StampComesFirst(a, y, b, now) && NoYear(b, now) {
      StampIsReplaced(a, y, b, now);
    }
    if SubYears(line, now).0 == a + YEAR + b {
      YearIsReplaced(line, |a|, now);
      var y' := OnlyStampsAtYear(line, a, b, now);
      assert (a + y' + b)[|a|..|a| + |y'|] == y';
    }
  }

  lemma YearIsAt(p: string, q: string)
    ensures At(p + YEAR + q, |p|, YEAR)
  {
    assert (p + YEAR + q)[|p|..|p| + 4] == YEAR;
  }

  lemma YearShifts(p: string, q: string, i: nat)
    requires At(q, i, YEAR)
    ensures At(p + YEAR + q, |p| + 4 + i, YEAR)
  {
    assert (p + YEAR + q)[|p| + 4 + i..|p| + 4 + i + 4] == q[i..i + 4];
  }

  lemma SameSplit(p: string, q: string, a: string, b: string)
    requires p + YEAR + q == a + YEAR + b && |p| == |a|
    ensures p == a && q == b
  {
    assert (p + YEAR + q)[..|p|] == p && (a + YEAR + b)[..|a|] == a;
    assert (p + YEAR + q)[|p| + 4..] == q && (a + YEAR + b)[|a| + 4..] == b;
  }

  lemma {:induction false} StampOutFirst(data: seq<string>, n: nat, now: Year)
    requires n < |data| && SubYears(data[n], now).1 > 0
    requires forall l :: 0 <= l < n ==> SubYears(data[l], now).1 == 0
    ensures StampOut(data, now) == data[n := SubYears(data[n], now).0]
  {
    if n > 0 {
      StampOutFirst(data[1..], n - 1, now);
      assert data[n := SubYears(data[n], now).0] == [data[0]] + data[1..][n - 1 := SubYears(data[n], now).0];
    }
  }

  lemma {:induction false} StampOutHit(data: seq<string>, now: Year) returns (n: nat)
    ensures n <= |data| && forall l :: 0 <= l < n ==> SubYears(data[l], now).1 == 0
    ensures n < |data| ==> SubYears(data[n], now).1 > 0
    ensures n == |data| ==> StampOut(data, now) == data
  {
    if data == [] || SubYears(data[0], now).1 > 0 {
      n := 0;
    } else {
      n := StampOutHit(data[1..], now);
      n := n + 1;
      assert [data[0]] + data[1..] == data;
      forall l | 0 <= l < n ensures SubYears(data[l], now).1 == 0 {
        if l > 0 { assert data[l] == data[1..][l - 1]; }
      }
    }
  }

  // ---------- the meaning of the check ----------

  lemma NoDigitInYear(line: string, i: nat, c: nat)
    requires At(line, i, YEAR) && i <= c < i + 4
    ensures !IsDigit(line[c])
  {
    assert line[c] == line[i..i + 4][c - i];
  }

  lemma YearOutsideStamp(a: string, y: string, b: string, i: nat)
    requires |y| == 4 && At(a + y + b, i, YEAR) && (i + 4 <= |a| || |a| + 4 <= i)
    ensures At(a + YEAR + b, i, YEAR)
  {
    assert (a + YEAR + b)[i..i + 4] == (a + y + b)[i..i + 4];
  }

  lemma StampHasNoYear(a: string, y: string, b: string, now: Year)
    requires LegalYear(y, now)
    requires forall i: nat :: At(a + YEAR + b, i, YEAR) ==> i == |a|
    ensures !Contains(a + y + b, YEAR)
  {
    hide LegalYear;
    YearsAreFourDigits(y, now);
    var line := a + y + b;
    if i: nat :| i <= |line| && At(line, i, YEAR) {
      if i + 4 <= |a| || |a| + 4 <= i {
        YearOutsideStamp(a, y, b, i);
      } else {
        NoDigitInYear(line, i, if i <= |a| then |a| else i);
      }
    }
  }

  lemma {:induction false} StampedPasses(ref: seq<string>, n: nat, a: string, b: string, y: string, now: Year)
    requires IsTemplate(ref, n, a, b) && LegalYear(y, now) && TakesStamp(ref, n, a, y, b, now)
    ensures StampOut(Stamped(ref, n, a, b, y), now) == ref
    ensures forall d :: d in Stamped(ref, n, a, b, y) ==> !Contains(d, YEAR)
  {
    hide LegalYear, SubYears, NoYear, StampComesFirst;
    var data := Stamped(ref, n, a, b, y);
    forall i: nat | At(a + YEAR + b, i, YEAR) ensures i == |a| { assert At(ref[n], i, YEAR); }
    StampHasNoYear(a, y, b, now);
    forall l | 0 <= l < |data| ensures !Contains(data[l], YEAR) {
      if l != n { assert data[l] == ref[l]; }
    }
    forall l | 0 <= l < n ensures SubYears(data[l], now).1 == 0 { NothingToReplace(ref[l], now); }
    StampIsReplaced(a, y, b, now);
    StampOutFirst(data, n, now);
    assert data[n := ref[n]] == ref;
  }

  lemma PassingIsStamped(ref: seq<string>, n: nat, a: string, b: string, data: seq<string>, now: Year)
    returns (y: string)
    requires IsTemplate(ref, n, a, b) && StampOut(data, now) == ref
    requires forall d :: d in data ==> !Contains(d, YEAR)
    ensures LegalYear(y, now) && data == Stamped(ref, n, a, b, y) && TakesStamp(ref, n, a, y, b, now)
  {
    hide LegalYear, NoYear, StampComesFirst, SubYears;
    var h := StampOutHit(data, now);
    YearIsAt(a, b);
    assert Contains(ref[n], YEAR);
    if h == |data| {
      assert false;
    }
    StampOutFirst(data, h, now);
    var p, y', q := FirstReplaced(data[h], now);
    YearIsAt(p, SubYears(q, now).0);
    assert At(ref[h], |p|, YEAR);
    forall i: nat | At(a + YEAR + b, i, YEAR) ensures i == |a| { assert At(ref[n], i, YEAR); }
    y := OnlyStampsAtYear(data[h], a, b, now);
    forall l | 0 <= l < n ensures NoYear(ref[l], now) {
      assert data[l] == ref[l];
      NothingReplaced(data[l], now);
    }
    assert data == ref[n := data[n]];
  }

  lemma PassesIffStamped(lines: seq<string>, ref: seq<string>, n: nat, a: string, b: string, now: Year)
    requires IsTemplate(ref, n, a, b)
    ensures MatchesRef(lines, ref, false, now) <==>
              && |ref| <= |lines|
              && exists y :: LegalYear(y, now) && TakesStamp(ref, n, a, y, b, now) && lines[..|ref|] == Stamped(ref, n, a, b, y)
  {
    hide LegalYear, NoYear, StampComesFirst, StampOut;
    if |ref| <= |lines| {
      var data := lines[..|ref|];
      if MatchesRef(lines, ref, false, now) {
        var y := PassingIsStamped(ref, n, a, b, data, now);
      }
      if y :| LegalYear(y, now) && TakesStamp(ref, n, a, y, b, now) && data == Stamped(ref, n, a, b, y) {
        StampedPasses(ref, n, a, b, y, now);
      }
    }
  }

  /** A file that is not generated passes exactly when the first lines of its stripped text are the template
      with YEAR replaced by one year from 2014 to now that the template takes. */
  lemma FilePassesIffStamped(file: File, refs: map<string, seq<string>>, n: nat, a: string, b: string, now: Year)
    requires file.text.Some? && !IsGenerated(file.name, file.text.value)
    requires RefKey(file, false) in refs && IsTemplate(refs[RefKey(file, false)], n, a, b)
    ensures var ref, lines := refs[RefKey(file, false)], SplitLines(Body(file, file.text.value));
            Verdict(file, refs, now) ==
            Ok(&& |ref| <= |lines|
               && exists y :: LegalYear(y, now) && TakesStamp(ref, n, a, y, b, now) && lines[..|ref|] == Stamped(ref, n, a, b, y))
  {
    hide MatchesRef, IsTemplate, SplitLines, LegalYear, TakesStamp;
    PassesIffStamped(SplitLines(Body(file, file.text.value)), refs[RefKey(file, false)], n, a, b, now);
  }

  /** A template without legal years, whose YEAR does not stand behind a digit, takes every legal year. */
  lemma CleanTemplatesTakeAllStamps(ref: seq<string>, n: nat, a: string, y: string, b: string, now: Year)
    requires IsTemplate(ref, n, a, b) && forall l :: 0 <= l < |ref| ==> NoYear(ref[l], now)
    requires a == "" || !IsDigit(a[|a| - 1])
    ensures TakesStamp(ref, n, a, y, b, now)
  {
    hide NoYear, StampComesFirst;
    PartHasNoYear(ref[n], 0, |a|, now);
    PartHasNoYear(ref[n], |a| + 4, |ref[n]|, now);
    assert ref[n][0..|a|] == a && ref[n][|a| + 4..|ref[n]|] == b;
    NonDigitLetsStampComeFirst(a, y, b, now);
  }

  /** Behind a digit it depends: "20YEAR" does not take 2014, which then reads as the year 2020, and "9YEAR"
      does. */
  lemma DigitBeforeStamp()
    ensures LegalYear("2014", 2024)
    ensures !TakesStamp(["20YEAR"], 0, "20", "2014", "", 2024)
    ensures TakesStamp(["9YEAR"], 0, "9", "2014", "", 2024)
  {
    assert YearText(2014) == "2014" && YearText(2020) == "2020";
    var line := "20" + "2014" + "";
    assert line[0..4] == "2020";
    assert YearAt(line, 0, 2024);
    assert ("9" + "2014" + "")[0..4] == "9201";
    assert ("9" + "2014" + "")[0..4][0] == '9';
  }
}

/** Extended resources: the defaults overlay (controllers/util.go), the flag printer
    (controllers/kubemarkmachine_controller.go) and the parser that inverts it
    (controllers/kubemarkmachine_controller_test.go). */
module ExtendedResources {
  import opened Common
  import opened Text

  /** A quantity, known by the canonical text that its String() method prints. */
  datatype Quantity = Quantity(text: string)

  type ResourceList = map<string, Quantity>

  const CPU := "cpu"
  const MEMORY := "memory"
  const DEFAULTS: ResourceList := map[CPU := Quantity("1"), MEMORY := Quantity("4G")]
  const FLAG_PREFIX := "--extended-resources="

  // ---------- overlay ----------

  /** Defaults for cpu and memory, overridden by whatever the options name. */
  function Overlay(options: Option<ResourceList>): ResourceList {
    match options
    case None => DEFAULTS
    case Some(m) => DEFAULTS + m
  }

  method GetKubemarkExtendedResources(options: Option<ResourceList>) returns (resources: ResourceList)
    ensures resources == Overlay(options)
    ensures resources.Keys == {"cpu", "memory"} + (if options.Some? then options.value.Keys else {})
    ensures options.Some? ==> forall k :: k in options.value ==> resources[k] == options.value[k]
    ensures options.None? || "cpu" !in options.value ==> resources["cpu"] == Quantity("1")
    ensures options.None? || "memory" !in options.value ==> resources["memory"] == Quantity("4G")
  {
    resources := map[CPU := Quantity("1"), MEMORY := Quantity("4G")];
    if options.Some? {
      var remaining := options.value.Keys;
      while remaining != {}
        invariant remaining <= options.value.Keys
        invariant resources.Keys == {CPU, MEMORY} + (options.value.Keys - remaining)
        invariant forall k :: k in options.value && k !in remaining ==> resources[k] == options.value[k]
        invariant forall k :: k in DEFAULTS && (k !in options.value || k in remaining) ==> resources[k] == DEFAULTS[k]
        decreases |remaining|
      {
        // the iteration order of a map is unspecified
        var k :| k in remaining;
        resources := resources[k := options.value[k]];
        remaining := remaining - {k};
      }
    }
  }

  /** Feeding the overlay its own output changes nothing. */
  lemma OverlayIdempotent(options: Option<ResourceList>)
    ensures Overlay(Some(Overlay(options))) == Overlay(options)
  {
    match options
    case None =>
    case Some(m) => assert DEFAULTS + (DEFAULTS + m) == DEFAULTS + m;
  }

  // ---------- printer ----------

  /** `order` lists every key of `m` exactly once: one possible iteration over the map. */
  ghost predicate IsOrder(order: seq<string>, m: ResourceList) {
    && (forall i, j :: 0 <= i < j < |order| ==> order[i] != order[j])
    && (forall k :: k in order <==> k in m)
  }

  lemma {:induction false} SomeOrder(m: ResourceList) returns (order: seq<string>)
    ensures IsOrder(order, m)
    decreases |m|
  {
    if m == map[] {
      order := [];
    } else {
      var k :| k in m;
      assert (m - {k}).Keys == m.Keys - {k};
      var rest := SomeOrder(m - {k});
      order := [k] + rest;
    }
  }

  function Entry(m: ResourceList, k: string): string
    requires k in m
  {
    k + "=" + m[k].text
  }

  function Entries(order: seq<string>, m: ResourceList): (r: seq<string>)
    requires forall k :: k in order ==> k in m
    ensures |r| == |order|
  {
    if order == [] then [] else [Entry(m, order[0])] + Entries(order[1..], m)
  }

  function Flag(order: seq<string>, m: ResourceList): string
    requires forall k :: k in order ==> k in m
  {
    FLAG_PREFIX + Join(Entries(order, m), ',')
  }

  lemma {:induction false} EntriesAppend(order: seq<string>, k: string, m: ResourceList)
    requires forall x :: x in order ==> x in m
    requires k in m
    ensures Entries(order + [k], m) == Entries(order, m) + [Entry(m, k)]
  {
    if order != [] {
      EntriesAppend(order[1..], k, m);
      assert (order + [k])[1..] == order[1..] + [k];
    }
  }

  /** The flag grows entry by entry. */
  lemma FlagIsWritten(order: seq<string>, k: string, m: ResourceList)
    requires k in m && forall x :: x in order ==> x in m
    ensures Flag([k], m) == "--extended-resources=" + k + "=" + m[k].text
    ensures order != [] ==> Flag(order + [k], m) == Flag(order, m) + "," + k + "=" + m[k].text
  {
    assert Entries([k], m) == [Entry(m, k)];
    EntriesAppend(order, k, m);
    if order != [] {
      JoinAppend(Entries(order, m), Entry(m, k), ',');
    }
  }

  /** `order` is the order in which the runtime happens to range over the map. */
  method GetKubemarkExtendedResourcesFlag(resources: Option<ResourceList>, order: seq<string>) returns (flag: string)
    requires resources.Some? ==> IsOrder(order, resources.value)
    ensures resources.None? ==> flag == ""
    ensures resources.Some? ==> flag == Flag(order, resources.value)
    ensures resources.Some? && resources.value != map[] && Clean(resources.value) ==>
              ParseFlag(flag) == Ok(Some(Texts(resources.value)))
  {
    if resources.None? {
      return "";
    }
    var m := resources.value;
    var entries: seq<string> := [];
    for i := 0 to |order|
      invariant forall k :: k in order[..i] ==> k in m
      invariant entries == Entries(order[..i], m)
    {
      var k := order[i];
      assert order[..i + 1] == order[..i] + [k];
      EntriesAppend(order[..i], k, m);
      entries := entries + [k + "=" + m[k].text];
    }
    assert order[..|order|] == order;
    flag := FLAG_PREFIX + Join(entries, ',');
    RoundTripsExactlyWhenClean(order, m);
  }

  // ---------- parser ----------

  datatype ParseError = MissingPrefix(flags: string) | BadPair(piece: string)

  /** The `key=value` pieces taken in turn, later ones overriding earlier ones. */
  function ParsePieces(pieces: seq<string>, acc: map<string, string>): Result<map<string, string>, ParseError> {
    if pieces == [] then Ok(acc)
    else
      var pair := Split(pieces[0], '=');
      if |pair| != 2 then Err(BadPair(pieces[0]))
      else ParsePieces(pieces[1..], acc[pair[0] := pair[1]])
  }

  /** nil for the empty flag, an error without the prefix, otherwise the parsed pairs. */
  function ParseFlag(flags: string): Result<Option<map<string, string>>, ParseError> {
    if flags == "" then Ok(None)
    else if !StartsWith(flags, FLAG_PREFIX) then Err(MissingPrefix(flags))
    else
      match ParsePieces(Split(flags[|FLAG_PREFIX|..], ','), map[])
      case Ok(m) => Ok(Some(m))
      case Err(e) => Err(e)
  }

  method MapFromExtendedResourceFlags(flags: string)
    returns (result: Result<Option<map<string, string>>, ParseError>)
    ensures result == ParseFlag(flags)
    ensures result.Ok? <==> flags == "" || WellFormed(flags)
  {
    ParsesExactlyWellFormed(flags);
    if flags == "" {
      return Ok(None);
    }
    if !StartsWith(flags, FLAG_PREFIX) {
      return Err(MissingPrefix(flags));
    }
    var ret: map<string, string> := map[];
    var resources := Split(flags[|FLAG_PREFIX|..], ',');
    for i := 0 to |resources|
      invariant ParsePieces(resources, map[]) == ParsePieces(resources[i..], ret)
    {
      var rsplit := Split(resources[i], '=');
      if |rsplit| != 2 {
        return Err(BadPair(resources[i]));
      }
      ret := ret[rsplit[0] := rsplit[1]];
    }
    return Ok(Some(ret));
  }

  // ---------- what the parser accepts ----------

  /** The prefix followed by comma-separated pieces with exactly one '=' each. */
  ghost predicate WellFormed(flags: string) {
    && StartsWith(flags, FLAG_PREFIX)
    && forall p :: p in Split(flags[|FLAG_PREFIX|..], ',') ==> CountChar(p, '=') == 1
  }

  lemma {:induction false} PiecesParseIffOneEquals(pieces: seq<string>, acc: map<string, string>)
    ensures ParsePieces(pieces, acc).Ok? <==> forall p :: p in pieces ==> CountChar(p, '=') == 1
  {
    if pieces != [] {
      var pair := Split(pieces[0], '=');
      SplitCountsSeparators(pieces[0], '=');
      if |pair| == 2 {
        PiecesParseIffOneEquals(pieces[1..], acc[pair[0] := pair[1]]);
        assert pieces == [pieces[0]] + pieces[1..];
      } else {
        assert pieces[0] in pieces;
      }
    }
  }

  lemma ParsesExactlyWellFormed(flags: string)
    ensures ParseFlag(flags).Ok? <==> flags == "" || WellFormed(flags)
  {
    if StartsWith(flags, FLAG_PREFIX) {
      PiecesParseIffOneEquals(Split(flags[|FLAG_PREFIX|..], ','), map[]);
    }
  }

  /** What stands before and behind the only '=' of a piece. */
  ghost predicate IsPair(piece: string, key: string, value: string) {
    piece == key + "=" + value && '=' !in key && '=' !in value
  }

  lemma PairOf(piece: string, key: string, value: string)
    requires IsPair(piece, key, value)
    ensures Split(piece, '=') == [key, value]
  {
    SplitAtSeparator(key, value, '=');
    SplitOfClean(value, '=');
  }

  /** No piece from the `n`-th on is a pair with that key. */
  ghost predicate NoPairFrom(pieces: seq<string>, n: nat, key: string) {
    forall i, v :: n <= i < |pieces| ==> !IsPair(pieces[i], key, v)
  }

  lemma {:induction false} LastPieceDecides(pieces: seq<string>, acc: map<string, string>, n: nat, key: string, value: string)
    requires ParsePieces(pieces, acc).Ok? && n < |pieces| && IsPair(pieces[n], key, value) && NoPairFrom(pieces, n + 1, key)
    ensures key in ParsePieces(pieces, acc).value && ParsePieces(pieces, acc).value[key] == value
  {
    var pair := Split(pieces[0], '=');
    var acc' := acc[pair[0] := pair[1]];
    if n > 0 {
      LastPieceDecides(pieces[1..], acc', n - 1, key, value);
    } else {
      PairOf(pieces[0], key, value);
      OtherKeysStay(pieces[1..], acc', key);
    }
  }

  lemma {:induction false} OtherKeysStay(pieces: seq<string>, acc: map<string, string>, key: string)
    requires ParsePieces(pieces, acc).Ok? && NoPairFrom(pieces, 0, key)
    ensures var m := ParsePieces(pieces, acc).value;
            (key in m <==> key in acc) && (key in acc ==> m[key] == acc[key])
  {
    if pieces != [] {
      var pair := Split(pieces[0], '=');
      SplitPairs(pieces[0]);
      assert pair[0] != key;
      OtherKeysStay(pieces[1..], acc[pair[0] := pair[1]], key);
    }
  }

  lemma SplitPairs(piece: string)
    requires |Split(piece, '=')| == 2
    ensures IsPair(piece, Split(piece, '=')[0], Split(piece, '=')[1])
  {
    var pair := Split(piece, '=');
    JoinUndoesSplit(piece, '=');
    assert Join(pair[1..], '=') == pair[1];
    SplitPiecesAreClean(piece, '=');
    assert pair[0] in pair && pair[1] in pair;
  }

  predicate IsFirstBad(pieces: seq<string>, n: nat) {
    && n < |pieces| && CountChar(pieces[n], '=') != 1
    && forall i :: 0 <= i < n ==> CountChar(pieces[i], '=') == 1
  }

  lemma {:induction false} FirstBadPiece(pieces: seq<string>, acc: map<string, string>) returns (n: nat)
    requires ParsePieces(pieces, acc).Err?
    ensures IsFirstBad(pieces, n) && ParsePieces(pieces, acc) == Err(BadPair(pieces[n]))
  {
    var pair := Split(pieces[0], '=');
    SplitCountsSeparators(pieces[0], '=');
    if |pair| != 2 {
      n := 0;
    } else {
      n := FirstBadPiece(pieces[1..], acc[pair[0] := pair[1]]);
      n := n + 1;
    }
  }

  /** What the parser makes of any text: nothing of the empty one; an error without the prefix; else an error for
      the first comma-separated piece that is no pair, and otherwise the map in which the last pair of each key
      decides. */
  lemma ParserExactly(flags: string, pieces: seq<string>)
    requires StartsWith(flags, "--extended-resources=") ==> pieces == Split(flags[|"--extended-resources="|..], ',')
    ensures ParseFlag(flags) == Ok(None) <==> flags == ""
    ensures ParseFlag(flags) == Err(MissingPrefix(flags)) <==> flags != "" && !StartsWith(flags, "--extended-resources=")
    ensures StartsWith(flags, "--extended-resources=") ==>
              forall n: nat :: IsFirstBad(pieces, n) ==> ParseFlag(flags) == Err(BadPair(pieces[n]))
    ensures StartsWith(flags, "--extended-resources=") && (forall p :: p in pieces ==> CountChar(p, '=') == 1) ==>
              && ParseFlag(flags).Ok? && ParseFlag(flags).value.Some?
              && var m := ParseFlag(flags).value.value;
                 forall key :: (NoPairFrom(pieces, 0, key) ==> key !in m) &&
                   forall n, value :: 0 <= n < |pieces| && IsPair(pieces[n], key, value) && NoPairFrom(pieces, n + 1, key) ==>
                                        key in m && m[key] == value
  {
    if StartsWith(flags, "--extended-resources=") {
      PiecesParseIffOneEquals(pieces, map[]);
      if ParsePieces(pieces, map[]).Err? {
        var n := FirstBadPiece(pieces, map[]);
      } else {
        var m := ParsePieces(pieces, map[]).value;
        assert forall n :: 0 <= n < |pieces| ==> CountChar(pieces[n], '=') == 1;
        forall key | NoPairFrom(pieces, 0, key) ensures key !in m { OtherKeysStay(pieces, map[], key); }
        forall key, n, value | 0 <= n < |pieces| && IsPair(pieces[n], key, value) && NoPairFrom(pieces, n + 1, key)
          ensures key in m && m[key] == value
        {
          LastPieceDecides(pieces, map[], n, key, value);
        }
      }
    }
  }

  // ---------- round trip ----------

  predicate CleanText(s: string) {
    ',' !in s && '=' !in s
  }

  /** No name and no printed quantity contains a separator. */
  ghost predicate Clean(m: ResourceList) {
    forall k :: k in m ==> CleanText(k) && CleanText(m[k].text)
  }

  function Texts(m: ResourceList): map<string, string> {
    map k | k in m :: m[k].text
  }

  lemma SplitEntry(m: ResourceList, k: string)
    requires k in m && Clean(m)
    ensures Split(Entry(m, k), '=') == [k, m[k].text]
  {
    SplitAtSeparator(k, m[k].text, '=');
    SplitOfClean(m[k].text, '=');
  }

  lemma {:induction false} ParseEntries(order: seq<string>, m: ResourceList, acc: map<string, string>)
    requires forall k :: k in order ==> k in m
    requires Clean(m)
    ensures ParsePieces(Entries(order, m), acc) == Ok(Collect(order, m, acc))
  {
    if order != [] {
      SplitEntry(m, order[0]);
      var entries := Entries(order, m);
      assert entries[0] == Entry(m, order[0]) && entries[1..] == Entries(order[1..], m);
      ParseEntries(order[1..], m, acc[order[0] := m[order[0]].text]);
    }
  }

  ghost function Collect(order: seq<string>, m: ResourceList, acc: map<string, string>): map<string, string>
    requires forall k :: k in order ==> k in m
  {
    if order == [] then acc else Collect(order[1..], m, acc[order[0] := m[order[0]].text])
  }

  lemma {:induction false} CollectedTexts(order: seq<string>, m: ResourceList, acc: map<string, string>)
    requires forall k :: k in order ==> k in m
    ensures forall k :: k in Collect(order, m, acc) <==> k in acc || k in order
    ensures forall k :: k in Collect(order, m, acc) ==>
              Collect(order, m, acc)[k] == if k in order then m[k].text else acc[k]
  {
    if order != [] {
      CollectedTexts(order[1..], m, acc[order[0] := m[order[0]].text]);
      assert order == [order[0]] + order[1..];
    }
  }

  lemma {:induction false} EntriesHaveNoComma(order: seq<string>, m: ResourceList)
    requires forall k :: k in order ==> k in m
    requires Clean(m)
    ensures forall e :: e in Entries(order, m) ==> ',' !in e
  {
    if order != [] {
      EntriesHaveNoComma(order[1..], m);
      assert ',' !in Entry(m, order[0]);
    }
  }

  lemma {:induction false} ParsedTextIsClean(pieces: seq<string>, acc: map<string, string>)
    requires forall p :: p in pieces ==> ',' !in p
    requires forall k :: k in acc ==> CleanText(k) && CleanText(acc[k])
    requires ParsePieces(pieces, acc).Ok?
    ensures forall k :: k in ParsePieces(pieces, acc).value ==> CleanText(k) && CleanText(ParsePieces(pieces, acc).value[k])
  {
    if pieces != [] {
      var p := pieces[0];
      var pair := Split(p, '=');
      SplitPiecesAreClean(p, '=');
      assert pair[0] in pair && pair[1] in pair;
      PairIsPartOf(p);
      ParsedTextIsClean(pieces[1..], acc[pair[0] := pair[1]]);
    }
  }

  lemma PairIsPartOf(p: string)
    requires |Split(p, '=')| == 2
    ensures forall c :: c in Split(p, '=')[0] || c in Split(p, '=')[1] ==> c in p
  {
    var pair := Split(p, '=');
    JoinUndoesSplit(p, '=');
    assert Join(pair[1..], '=') == pair[1];
    assert p == pair[0] + ['='] + pair[1];
  }

  lemma CleanRoundTrips(order: seq<string>, m: ResourceList)
    requires IsOrder(order, m) && m != map[] && Clean(m)
    ensures ParseFlag(Flag(order, m)) == Ok(Some(Texts(m)))
  {
    hide Split, Join, Entries, ParsePieces, Collect;
    assert order != [] by { var k :| k in m; assert k in order; }
    assert Flag(order, m)[|FLAG_PREFIX|..] == Join(Entries(order, m), ',');
    EntriesHaveNoComma(order, m);
    SplitUndoesJoin(Entries(order, m), ',');
    ParseEntries(order, m, map[]);
    CollectedTexts(order, m, map[]);
    assert Collect(order, m, map[]) == Texts(m);
  }

  lemma OnlyCleanRoundTrips(order: seq<string>, m: ResourceList)
    requires IsOrder(order, m) && ParseFlag(Flag(order, m)) == Ok(Some(Texts(m)))
    ensures Clean(m)
  {
    hide Split, Join, Entries, ParsePieces;
    var body := Join(Entries(order, m), ',');
    assert Flag(order, m)[|FLAG_PREFIX|..] == body;
    SplitPiecesAreClean(body, ',');
    ParsedTextIsClean(Split(body, ','), map[]);
    assert forall k :: k in m ==> k in Texts(m) && Texts(m)[k] == m[k].text;
  }

  /** Printing then parsing returns the map exactly when the map is non-empty and clean, for every
      iteration order. */
  lemma RoundTripsExactlyWhenClean(order: seq<string>, m: ResourceList)
    requires IsOrder(order, m)
    ensures ParseFlag(Flag(order, m)) == Ok(Some(Texts(m))) <==> m != map[] && Clean(m)
  {
    hide Flag, ParseFlag, Clean, Texts;
    if m == map[] {
      EmptyMapIsRejected(order, m);
    } else if Clean(m) {
      CleanRoundTrips(order, m);
    } else if ParseFlag(Flag(order, m)) == Ok(Some(Texts(m))) {
      OnlyCleanRoundTrips(order, m);
    }
  }

  lemma ListedKeyIsInMap(order: seq<string>, m: ResourceList)
    requires IsOrder(order, m) && order != []
    ensures m != map[]
  {
    assert order[0] in m;
  }

  /** An empty, non-nil list prints a bare prefix, and the parser rejects that. */
  lemma EmptyMapIsRejected(order: seq<string>, m: ResourceList)
    requires IsOrder(order, m)
    requires m == map[]
    ensures ParseFlag(Flag(order, m)) == Err(BadPair(""))
  {
    if order != [] {
      ListedKeyIsInMap(order, m);
    }
    assert Flag(order, m)[|FLAG_PREFIX|..] == "";
    assert Split("", ',') == [""];
    assert Split("", '=') == [""];
  }

  lemma OverlayIsCleanExactly(options: Option<ResourceList>)
    ensures Clean(Overlay(options)) <==> (options.Some? ==> Clean(options.value))
  {
    assert forall k :: k in DEFAULTS ==> CleanText(k) && CleanText(DEFAULTS[k].text);
    if options.Some? {
      var m, all := options.value, Overlay(options);
      assert forall k :: k in m ==> k in all && all[k] == m[k];
      assert forall k :: k in all && k !in m ==> k in DEFAULTS && all[k] == DEFAULTS[k];
    }
  }

  /** With the defaults laid under it, an option list round-trips exactly if it is clean; nil always does. */
  lemma OverlayRoundTripsExactlyWhenClean(order: seq<string>, options: Option<ResourceList>)
    requires IsOrder(order, Overlay(options))
    ensures ParseFlag(Flag(order, Overlay(options))) == Ok(Some(Texts(Overlay(options)))) <==>
              (options.Some? ==> Clean(options.value))
  {
    hide ParseFlag, Flag, Texts, Clean;
    assert CPU in Overlay(options);
    OverlayIsCleanExactly(options);
    RoundTripsExactlyWhenClean(order, Overlay(options));
  }

  /** Two clean, non-empty lists that print to the same flag under some orders are the same list. */
  lemma PrinterIsInjective(m1: ResourceList, order1: seq<string>, m2: ResourceList, order2: seq<string>)
    requires IsOrder(order1, m1) && IsOrder(order2, m2)
    requires m1 != map[] && m2 != map[] && Clean(m1) && Clean(m2)
    requires Flag(order1, m1) == Flag(order2, m2)
    ensures m1 == m2
  {
    RoundTripsExactlyWhenClean(order1, m1);
    RoundTripsExactlyWhenClean(order2, m2);
    assert Texts(m1) == Texts(m2);
    forall k | k in m1 || k in m2
      ensures k in m1 && k in m2 && m1[k] == m2[k]
    {
      assert k in Texts(m1) && k in Texts(m2);
      assert Texts(m1)[k] == m1[k].text && Texts(m2)[k] == m2[k].text;
    }
  }
}

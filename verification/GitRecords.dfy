// parse_changes and parse_numstat in export-forkverse.py, against git's NUL-separated output.
module GitRecords {
  import opened Prelude
  import opened Utf8

  datatype ParseError = IncompleteChange | IncompleteRename | UnsupportedStatus | IncompleteNumstat
                      | IncompleteRenameNumstat | NotUtf8 | NotANumber

  datatype Result<+T> = Ok(value: T) | Err(error: ParseError)

  const NUL: Byte := 0
  const TAB: Byte := 9
  const DASH: Byte := 0x2D

  // ----- Splitting

  function IndexOf(s: Bytes, b: Byte): (i: nat)
    ensures i <= |s| && (i < |s| ==> s[i] == b) && forall k :: 0 <= k < i ==> s[k] != b
  {
    if s == [] || s[0] == b then 0 else 1 + IndexOf(s[1..], b)
  }

  // Python's bytes.split: at most limit cuts.
  function SplitAt(s: Bytes, b: Byte, limit: nat): (r: seq<Bytes>)
    ensures 1 <= |r| <= limit + 1
    decreases limit
  {
    var i := IndexOf(s, b);
    if limit == 0 || i == |s| then [s] else [s[..i]] + SplitAt(s[i + 1..], b, limit - 1)
  }

  function Split(s: Bytes): seq<Bytes> { SplitAt(s, NUL, |s|) }

  // Tokens as git writes them: each followed by NUL.
  function Joined(tokens: seq<Bytes>): Bytes {
    if tokens == [] then [] else tokens[0] + [0] + Joined(tokens[1..])
  }

  lemma IndexOfConcat(t: Bytes, b: Byte, rest: Bytes)
    requires b !in t
    ensures IndexOf(t + [b] + rest, b) == |t|
  {
    var s := t + [b] + rest;
    assert forall k :: 0 <= k < |t| ==> s[k] == t[k] && t[k] in t;
    assert s[|t|] == b;
  }

  lemma SplitFront(t: Bytes, b: Byte, rest: Bytes, limit: nat)
    requires b !in t && limit > 0
    ensures SplitAt(t + [b] + rest, b, limit) == [t] + SplitAt(rest, b, limit - 1)
  {
    var s := t + [b] + rest;
    IndexOfConcat(t, b, rest);
    assert s[..|t|] == t && s[|t| + 1..] == rest;
  }

  lemma {:induction false} SplitJoined(tokens: seq<Bytes>, limit: nat)
    requires (forall k :: 0 <= k < |tokens| ==> NUL !in tokens[k]) && limit >= |tokens|
    ensures SplitAt(Joined(tokens), NUL, limit) == tokens + [[]]
  {
    if tokens != [] {
      SplitFront(tokens[0], NUL, Joined(tokens[1..]), limit);
      assert forall k :: 0 <= k < |tokens[1..]| ==> NUL !in tokens[1..][k];
      SplitJoined(tokens[1..], limit - 1);
      hide SplitAt;
    }
  }

  lemma {:induction false} JoinedLength(tokens: seq<Bytes>)
    ensures |Joined(tokens)| >= |tokens|
  {
    if tokens != [] { JoinedLength(tokens[1..]); }
  }

  // Splitting git's output returns its tokens and a final empty one.
  lemma SplitOfJoined(tokens: seq<Bytes>)
    requires forall k :: 0 <= k < |tokens| ==> NUL !in tokens[k]
    ensures Split(Joined(tokens)) == tokens + [[]]
  {
    JoinedLength(tokens);
    SplitJoined(tokens, |Joined(tokens)|);
  }

  // ----- parse_changes

  datatype ChangeKind = Added | Deleted | Modified | Renamed

  datatype Change = Change(path: Bytes, kind: ChangeKind, previous: Option<Bytes>)

  const LETTER_A: Byte := 0x41
  const LETTER_C: Byte := 0x43
  const LETTER_D: Byte := 0x44
  const LETTER_M: Byte := 0x4D
  const LETTER_R: Byte := 0x52
  const LETTER_T: Byte := 0x54

  function PlainKind(letter: Byte): Option<ChangeKind> {
    if letter == LETTER_A then Some(Added)
    else if letter == LETTER_D then Some(Deleted)
    else if letter == LETTER_M || letter == LETTER_T then Some(Modified)
    else None
  }

  // One record at the front of the tokens: the change and how many tokens it took.
  function ParseChange(tokens: seq<Bytes>): (r: Result<(Change, nat)>)
    requires tokens != [] && tokens[0] != []
    ensures r.Ok? ==> 2 <= r.value.1 <= |tokens|
  {
    var letter := tokens[0][0];
    if !Valid(tokens[0]) then Err(NotUtf8)
    else if |tokens| < 2 then Err(IncompleteChange)
    else if !Valid(tokens[1]) then Err(NotUtf8)
    else if letter == LETTER_R || letter == LETTER_C then
      if |tokens| < 3 then Err(IncompleteRename)
      else if !Valid(tokens[2]) then Err(NotUtf8)
      else Ok((if letter == LETTER_R then Change(tokens[2], Renamed, Some(tokens[1]))
               else Change(tokens[2], Added, None), 3))
    else
      var kind := PlainKind(letter);
      if kind.None? then Err(UnsupportedStatus) else Ok((Change(tokens[1], kind.value, None), 2))
  }

  function ParsedChanges(tokens: seq<Bytes>, known: seq<Change>): Result<seq<Change>>
    decreases |tokens|
  {
    if tokens == [] || tokens[0] == [] then Ok(known)
    else
      var first := ParseChange(tokens);
      if first.Err? then Err(first.error)
      else ParsedChanges(tokens[first.value.1..], known + [first.value.0])
  }

  // The index rises on every input, well-formed or not.
  method ParseChanges(raw: Bytes) returns (r: Result<seq<Change>>)
    ensures r == ParsedChanges(Split(raw), [])
  {
    var tokens := Split(raw);
    var changes, index := [], 0;
    assert tokens[0..] == tokens;
    while index < |tokens| && tokens[index] != []
      invariant index <= |tokens|
      invariant ParsedChanges(tokens[index..], changes) == ParsedChanges(tokens, [])
      decreases |tokens| - index
    {
      ghost var left := tokens[index..];
      ghost var first := ParseChange(left);
      ghost var start := index;
      assert left != [] && left[0] == tokens[index];
      if !Valid(tokens[index]) { return Err(NotUtf8); }
      var status := tokens[index];
      index := index + 1;
      if index >= |tokens| { return Err(IncompleteChange); }
      if !Valid(tokens[index]) { return Err(NotUtf8); }
      var path := tokens[index];
      index := index + 1;
      if status[0] == LETTER_R || status[0] == LETTER_C {
        if index >= |tokens| { return Err(IncompleteRename); }
        if !Valid(tokens[index]) { return Err(NotUtf8); }
        var destination := tokens[index];
        index := index + 1;
        if status[0] == LETTER_R {
          changes := changes + [Change(destination, Renamed, Some(path))];
        } else {
          changes := changes + [Change(destination, Added, None)];
        }
      } else {
        var kind := PlainKind(status[0]);
        if kind.None? { return Err(UnsupportedStatus); }
        changes := changes + [Change(path, kind.value, None)];
      }
      assert left[index - start..] == tokens[index..];
    }
    return Ok(changes);
  }

  // A name-status record as git prints it, one for each status; a score follows
  // the letter of a rename or copy, and of a rewritten file.
  datatype ChangeRecord =
    | AddedRecord(path: Bytes)
    | DeletedRecord(path: Bytes)
    | ModifiedRecord(score: Bytes, path: Bytes)
    | TypeRecord(path: Bytes)
    | RenameRecord(score: Bytes, source: Bytes, path: Bytes)
    | CopyRecord(score: Bytes, source: Bytes, path: Bytes)

  predicate Name(s: Bytes) { Valid(s) && NUL !in s }

  predicate WellFormed(r: ChangeRecord) {
    match r
    case AddedRecord(path) => Name(path)
    case DeletedRecord(path) => Name(path)
    case ModifiedRecord(score, path) => Name(score) && Name(path)
    case TypeRecord(path) => Name(path)
    case RenameRecord(score, source, path) => Name(score) && Name(source) && Name(path)
    case CopyRecord(score, source, path) => Name(score) && Name(source) && Name(path)
  }

  function ChangeTokens(r: ChangeRecord): seq<Bytes> {
    match r
    case AddedRecord(path) => [[0x41], path]
    case DeletedRecord(path) => [[0x44], path]
    case ModifiedRecord(score, path) => [[0x4D] + score, path]
    case TypeRecord(path) => [[0x54], path]
    case RenameRecord(score, source, path) => [[0x52] + score, source, path]
    case CopyRecord(score, source, path) => [[0x43] + score, source, path]
  }

  // What the history format keeps: a copy is an added file, a changed type a modified one.
  function MeaningOf(r: ChangeRecord): Change {
    match r
    case AddedRecord(path) => Change(path, Added, None)
    case DeletedRecord(path) => Change(path, Deleted, None)
    case ModifiedRecord(_, path) => Change(path, Modified, None)
    case TypeRecord(path) => Change(path, Modified, None)
    case RenameRecord(_, source, path) => Change(path, Renamed, Some(source))
    case CopyRecord(_, _, path) => Change(path, Added, None)
  }

  function AllChangeTokens(records: seq<ChangeRecord>): seq<Bytes> {
    if records == [] then [] else ChangeTokens(records[0]) + AllChangeTokens(records[1..])
  }

  function Meanings(records: seq<ChangeRecord>): seq<Change> {
    if records == [] then [] else [MeaningOf(records[0])] + Meanings(records[1..])
  }

  lemma AsciiLetterValid(letter: Byte, rest: Bytes)
    requires letter <= 0x7F && Valid(rest)
    ensures Valid([letter] + rest)
  {
    var s := [letter] + rest;
    assert Front(s) == 1 && s[1..] == rest;
  }

  lemma LetterAlone(letter: Byte)
    requires letter <= 0x7F
    ensures Valid([letter])
  {
    AsciiLetterValid(letter, []);
    assert [letter] + [] == [letter];
  }

  lemma RecordParses(r: ChangeRecord, rest: seq<Bytes>)
    requires WellFormed(r)
    ensures var tokens := ChangeTokens(r) + rest;
            tokens[0] != [] && ParseChange(tokens) == Ok((MeaningOf(r), |ChangeTokens(r)|))
              && tokens[|ChangeTokens(r)|..] == rest
  {
    match r {
      case AddedRecord(_) => LetterAlone(0x41);
      case DeletedRecord(_) => LetterAlone(0x44);
      case ModifiedRecord(score, _) => AsciiLetterValid(0x4D, score);
      case TypeRecord(_) => LetterAlone(0x54);
      case RenameRecord(score, _, _) => AsciiLetterValid(0x52, score);
      case CopyRecord(score, _, _) => AsciiLetterValid(0x43, score);
    }
  }

  lemma ChangeTokensClean(r: ChangeRecord)
    requires WellFormed(r)
    ensures forall k :: 0 <= k < |ChangeTokens(r)| ==> NUL !in ChangeTokens(r)[k]
  {}

  lemma {:induction false} RecordsParse(records: seq<ChangeRecord>, known: seq<Change>)
    requires forall k :: 0 <= k < |records| ==> WellFormed(records[k])
    ensures ParsedChanges(AllChangeTokens(records) + [[]], known) == Ok(known + Meanings(records))
    ensures forall k :: 0 <= k < |AllChangeTokens(records)| ==> NUL !in AllChangeTokens(records)[k]
  {
    if records != [] {
      var rest := AllChangeTokens(records[1..]) + [[]];
      RecordsParse(records[1..], known + [MeaningOf(records[0])]);
      RecordParses(records[0], rest);
      ChangeTokensClean(records[0]);
      assert AllChangeTokens(records) + [[]] == ChangeTokens(records[0]) + rest;
      hide ChangeTokens, ParseChange, WellFormed, MeaningOf;
      assert known + [MeaningOf(records[0])] + Meanings(records[1..]) == known + Meanings(records);
    } else {
      assert known + [] == known;
    }
  }

  // What may follow whole records and is refused: a status with any other
  // letter, a status or rename cut short, and text that is not UTF-8.
  function Refusal(tokens: seq<Bytes>): Option<ParseError> {
    if tokens == [] || tokens[0] == [] then None
    else if !Valid(tokens[0]) then Some(NotUtf8)
    else if |tokens| == 1 then Some(IncompleteChange)
    else if !Valid(tokens[1]) then Some(NotUtf8)
    else if tokens[0][0] !in {0x41, 0x43, 0x44, 0x4D, 0x52, 0x54} then Some(UnsupportedStatus)
    else if tokens[0][0] !in {0x43, 0x52} then None
    else if |tokens| == 2 then Some(IncompleteRename)
    else if !Valid(tokens[2]) then Some(NotUtf8)
    else None
  }

  lemma RefusedFirst(tokens: seq<Bytes>, known: seq<Change>)
    requires Refusal(tokens).Some?
    ensures ParsedChanges(tokens, known) == Err(Refusal(tokens).value)
  {
    hide Valid;
  }

  lemma {:induction false} RefusedAfter(records: seq<ChangeRecord>, rest: seq<Bytes>, known: seq<Change>)
    requires forall k :: 0 <= k < |records| ==> WellFormed(records[k])
    requires Refusal(rest).Some?
    ensures ParsedChanges(AllChangeTokens(records) + rest, known) == Err(Refusal(rest).value)
  {
    hide ChangeTokens, ParseChange, WellFormed, MeaningOf, Refusal, Valid;
    if records != [] {
      var tail := AllChangeTokens(records[1..]) + rest;
      RefusedAfter(records[1..], rest, known + [MeaningOf(records[0])]);
      RecordParses(records[0], tail);
      assert AllChangeTokens(records) + rest == ChangeTokens(records[0]) + tail;
    } else {
      RefusedFirst(rest, known);
      assert AllChangeTokens(records) + rest == rest;
    }
  }

  // Parsing what git prints returns the records' meanings, in order.
  lemma ChangesRoundTrip(records: seq<ChangeRecord>)
    requires forall k :: 0 <= k < |records| ==> WellFormed(records[k])
    ensures ParsedChanges(Split(Joined(AllChangeTokens(records))), []) == Ok(Meanings(records))
  {
    RecordsParse(records, []);
    SplitOfJoined(AllChangeTokens(records));
    hide WellFormed, Split, Joined, AllChangeTokens, ParsedChanges, Meanings;
    assert [] + Meanings(records) == Meanings(records);
  }

  // ----- parse_numstat

  datatype Stat = Binary | Lines(additions: nat, deletions: nat)

  predicate Digit(b: Byte) { 0x30 <= b <= 0x39 }

  predicate Digits(s: Bytes) { s != [] && forall k :: 0 <= k < |s| ==> Digit(s[k]) }

  function Number(s: Bytes): nat
    requires forall k :: 0 <= k < |s| ==> Digit(s[k])
  {
    if s == [] then 0
    else
      assert Digit(s[|s| - 1]);
      Number(s[..|s| - 1]) * 10 + (s[|s| - 1] as int - 0x30)
  }

  function Decimal(n: nat): (s: Bytes)
    ensures Digits(s)
  {
    if n < 10 then [n + 0x30] else Decimal(n / 10) + [n % 10 + 0x30]
  }

  lemma {:induction false} DecimalRoundTrip(n: nat)
    ensures Number(Decimal(n)) == n
  {
    if n >= 10 {
      DecimalRoundTrip(n / 10);
      assert Decimal(n)[..|Decimal(n)| - 1] == Decimal(n / 10);
    } else {
      assert Decimal(n)[..0] == [];
    }
  }

  // One entry at the front of the tokens: the name, its statistics, and the tokens it took.
  function ParseStat(tokens: seq<Bytes>): (r: Result<(Bytes, Stat, nat)>)
    requires tokens != []
    ensures r.Ok? ==> 1 <= r.value.2 <= |tokens|
  {
    var fields := SplitAt(tokens[0], TAB, 2);
    if |fields| != 3 then Err(IncompleteNumstat)
    else if fields[2] == [] && |tokens| < 3 then Err(IncompleteRenameNumstat)
    else
      var name := if fields[2] == [] then tokens[2] else fields[2];
      var used := if fields[2] == [] then 3 else 1;
      if !Valid(name) then Err(NotUtf8)
      else if fields[0] == [DASH] || fields[1] == [DASH] then Ok((name, Binary, used))
      else if !Digits(fields[0]) || !Digits(fields[1]) then Err(NotANumber)
      else Ok((name, Lines(Number(fields[0]), Number(fields[1])), used))
  }

  function ParsedNumstat(tokens: seq<Bytes>, known: map<Bytes, Stat>): Result<map<Bytes, Stat>>
    decreases |tokens|
  {
    if tokens == [] || tokens[0] == [] then Ok(known)
    else
      var first := ParseStat(tokens);
      if first.Err? then Err(first.error)
      else ParsedNumstat(tokens[first.value.2..], known[first.value.0 := first.value.1])
  }

  method ParseNumstat(raw: Bytes) returns (r: Result<map<Bytes, Stat>>)
    ensures r == ParsedNumstat(Split(raw), map[])
  {
    var tokens := Split(raw);
    var result, index := map[], 0;
    assert tokens[0..] == tokens;
    while index < |tokens| && tokens[index] != []
      invariant index <= |tokens|
      invariant ParsedNumstat(tokens[index..], result) == ParsedNumstat(tokens, map[])
      decreases |tokens| - index
    {
      ghost var left, start := tokens[index..], index;
      assert left != [] && left[0] == tokens[index];
      var fields := SplitAt(tokens[index], TAB, 2);
      index := index + 1;
      if |fields| != 3 { return Err(IncompleteNumstat); }
      var name := fields[2];
      if name == [] {
        if index + 1 >= |tokens| { return Err(IncompleteRenameNumstat); }
        assert left[2] == tokens[index + 1];
        name := tokens[index + 1];
        index := index + 2;
      }
      if !Valid(name) { return Err(NotUtf8); }
      if fields[0] == [DASH] || fields[1] == [DASH] {
        result := result[name := Binary];
      } else {
        if !Digits(fields[0]) || !Digits(fields[1]) { return Err(NotANumber); }
        result := result[name := Lines(Number(fields[0]), Number(fields[1]))];
      }
      assert left[index - start..] == tokens[index..];
    }
    return Ok(result);
  }

  // A numstat record: the counts, or a binary mark, of a path that may have been renamed.
  datatype StatRecord = StatRecord(stat: Stat, path: Bytes, source: Option<Bytes>)

  predicate WellFormedStat(r: StatRecord) {
    Name(r.path) && (r.source.None? ==> r.path != []) && (r.source.Some? ==> Name(r.source.value))
  }

  function CountText(stat: Stat, added: bool): Bytes {
    match stat
    case Binary => [0x2D]
    case Lines(a, d) => Decimal(if added then a else d)
  }

  function StatTokens(r: StatRecord): seq<Bytes> {
    var counts := CountText(r.stat, true) + [9] + CountText(r.stat, false) + [9];
    if r.source.Some? then [counts, r.source.value, r.path] else [counts + r.path]
  }

  lemma CountTextFacts(stat: Stat, added: bool)
    ensures TAB !in CountText(stat, added) && NUL !in CountText(stat, added) && CountText(stat, added) != []
    ensures CountText(stat, added) == [DASH] <==> stat.Binary?
    ensures stat.Lines? ==> Digits(CountText(stat, added))
                            && Number(CountText(stat, added)) == if added then stat.additions else stat.deletions
  {
    if stat.Lines? {
      DecimalRoundTrip(if added then stat.additions else stat.deletions);
      assert forall k :: 0 <= k < |CountText(stat, added)| ==> Digit(CountText(stat, added)[k]);
    }
  }

  // A name keeps its own tabs: only the first two cut.
  lemma FieldsSplit(a: Bytes, d: Bytes, name: Bytes)
    requires TAB !in a && TAB !in d
    ensures SplitAt(a + [TAB] + d + [TAB] + name, TAB, 2) == [a, d, name]
  {
    assert a + [TAB] + d + [TAB] + name == a + [TAB] + (d + [TAB] + name);
    SplitFront(a, TAB, d + [TAB] + name, 2);
    SplitFront(d, TAB, name, 1);
  }

  lemma StatParses(r: StatRecord, rest: seq<Bytes>)
    requires WellFormedStat(r)
    ensures var tokens := StatTokens(r) + rest;
            && tokens[0] != [] && ParseStat(tokens) == Ok((r.path, r.stat, |StatTokens(r)|))
            && tokens[|StatTokens(r)|..] == rest
  {
    var a, d := CountText(r.stat, true), CountText(r.stat, false);
    CountTextFacts(r.stat, true);
    CountTextFacts(r.stat, false);
    var name := if r.source.Some? then [] else r.path;
    FieldsSplit(a, d, name);
    assert (StatTokens(r) + rest)[0] == a + [TAB] + d + [TAB] + name;
    hide CountText, SplitAt, Valid, Number;
  }

  // An entry that is not a printed record: a rename whose names are missing, one
  // binary mark, or a count that is no number.
  lemma StatRefused(a: Bytes, d: Bytes, name: Bytes, rest: seq<Bytes>)
    requires TAB !in a && TAB !in d
    ensures var parsed := ParseStat([a + [TAB] + d + [TAB] + name] + rest);
            if name == [] && |rest| < 2 then parsed == Err(IncompleteRenameNumstat)
            else
              var (path, used) := if name == [] then (rest[1], 3) else (name, 1);
              && (!Valid(path) ==> parsed == Err(NotUtf8))
              && (Valid(path) && (a == [DASH] || d == [DASH]) ==> parsed == Ok((path, Binary, used)))
              && (Valid(path) && a != [DASH] && d != [DASH] && !(Digits(a) && Digits(d)) ==> parsed == Err(NotANumber))
  {
    FieldsSplit(a, d, name);
    hide SplitAt, Valid, Number;
  }

  lemma StatWithoutFields(entry: Bytes, rest: seq<Bytes>)
    requires forall i, j :: 0 <= i < j < |entry| ==> entry[i] != TAB || entry[j] != TAB
    ensures ParseStat([entry] + rest) == Err(IncompleteNumstat)
  {
    FewFields(entry);
  }

  lemma FewFields(entry: Bytes)
    requires forall i, j :: 0 <= i < j < |entry| ==> entry[i] != TAB || entry[j] != TAB
    ensures |SplitAt(entry, TAB, 2)| <= 2
  {
    var i := IndexOf(entry, TAB);
    if i < |entry| {
      var rest := entry[i + 1..];
      assert forall k :: 0 <= k < |rest| ==> rest[k] == entry[i + 1 + k];
    }
  }

  function AllStatTokens(records: seq<StatRecord>): seq<Bytes> {
    if records == [] then [] else StatTokens(records[0]) + AllStatTokens(records[1..])
  }

  // The statistics by path; a later record of a path wins.
  function StatsOf(records: seq<StatRecord>, known: map<Bytes, Stat>): map<Bytes, Stat> {
    if records == [] then known else StatsOf(records[1..], known[records[0].path := records[0].stat])
  }

  lemma StatTokensClean(r: StatRecord)
    requires WellFormedStat(r)
    ensures forall k :: 0 <= k < |StatTokens(r)| ==> NUL !in StatTokens(r)[k]
  {
    CountTextFacts(r.stat, true);
    CountTextFacts(r.stat, false);
    hide CountText;
  }

  lemma {:induction false} StatsParse(records: seq<StatRecord>, known: map<Bytes, Stat>)
    requires forall k :: 0 <= k < |records| ==> WellFormedStat(records[k])
    ensures ParsedNumstat(AllStatTokens(records) + [[]], known) == Ok(StatsOf(records, known))
    ensures forall k :: 0 <= k < |AllStatTokens(records)| ==> NUL !in AllStatTokens(records)[k]
  {
    if records != [] {
      var rest := AllStatTokens(records[1..]) + [[]];
      StatsParse(records[1..], known[records[0].path := records[0].stat]);
      StatParses(records[0], rest);
      StatTokensClean(records[0]);
      assert AllStatTokens(records) + [[]] == StatTokens(records[0]) + rest;
      hide StatTokens, ParseStat, WellFormedStat;
    }
  }

  // Parsing what git prints, renames and names with tabs included, returns the recorded statistics.
  lemma NumstatRoundTrip(records: seq<StatRecord>)
    requires forall k :: 0 <= k < |records| ==> WellFormedStat(records[k])
    ensures ParsedNumstat(Split(Joined(AllStatTokens(records))), map[]) == Ok(StatsOf(records, map[]))
  {
    StatsParse(records, map[]);
    SplitOfJoined(AllStatTokens(records));
  }
}

/**
 * The statistics file's text format (`StatsManager`): escaping the theme for a CSV
 * field, the seven-field record line `append` writes, and the comma split
 * `readHistory` applies to every line it reads back.
 */
module Stats {
  import opened Wrappers
  import opened JavaLang

  /** How often `c` occurs in `s`. */
  function Count(s: string, c: char): nat {
    if s == [] then 0 else (if s[0] == c then 1 else 0) + Count(s[1..], c)
  }

  lemma {:induction false} CountAppend(a: string, b: string, c: char)
    ensures Count(a + b, c) == Count(a, c) + Count(b, c)
    decreases |a|
  {
    if a == [] {
      assert a + b == b;
    } else {
      assert (a + b)[0] == a[0] && (a + b)[1..] == a[1..] + b;
      CountAppend(a[1..], b, c);
    }
  }

  lemma {:induction false} CountAbsent(s: string, c: char)
    ensures Count(s, c) == 0 <==> c !in s
    decreases |s|
  {
    if s != [] {
      CountAbsent(s[1..], c);
      assert s == [s[0]] + s[1..];
    }
  }

  // ---------------------------------------------------------------------------
  // escapeCsv
  // ---------------------------------------------------------------------------

  /** `input.replace("\"", "\"\"")`. */
  function DoubleQuotes(s: string): (r: string)
    ensures |r| == |s| + Count(s, '"')
  {
    if s == [] then []
    else (if s[0] == '"' then "\"\"" else [s[0]]) + DoubleQuotes(s[1..])
  }

  /** A comma, a double quote or a line feed; a lone carriage return is not checked. */
  predicate NeedsQuoting(s: string) {
    ',' in s || '"' in s || '\n' in s
  }

  /** `StatsManager.escapeCsv`. */
  function EscapeCsv(input: Option<string>): (r: string)
    ensures input.None? ==> r == ""
    ensures input.Some? && !NeedsQuoting(input.value) ==> r == input.value
    ensures input.Some? && NeedsQuoting(input.value) ==>
      |r| == |input.value| + 2 + Count(input.value, '"') && r[0] == '"' && r[|r| - 1] == '"'
  {
    match input
    case None => ""
    case Some(s) => if NeedsQuoting(s) then "\"" + DoubleQuotes(s) + "\"" else s
  }

  /** Reads a doubled double quote as one double quote; every other char stays. */
  function Undouble(s: string): string
    decreases |s|
  {
    if |s| >= 2 && s[0] == '"' && s[1] == '"' then "\"" + Undouble(s[2..])
    else if s == [] then []
    else [s[0]] + Undouble(s[1..])
  }

  /** The reading of a quoted CSV field: the outer quotes go, doubled quotes become single. */
  function DecodeField(f: string): string {
    if |f| >= 2 && f[0] == '"' && f[|f| - 1] == '"' then Undouble(f[1..|f| - 1]) else f
  }

  lemma {:induction false} UndoubleDoubleQuotes(s: string)
    ensures Undouble(DoubleQuotes(s)) == s
    decreases |s|
  {
    if s != [] {
      UndoubleDoubleQuotes(s[1..]);
      var rest := DoubleQuotes(s[1..]);
      if s[0] == '"' {
        assert DoubleQuotes(s) == "\"\"" + rest;
        assert (DoubleQuotes(s))[2..] == rest;
      } else {
        assert DoubleQuotes(s) == [s[0]] + rest;
        assert (DoubleQuotes(s))[1..] == rest;
      }
    }
  }

  /** Decoding the escaped field gives back the theme, whether it was quoted or not. */
  lemma {:induction false} EscapeRoundTrip(s: string)
    ensures DecodeField(EscapeCsv(Some(s))) == s
  {
    if NeedsQuoting(s) {
      var e := EscapeCsv(Some(s));
      assert e[1..|e| - 1] == DoubleQuotes(s);
      UndoubleDoubleQuotes(s);
    } else {
      assert |s| >= 1 ==> s[0] in s;
    }
  }

  /** A lone carriage return passes through unquoted. */
  lemma LoneCarriageReturn()
    ensures EscapeCsv(Some("a\rb")) == "a\rb"
  {
    assert !NeedsQuoting("a\rb");
  }

  // ---------------------------------------------------------------------------
  // The record line and the comma split
  // ---------------------------------------------------------------------------

  /**
   * The line `append` writes: the timestamp, the escaped theme, the correct and wrong
   * counts, the percentage with two decimals, the hints used and the elapsed seconds,
   * joined by commas. The timestamp and the elapsed seconds are passed in.
   */
  function RecordLine(timestamp: string, theme: Option<string>, correct: int, wrong: int,
                      percentage: real, hintsUsed: int, elapsedSeconds: int): (r: string)
    requires percentage >= 0.0
    ensures Count(r, ',') == 6 + CommaTotal(RecordFields(timestamp, theme, correct, wrong, percentage, hintsUsed, elapsedSeconds))
  {
    var fields := RecordFields(timestamp, theme, correct, wrong, percentage, hintsUsed, elapsedSeconds);
    JoinCommas(fields);
    Join(",", fields)
  }

  /** The seven fields of the record line, in order. */
  function RecordFields(timestamp: string, theme: Option<string>, correct: int, wrong: int,
                        percentage: real, hintsUsed: int, elapsedSeconds: int): (r: seq<string>)
    requires percentage >= 0.0
    ensures |r| == 7
  {
    [timestamp, EscapeCsv(theme), IntToString(correct), IntToString(wrong),
     FormatFixed2(percentage), IntToString(hintsUsed), IntToString(elapsedSeconds)]
  }

  /** Where the first comma is, or the length when there is none. */
  function CommaIndex(s: string): (i: nat)
    ensures i <= |s| && ',' !in s[..i]
    ensures i < |s| ==> s[i] == ','
  {
    if s == [] || s[0] == ',' then 0
    else
      var j := CommaIndex(s[1..]);
      assert s[..j + 1] == [s[0]] + s[1..][..j];
      j + 1
  }

  /** Every piece between commas, empty ones included. */
  function SplitAll(s: string): (r: seq<string>)
    ensures |r| == Count(s, ',') + 1
    decreases |s|
  {
    var i := CommaIndex(s);
    if i == |s| then
      CountAbsent(s, ',');
      [s]
    else
      assert s == s[..i] + [','] + s[i + 1..];
      CountAppend(s[..i] + [','], s[i + 1..], ',');
      CountAppend(s[..i], [','], ',');
      CountAbsent(s[..i], ',');
      [s[..i]] + SplitAll(s[i + 1..])
  }

  /** Drops the empty strings at the end. */
  function DropTrailingEmpty(parts: seq<string>): (r: seq<string>)
    ensures |r| <= |parts| && r == parts[..|r|]
    ensures r == [] || r[|r| - 1] != ""
    ensures forall k :: |r| <= k < |parts| ==> parts[k] == ""
  {
    if parts == [] || parts[|parts| - 1] != "" then parts
    else DropTrailingEmpty(parts[..|parts| - 1])
  }

  /**
   * `line.split(",")`: a line without a comma is the only column; otherwise the
   * pieces between commas, trailing empty pieces removed. Quotes are not looked at.
   */
  function ReadRow(line: string): (r: seq<string>)
    ensures ',' !in line ==> r == [line]
  {
    if ',' !in line then [line] else DropTrailingEmpty(SplitAll(line))
  }

  /** Splitting at a comma splits the two sides independently. */
  lemma {:induction false} SplitAllAppend(a: string, b: string)
    ensures SplitAll(a + "," + b) == SplitAll(a) + SplitAll(b)
    decreases |a|
  {
    var s := a + "," + b;
    var i := CommaIndex(a);
    assert s[..i] == a[..i];
    if i == |a| {
      assert s[..i] == a && s[i + 1..] == b;
      calc {
        SplitAll(s);
        { SplitAllAt(s, i); }
        [a] + SplitAll(b);
        { SplitAllNoComma(a); }
        SplitAll(a) + SplitAll(b);
      }
    } else {
      var rest := a[i + 1..];
      assert s[i] == a[i];
      assert s[i + 1..] == rest + "," + b;
      calc {
        SplitAll(s);
        { SplitAllAt(s, i); }
        [a[..i]] + SplitAll(rest + "," + b);
        { SplitAllAppend(rest, b); }
        [a[..i]] + (SplitAll(rest) + SplitAll(b));
        ([a[..i]] + SplitAll(rest)) + SplitAll(b);
        { SplitAllAt(a, i); }
        SplitAll(a) + SplitAll(b);
      }
    }
  }

  /** The first comma cuts off the first piece. */
  lemma {:induction false} SplitAllAt(s: string, i: nat)
    requires i < |s| && s[i] == ',' && ',' !in s[..i]
    ensures SplitAll(s) == [s[..i]] + SplitAll(s[i + 1..])
  {
    CommaIndexAt(s, i);
  }

  /** A comma at `i` with none before it is the first comma. */
  lemma {:induction false} CommaIndexAt(s: string, i: nat)
    requires i < |s| && s[i] == ',' && ',' !in s[..i]
    ensures CommaIndex(s) == i
    decreases i
  {
    if i > 0 {
      assert s[0] in s[..i];
      assert s[1..][..i - 1] == s[1..i];
      assert s[1..i] == s[..i][1..];
      CommaIndexAt(s[1..], i - 1);
    }
  }

  /** Splitting a comma-free string gives the string itself. */
  lemma {:induction false} SplitAllNoComma(s: string)
    requires ',' !in s
    ensures SplitAll(s) == [s]
  {
    assert forall k :: 0 <= k < |s| ==> s[k] != ',';
  }

  /** The commas inside the parts. */
  function CommaTotal(parts: seq<string>): nat {
    if parts == [] then 0 else Count(parts[0], ',') + CommaTotal(parts[1..])
  }

  /** A part holds no more commas than all parts together. */
  lemma {:induction false} CommaTotalAtLeast(parts: seq<string>, k: nat)
    requires k < |parts|
    ensures CommaTotal(parts) >= Count(parts[k], ',')
    decreases k
  {
    if k > 0 {
      CommaTotalAtLeast(parts[1..], k - 1);
    }
  }

  /** Joining `n` parts adds `n - 1` commas to theirs. */
  lemma {:induction false} JoinCommas(parts: seq<string>)
    requires |parts| >= 1
    ensures Count(Join(",", parts), ',') == |parts| - 1 + CommaTotal(parts)
    decreases |parts|
  {
    if |parts| > 1 {
      JoinCommas(parts[1..]);
      CountAppend(parts[0] + ",", Join(",", parts[1..]), ',');
      CountAppend(parts[0], ",", ',');
      assert Count(",", ',') == 1 by {
        assert ","[1..] == [];
      }
    } else {
      assert parts[1..] == [];
    }
  }

  /** Comma-free parts come back from the split exactly. */
  lemma {:induction false} SplitJoinClean(parts: seq<string>)
    requires |parts| >= 1 && forall k :: 0 <= k < |parts| ==> ',' !in parts[k]
    ensures SplitAll(Join(",", parts)) == parts
    decreases |parts|
  {
    SplitAllNoComma(parts[0]);
    if |parts| > 1 {
      SplitAllAppend(parts[0], Join(",", parts[1..]));
      SplitJoinClean(parts[1..]);
    }
  }

  /** A comma-free last part is the last piece of the split. */
  lemma {:induction false} SplitJoinLast(parts: seq<string>)
    requires |parts| >= 1 && ',' !in parts[|parts| - 1]
    ensures var r := SplitAll(Join(",", parts)); r[|r| - 1] == parts[|parts| - 1]
    decreases |parts|
  {
    if |parts| == 1 {
      SplitAllNoComma(parts[0]);
    } else {
      var tail := Join(",", parts[1..]);
      var head, rest := SplitAll(parts[0]), SplitAll(tail);
      SplitJoinLast(parts[1..]);
      assert parts[1..][|parts| - 2] == parts[|parts| - 1];
      assert rest[|rest| - 1] == parts[|parts| - 1];
      var whole := SplitAll(Join(",", parts));
      assert whole == head + rest by {
        assert Join(",", parts) == parts[0] + "," + tail;
        SplitAllAppend(parts[0], tail);
      }
      assert whole[|whole| - 1] == rest[|rest| - 1];
    }
  }

  /** Doubling quotes adds no comma. */
  lemma {:induction false} DoubleQuotesCommas(s: string)
    ensures Count(DoubleQuotes(s), ',') == Count(s, ',')
    decreases |s|
  {
    if s != [] {
      DoubleQuotesCommas(s[1..]);
      var head := if s[0] == '"' then "\"\"" else [s[0]];
      CountAppend(head, DoubleQuotes(s[1..]), ',');
      assert Count(head, ',') == (if s[0] == ',' then 1 else 0) by {
        if s[0] == '"' {
          assert head[1..][1..] == [];
        } else {
          assert head[1..] == [];
        }
      }
    }
  }

  /** Escaping neither adds nor removes commas. */
  lemma {:induction false} EscapeCommas(s: string)
    ensures Count(EscapeCsv(Some(s)), ',') == Count(s, ',')
  {
    if NeedsQuoting(s) {
      DoubleQuotesCommas(s);
      CountAppend("\"" + DoubleQuotes(s), "\"", ',');
      CountAppend("\"", DoubleQuotes(s), ',');
      assert Count("\"", ',') == 0 by {
        assert "\""[1..] == [];
      }
    }
  }

  /** A record line holds a comma, so `split` takes its pieces apart. */
  lemma {:induction false} RecordLineSplit(timestamp: string, theme: string, correct: int, wrong: int,
                                           percentage: real, hintsUsed: int, elapsedSeconds: int)
    requires percentage >= 0.0
    ensures var fields := RecordFields(timestamp, Some(theme), correct, wrong, percentage, hintsUsed, elapsedSeconds);
      var pieces := SplitAll(Join(",", fields));
      ReadRow(RecordLine(timestamp, Some(theme), correct, wrong, percentage, hintsUsed, elapsedSeconds)) == pieces &&
      |pieces| == 7 + CommaTotal(fields)
  {
    var fields := RecordFields(timestamp, Some(theme), correct, wrong, percentage, hintsUsed, elapsedSeconds);
    var line := Join(",", fields);
    JoinCommas(fields);
    CountAbsent(line, ',');
    var pieces := SplitAll(line);
    SplitJoinLast(fields);
    assert pieces[|pieces| - 1] == IntToString(elapsedSeconds);
  }

  /**
   * A theme without commas reads back as the seven fields that were written, and the
   * theme column decodes to the theme.
   */
  lemma {:induction false} RecordRoundTrip(timestamp: string, theme: string, correct: int, wrong: int,
                                           percentage: real, hintsUsed: int, elapsedSeconds: int)
    requires percentage >= 0.0 && ',' !in timestamp && ',' !in theme
    ensures var row := ReadRow(RecordLine(timestamp, Some(theme), correct, wrong, percentage, hintsUsed, elapsedSeconds));
      row == RecordFields(timestamp, Some(theme), correct, wrong, percentage, hintsUsed, elapsedSeconds) &&
      DecodeField(row[1]) == theme
  {
    var fields := RecordFields(timestamp, Some(theme), correct, wrong, percentage, hintsUsed, elapsedSeconds);
    RecordLineSplit(timestamp, theme, correct, wrong, percentage, hintsUsed, elapsedSeconds);
    EscapeCommas(theme);
    CountAbsent(theme, ',');
    CountAbsent(fields[1], ',');
    SplitJoinClean(fields);
    EscapeRoundTrip(theme);
  }

  /** `split` is not quote-aware: a comma in the theme yields more than seven columns. */
  lemma {:induction false} CommaThemeWidensRow(timestamp: string, theme: string, correct: int, wrong: int,
                                               percentage: real, hintsUsed: int, elapsedSeconds: int)
    requires percentage >= 0.0 && ',' in theme
    ensures |ReadRow(RecordLine(timestamp, Some(theme), correct, wrong, percentage, hintsUsed, elapsedSeconds))| > 7
  {
    var fields := RecordFields(timestamp, Some(theme), correct, wrong, percentage, hintsUsed, elapsedSeconds);
    RecordLineSplit(timestamp, theme, correct, wrong, percentage, hintsUsed, elapsedSeconds);
    EscapeCommas(theme);
    CountAbsent(theme, ',');
    CommaTotalAtLeast(fields, 1);
  }
}

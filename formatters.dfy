/**
 * The integer and string display formatters: a duration in seconds as
 * "1h 2m 3s", truncation with an ellipsis, and capitalising the first letter
 * of a string or of each space-separated word. Case mapping covers ASCII
 * letters only.
 */
module Formatters {
  import opened Wrappers
  import opened Text
  import opened JsMath

  // ---------------------------------------------------------------------
  // formatDuration

  /** `${n}` followed by a unit letter. */
  function Part(n: int, unit: char): string {
    IntToString(n) + [unit]
  }

  /**
   * The parts `formatDuration` shows for a whole number of seconds: the hours,
   * the minutes past the hour and the seconds past the minute, each left out
   * when zero, except that the seconds stand alone when nothing else is shown.
   */
  function DurationParts(total: nat): (parts: seq<string>)
    ensures |parts| >= 1
  {
    var h := total / 3600;
    var m := total % 3600 / 60;
    var s := total % 60;
    var shown := (if h > 0 then [Part(h, 'h')] else []) + (if m > 0 then [Part(m, 'm')] else []);
    if s > 0 || shown == [] then shown + [Part(s, 's')] else shown
  }

  /** The three numbers shown make up the duration exactly: minutes and seconds are below 60. */
  lemma DurationPartsExact(total: nat)
    ensures (total / 3600) * 3600 + (total % 3600 / 60) * 60 + total % 60 == total
    ensures total % 3600 / 60 < 60 && total % 60 < 60
  {
    var q, r := total / 3600, total % 3600;
    assert total == q * 3600 + r;
    assert r == (r / 60) * 60 + r % 60;
    assert total == (q * 60 + r / 60) * 60 + r % 60;
    SixtyDivision(total, q * 60 + r / 60, r % 60);
  }

  /** Division by 60 is determined by a quotient and a remainder below 60. */
  lemma SixtyDivision(a: int, q: int, r: int)
    requires a == q * 60 + r && 0 <= r < 60
    ensures a % 60 == r && a / 60 == q
  {
  }

  /** An hour, a minute and a second show all three parts. */
  lemma HourMinuteSecondShown(total: nat)
    requires total == 3661
    ensures Join(DurationParts(total), ' ') == "1h 1m 1s"
  {
    assert total / 3600 == 1 && total % 3600 / 60 == 1 && total % 60 == 1;
    assert IntToString(1) == "1";
    assert Part(1, 'h') == "1h" && Part(1, 'm') == "1m" && Part(1, 's') == "1s";
    var parts := ["1h", "1m", "1s"];
    assert DurationParts(total) == parts;
    assert parts[1..] == ["1m", "1s"] && parts[1..][1..] == ["1s"];
  }

  /** Whole minutes show no seconds. */
  lemma WholeMinutesShown(total: nat)
    requires total == 120
    ensures Join(DurationParts(total), ' ') == "2m"
  {
    assert total / 3600 == 0 && total % 3600 / 60 == 2 && total % 60 == 0;
    assert IntToString(2) == "2";
    assert Part(2, 'm') == "2m";
    assert DurationParts(total) == ["2m"];
  }

  /** Whole hours show neither minutes nor seconds. */
  lemma WholeHoursShown(total: nat)
    requires total == 7200
    ensures Join(DurationParts(total), ' ') == "2h"
  {
    assert total / 3600 == 2 && total % 3600 / 60 == 0 && total % 60 == 0;
    assert IntToString(2) == "2";
    assert Part(2, 'h') == "2h";
    assert DurationParts(total) == ["2h"];
  }

  /** `formatDuration(seconds)`: '-' for null and undefined; negative durations show only their remainder in seconds. */
  method FormatDuration(seconds: Option<int>) returns (text: string)
    ensures seconds.None? ==> text == "-"
    ensures seconds.Some? && seconds.value >= 0 ==> text == Join(DurationParts(seconds.value), ' ')
    ensures seconds.Some? && seconds.value < 0 ==> text == Part(TruncRem(seconds.value, 60), 's')
    ensures seconds == Some(0) ==> text == "0s"
  {
    if seconds.None? {
      return "-";
    }
    var value := seconds.value;
    var hours := FloorDiv(value, 3600);
    var minutes := FloorDiv(TruncRem(value, 3600), 60);
    var secs := TruncRem(value, 60);
    var parts: seq<string> := [];
    if hours > 0 {
      parts := parts + [Part(hours, 'h')];
    }
    if minutes > 0 {
      parts := parts + [Part(minutes, 'm')];
    }
    if secs > 0 || |parts| == 0 {
      parts := parts + [Part(secs, 's')];
    }
    if value < 0 {
      assert hours < 0 && minutes <= 0 && secs <= 0;
    } else {
      assert hours == value / 3600 && minutes == value % 3600 / 60 && secs == value % 60;
      assert parts == DurationParts(value);
    }
    text := Join(parts, ' ');
    if value == 0 {
      assert IntToString(0) == "0";
    }
  }

  // ---------------------------------------------------------------------
  // truncate

  /** `truncate(str, maxLength)`: '' for a missing or empty string, the string when it fits, else its first `maxLength` characters and '...'. */
  function Truncate(str: Option<string>, maxLength: int): (r: string)
    ensures str.None? || str.value == "" ==> r == ""
    ensures str.Some? && str.value != "" && |str.value| <= maxLength ==> r == str.value
    ensures str.Some? && str.value != "" && |str.value| > maxLength ==>
      var keep := if maxLength < 0 then 0 else maxLength;
      r == str.value[..keep] + "..." && |r| == keep + 3
  {
    if str.None? || str.value == "" then ""
    else if |str.value| <= maxLength then str.value
    else str.value[..if maxLength < 0 then 0 else maxLength] + "..."
  }

  /** What `truncate` shows always starts with a prefix of the input, and is never longer than `maxLength + 3`. */
  lemma TruncateKeepsPrefix(str: string, maxLength: nat)
    ensures var r := Truncate(Some(str), maxLength);
      |r| <= maxLength + 3 && exists k :: 0 <= k <= |str| && (r == str[..k] || r == str[..k] + "...")
  {
    var r := Truncate(Some(str), maxLength);
    if |str| <= maxLength {
      assert r == str[..|str|];
    } else {
      assert r == str[..maxLength] + "...";
    }
  }

  // ---------------------------------------------------------------------
  // capitalize and titleCase

  /** `capitalize(str)`: the first character uppercased, the rest kept. */
  function Capitalize(str: Option<string>): (r: string)
    ensures str.None? || str.value == "" ==> r == ""
    ensures str.Some? ==> |r| == |str.value|
    ensures str.Some? && str.value != "" ==> r[0] == UpperChar(str.value[0]) && r[1..] == str.value[1..]
  {
    if str.None? || str.value == "" then "" else [UpperChar(str.value[0])] + str.value[1..]
  }

  /** Capitalizing twice is capitalizing once. */
  lemma CapitalizeIdempotent(str: string)
    ensures Capitalize(Some(Capitalize(Some(str)))) == Capitalize(Some(str))
  {
  }

  /** `.map((word) => capitalize(word))` */
  function CapitalizeWords(words: seq<string>): (r: seq<string>)
    ensures |r| == |words|
    ensures forall k :: 0 <= k < |words| ==> r[k] == Capitalize(Some(words[k]))
  {
    if |words| == 0 then [] else [Capitalize(Some(words[0]))] + CapitalizeWords(words[1..])
  }

  /** `titleCase(str)`: lowercase everything, then capitalize every space-separated word. */
  function TitleCase(str: Option<string>): string {
    if str.None? || str.value == "" then ""
    else Join(CapitalizeWords(Split(Lower(str.value), ' ')), ' ')
  }

  /**
   * A reference reading of title case for a lowercased string, one character
   * at a time: spaces are kept, and a letter is uppercased exactly when it
   * starts a word (`atStart`).
   */
  function TitleFrom(t: string, atStart: bool): (r: string)
    ensures |r| == |t|
  {
    if |t| == 0 then ""
    else if t[0] == ' ' then " " + TitleFrom(t[1..], true)
    else [if atStart then UpperChar(t[0]) else t[0]] + TitleFrom(t[1..], false)
  }

  /** The words of `t` joined again, the first capitalized only when `atStart`, the others always. */
  function JoinTitled(t: string, atStart: bool): string {
    var words := Split(t, ' ');
    Join([if atStart then Capitalize(Some(words[0])) else words[0]] + CapitalizeWords(words[1..]), ' ')
  }

  lemma {:induction false} JoinTitledIsTitleFrom(t: string, atStart: bool)
    ensures JoinTitled(t, atStart) == TitleFrom(t, atStart)
    decreases |t|
  {
    if |t| == 0 {
    } else if t[0] == ' ' {
      var rest := Split(t[1..], ' ');
      assert Split(t, ' ') == [""] + rest;
      assert Split(t, ' ')[1..] == rest;
      assert CapitalizeWords(rest) == [Capitalize(Some(rest[0]))] + CapitalizeWords(rest[1..]);
      JoinTitledIsTitleFrom(t[1..], true);
      var tail := CapitalizeWords(rest);
      assert ([""] + tail)[1..] == tail;
      assert JoinTitled(t, atStart) == "" + [' '] + Join(tail, ' ');
    } else {
      var rest := Split(t[1..], ' ');
      assert Split(t, ' ') == [[t[0]] + rest[0]] + rest[1..];
      var first := [t[0]] + rest[0];
      var shown := if atStart then Capitalize(Some(first)) else first;
      assert shown == [if atStart then UpperChar(t[0]) else t[0]] + rest[0];
      JoinTitledIsTitleFrom(t[1..], false);
      JoinConsHead(if atStart then UpperChar(t[0]) else t[0], rest[0], CapitalizeWords(rest[1..]), ' ');
    }
  }

  /** Lowercasing never creates or removes a space. */
  lemma LowerKeepsSpaces(str: string)
    ensures forall i :: 0 <= i < |str| ==> (Lower(str)[i] == ' ' <==> str[i] == ' ')
  {
  }

  /** The characters of `TitleFrom`: spaces kept, word starts uppercased, everything else as given. */
  lemma {:induction false} TitleFromAt(t: string, atStart: bool, i: int)
    requires 0 <= i < |t|
    ensures TitleFrom(t, atStart)[i] ==
      if t[i] == ' ' then ' '
      else if (if i == 0 then atStart else t[i - 1] == ' ') then UpperChar(t[i])
      else t[i]
    decreases |t|
  {
    if i > 0 {
      TitleFromAt(t[1..], t[0] == ' ', i - 1);
    }
  }

  /**
   * `titleCase` keeps the length and every space, uppercases the first
   * letter of each word and lowercases all other letters.
   */
  lemma TitleCaseCharacters(str: string, i: int)
    requires 0 <= i < |str|
    ensures |TitleCase(Some(str))| == |str|
    ensures TitleCase(Some(str))[i] ==
      if str[i] == ' ' then ' '
      else if i == 0 || str[i - 1] == ' ' then UpperChar(LowerChar(str[i]))
      else LowerChar(str[i])
  {
    var t := Lower(str);
    JoinTitledIsTitleFrom(t, true);
    LowerKeepsSpaces(str);
    TitleFromAt(t, true, i);
  }
}

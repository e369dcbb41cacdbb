/** How a class body closes: the enum entries, wrapped five to a line, and
  * the braces around the body (the tail of `visitKotlinClassMetadata`, the
  * same in both printer generations). */
module EnumLayout {
  import opened Text

  /** MAX_ENUM_ENTRY_PER_LINE. */
  const MAX_ENUM_ENTRY_PER_LINE: nat := 5

  /** What iteration `i` of the entry loop appends: a line break before every
    * fifth entry except the first, the indentation at the start of each
    * line, the name, and `", "` after every entry but the last. */
  function EnumEntryText(names: seq<string>, i: nat, indentation: int): (r: string)
    requires i < |names|
    ensures EndsWith(r, names[i] + EntrySeparator(i, |names|))
    ensures i == 0 ==> StartsWith(r, IndentText(indentation) + names[0])
  {
    var lead := EntryBreak(i) + EntryIndent(i, indentation);
    Associative(lead, names[i], EntrySeparator(i, |names|));
    ConcatEnds(lead, "", names[i] + EntrySeparator(i, |names|));
    assert lead + "" == lead;
    assert i == 0 ==> lead == IndentText(indentation);
    ConcatEnds(IndentText(indentation) + names[i], "", EntrySeparator(i, |names|));
    assert IndentText(indentation) + names[i] + "" == IndentText(indentation) + names[i];
    lead + names[i] + EntrySeparator(i, |names|)
  }

  function EntryBreak(i: nat): string
  {
    if i > 0 && i % 5 == 0 then LINE_SEPARATOR else ""
  }

  function EntryIndent(i: nat, indentation: int): string
  {
    if i % 5 == 0 then IndentText(indentation) else ""
  }

  function EntrySeparator(i: nat, n: nat): string
  {
    if i != n - 1 then ", " else ""
  }

  /** The text of the first `k` iterations. */
  function EnumEntriesPrefix(names: seq<string>, k: nat, indentation: int): (r: string)
    requires k <= |names|
    ensures k > 0 ==> StartsWith(r, IndentText(indentation) + names[0])
  {
    if k == 0 then ""
    else
      var before := EnumEntriesPrefix(names, k - 1, indentation);
      var entry := EnumEntryText(names, k - 1, indentation);
      assert k - 1 == 0 ==> before + entry == entry;
      assert k - 1 > 0 ==> StartsWith(before + entry, IndentText(indentation) + names[0]) by {
        if k - 1 > 0 {
          PrefixExtended(before, IndentText(indentation) + names[0], entry);
        }
      }
      before + entry
  }

  /** Iteration `i` of the loop, in the pieces it prints: the optional line
    * break, the name with its optional indentation, the separator. */
  lemma EntryPieces(names: seq<string>, i: nat, indentation: int)
    requires i < |names|
    ensures EnumEntryText(names, i, indentation)
         == EntryBreak(i) + (EntryIndent(i, indentation) + names[i]) + EntrySeparator(i, |names|)
  {
    var b, d, m, e := EntryBreak(i), EntryIndent(i, indentation), names[i], EntrySeparator(i, |names|);
    assert b + d + m == b + (d + m);
  }

  /** The text the whole loop writes into its own buffer. */
  function EnumEntriesText(names: seq<string>, indentation: int): (r: string)
    ensures names == [] ==> r == ""
    ensures names != [] ==> StartsWith(r, IndentText(indentation) + names[0]) && EndsWith(r, names[|names| - 1])
  {
    var r := EnumEntriesPrefix(names, |names|, indentation);
    assert names != [] ==> EndsWith(r, names[|names| - 1]) by {
      if names != [] {
        var k := |names|;
        var last := EnumEntryText(names, k - 1, indentation);
        assert names[k - 1] + EntrySeparator(k - 1, k) == names[k - 1];
        SuffixExtended(EnumEntriesPrefix(names, k - 1, indentation), last, names[k - 1]);
      }
    }
    r
  }

  /** What is printed once the body and the entries have been collected,
    * piece by piece in the order it is printed: a body in braces, preceded
    * by the entries and `;` when there are some; otherwise the entries
    * alone, trimmed onto the brace line when there are at most five;
    * otherwise two empty lines. */
  function ClassClose(classBody: string, enumEntries: string, entryCount: nat, indentation: int): (r: string)
    ensures classBody != [] || enumEntries != [] ==> r != [] && r[0] == '{'
    ensures classBody == [] && enumEntries == [] ==> r == LINE_SEPARATOR + LINE_SEPARATOR
  {
    if classBody != [] then
      var head := "{" + LINE_SEPARATOR;
      var withEntries := if enumEntries != [] then head + (enumEntries + ";" + LINE_SEPARATOR) else head;
      withEntries + (IndentText(indentation) + classBody) + (IndentText(indentation) + "}" + LINE_SEPARATOR)
    else if enumEntries != [] then
      var oneLine := entryCount <= MAX_ENUM_ENTRY_PER_LINE;
      var ind := if oneLine then "" else IndentText(indentation);
      "{" + (if oneLine then " " else LINE_SEPARATOR)
      + (ind + (if oneLine then Trim(enumEntries) + " " else enumEntries + LINE_SEPARATOR))
      + (ind + "}" + LINE_SEPARATOR)
    else
      LINE_SEPARATOR + LINE_SEPARATOR
  }

  /** A class with a body closes its braces after it, with the entries and
    * `;` first when there are entries; a class with entries only closes
    * them in braces; a class with neither ends with two empty lines. */
  lemma ClassCloseShape(classBody: string, enumEntries: string, entryCount: nat, indentation: int)
    ensures var r := ClassClose(classBody, enumEntries, entryCount, indentation);
      && (classBody != [] && enumEntries != [] ==>
            StartsWith(r, "{" + LINE_SEPARATOR + enumEntries + ";" + LINE_SEPARATOR))
      && (classBody != [] || enumEntries != [] ==> StartsWith(r, "{") && EndsWith(r, "}" + LINE_SEPARATOR))
      && (classBody == [] && enumEntries == [] ==> r == LINE_SEPARATOR + LINE_SEPARATOR)
  {
    if classBody != [] {
      BodyCloseShape(classBody, enumEntries, entryCount, indentation);
    } else if enumEntries != [] {
      EntriesCloseShape(enumEntries, entryCount, indentation);
    }
  }

  /** A body closes in braces, with the entries and `;` first when there are some. */
  lemma BodyCloseShape(classBody: string, enumEntries: string, entryCount: nat, indentation: int)
    requires classBody != []
    ensures var r := ClassClose(classBody, enumEntries, entryCount, indentation);
      && (enumEntries != [] ==> StartsWith(r, "{" + LINE_SEPARATOR + enumEntries + ";" + LINE_SEPARATOR))
      && StartsWith(r, "{") && EndsWith(r, "}" + LINE_SEPARATOR)
  {
    var r := ClassClose(classBody, enumEntries, entryCount, indentation);
    var head := "{" + LINE_SEPARATOR;
    var withEntries := if enumEntries != [] then head + (enumEntries + ";" + LINE_SEPARATOR) else head;
    var close := IndentText(indentation) + "}" + LINE_SEPARATOR;
    assert r == withEntries + (IndentText(indentation) + classBody) + close;
    ConcatEnds(withEntries, IndentText(indentation) + classBody, close);
    assert withEntries[0] == '{';
    EndsWithTail(r, close, "}" + LINE_SEPARATOR);
    if enumEntries != [] {
      assert withEntries == "{" + LINE_SEPARATOR + enumEntries + ";" + LINE_SEPARATOR;
    }
  }

  /** Entries without a body close in braces. */
  lemma EntriesCloseShape(enumEntries: string, entryCount: nat, indentation: int)
    requires enumEntries != []
    ensures var r := ClassClose("", enumEntries, entryCount, indentation);
      StartsWith(r, "{") && EndsWith(r, "}" + LINE_SEPARATOR)
  {
    var r := ClassClose("", enumEntries, entryCount, indentation);
    var oneLine := entryCount <= MAX_ENUM_ENTRY_PER_LINE;
    var ind := if oneLine then "" else IndentText(indentation);
    var open := "{" + (if oneLine then " " else LINE_SEPARATOR);
    var middle := ind + (if oneLine then Trim(enumEntries) + " " else enumEntries + LINE_SEPARATOR);
    var close := ind + "}" + LINE_SEPARATOR;
    assert r == open + middle + close;
    ConcatEnds(open, middle, close);
    assert open[0] == '{';
    EndsWithTail(r, close, "}" + LINE_SEPARATOR);
  }

  /** A suffix of a suffix is a suffix. */
  lemma EndsWithTail(r: string, tail: string, suffix: string)
    requires EndsWith(r, tail) && EndsWith(tail, suffix)
    ensures EndsWith(r, suffix)
  {
    assert r[|r| - |suffix|..] == tail[|tail| - |suffix|..];
  }

  /** Each entry's text counts its own line breaks and commas: one break
    * before every fifth entry but the first, one comma after every entry but
    * the last. */
  lemma EntryCounts(names: seq<string>, i: nat, indentation: int, c: char)
    requires i < |names| && (c == '\n' || c == ',') && c !in names[i]
    ensures Count(EnumEntryText(names, i, indentation), c)
         == if c == '\n' then (if i > 0 && i % 5 == 0 then 1 else 0) else (if i != |names| - 1 then 1 else 0)
  {
    var b, d, m, e := EntryBreak(i), EntryIndent(i, indentation), names[i], EntrySeparator(i, |names|);
    PieceCounts(i, |names|, indentation, c);
    CountAbsent(m, c);
    CountAppend(b, d, c);
    CountAppend(b + d, m, c);
    CountAppend(b + d + m, e, c);
  }

  lemma PieceCounts(i: nat, n: nat, indentation: int, c: char)
    requires c == '\n' || c == ','
    ensures Count(EntryBreak(i), c) == if c == '\n' && i > 0 && i % 5 == 0 then 1 else 0
    ensures Count(EntryIndent(i, indentation), c) == 0
    ensures Count(EntrySeparator(i, n), c) == if c == ',' && i != n - 1 then 1 else 0
  {
    IndentHasNoBreak(indentation);
    assert Count("", c) == 0;
    assert Count(LINE_SEPARATOR, c) == if c == '\n' then 1 else 0 by {
      assert LINE_SEPARATOR[..0] == "";
    }
    assert Count(", ", c) == if c == ',' then 1 else 0 by {
      assert ", "[..1] == "," && ","[..0] == "";
    }
  }

  /** A line break goes before entry `i` exactly when `i > 0` and `i` is a
    * multiple of five: after `k` entries there are `(k - 1) / 5` breaks. */
  lemma EnumLineBreaks(names: seq<string>, k: nat, indentation: int)
    requires k <= |names|
    requires forall i | 0 <= i < |names| :: '\n' !in names[i]
    ensures Count(EnumEntriesPrefix(names, k, indentation), '\n') == if k == 0 then 0 else (k - 1) / 5
  {
    EntryBreaks(names, k, indentation);
    if k > 0 {
      BreaksIsQuotient(k);
    }
  }

  /** The number of entries among the first `k` that start a new line. */
  function BreaksBefore(k: nat): nat
  {
    if k <= 1 then 0 else BreaksBefore(k - 1) + (if (k - 1) % 5 == 0 then 1 else 0)
  }

  lemma {:induction false} EntryBreaks(names: seq<string>, k: nat, indentation: int)
    requires k <= |names|
    requires forall i | 0 <= i < |names| :: '\n' !in names[i]
    ensures Count(EnumEntriesPrefix(names, k, indentation), '\n') == BreaksBefore(k)
  {
    if k > 0 {
      EntryBreaks(names, k - 1, indentation);
      EntryBreakStep(names, k, indentation);
    }
  }

  /** Entry `k - 1` adds one line break exactly when it starts a new line. */
  lemma EntryBreakStep(names: seq<string>, k: nat, indentation: int)
    requires 0 < k <= |names| && '\n' !in names[k - 1]
    requires Count(EnumEntriesPrefix(names, k - 1, indentation), '\n') == BreaksBefore(k - 1)
    ensures Count(EnumEntriesPrefix(names, k, indentation), '\n') == BreaksBefore(k)
  {
    var p := EnumEntriesPrefix(names, k - 1, indentation);
    var e := EnumEntryText(names, k - 1, indentation);
    EntryCounts(names, k - 1, indentation, '\n');
    CountAppend(p, e, '\n');
  }

  lemma {:induction false} BreaksIsQuotient(k: nat)
    requires k > 0
    ensures BreaksBefore(k) == (k - 1) / 5
  {
    if k > 1 {
      BreaksIsQuotient(k - 1);
      NextQuotient(k - 1);
    }
  }

  /** Going from `j - 1` to `j`, the quotient by five grows exactly when
    * `j` is a multiple of five. */
  lemma NextQuotient(j: nat)
    requires j > 0
    ensures j / 5 == (j - 1) / 5 + (if j % 5 == 0 then 1 else 0)
  {
    var q, r := (j - 1) / 5, (j - 1) % 5;
    assert j - 1 == 5 * q + r;
    if r == 4 {
      assert j == 5 * (q + 1);
    } else {
      assert j == 5 * q + (r + 1);
    }
  }

  lemma IndentHasNoBreak(indentation: int)
    ensures Count(IndentText(indentation), '\n') == 0
    ensures Count(IndentText(indentation), ',') == 0
  {
    if indentation > 0 {
      RepeatIsSpaces(indentation);
      var s := IndentText(indentation);
      assert '\n' !in s && ',' !in s;
      CountAbsent(s, '\n');
      CountAbsent(s, ',');
    }
  }

  /** `", "` follows every entry but the last: entries free of commas give
    * `|names| - 1` commas. */
  lemma {:induction false} EnumSeparators(names: seq<string>, k: nat, indentation: int)
    requires 0 < k <= |names|
    requires forall i | 0 <= i < |names| :: ',' !in names[i]
    ensures Count(EnumEntriesPrefix(names, k, indentation), ',') == if k < |names| then k else k - 1
  {
    var p := EnumEntriesPrefix(names, k - 1, indentation);
    var e := EnumEntryText(names, k - 1, indentation);
    if k > 1 {
      EnumSeparators(names, k - 1, indentation);
    }
    EntryCounts(names, k - 1, indentation, ',');
    CountAppend(p, e, ',');
  }

  /** Up to five entries stay on the first line: its indentation, then the
    * names separated by `", "`, and a trailing `", "` while entries remain. */
  lemma {:induction false} FirstLineEntries(names: seq<string>, k: nat, indentation: int)
    requires 1 <= k <= |names| && k <= MAX_ENUM_ENTRY_PER_LINE
    ensures EnumEntriesPrefix(names, k, indentation)
         == IndentText(indentation) + Join(names[..k], ", ") + EntrySeparator(k - 1, |names|)
  {
    if k == 1 {
      FirstEntry(names, indentation);
    } else {
      FirstLineEntries(names, k - 1, indentation);
      FirstLineStep(names, k, indentation);
    }
  }

  lemma FirstEntry(names: seq<string>, indentation: int)
    requires 1 <= |names|
    ensures EnumEntriesPrefix(names, 1, indentation)
         == IndentText(indentation) + Join(names[..1], ", ") + EntrySeparator(0, |names|)
  {
    assert EnumEntriesPrefix(names, 0, indentation) == "";
    assert names[..1] == [names[0]];
    assert EntryBreak(0) == "";
    assert EntryIndent(0, indentation) == IndentText(indentation);
  }

  lemma FirstLineStep(names: seq<string>, k: nat, indentation: int)
    requires 2 <= k <= |names| && k <= MAX_ENUM_ENTRY_PER_LINE
    requires EnumEntriesPrefix(names, k - 1, indentation)
          == IndentText(indentation) + Join(names[..k - 1], ", ") + EntrySeparator(k - 2, |names|)
    ensures EnumEntriesPrefix(names, k, indentation)
         == IndentText(indentation) + Join(names[..k], ", ") + EntrySeparator(k - 1, |names|)
  {
    var ind := IndentText(indentation);
    var j := Join(names[..k - 1], ", ");
    var sep := EntrySeparator(k - 1, |names|);
    var m := names[k - 1];
    assert EntrySeparator(k - 2, |names|) == ", ";
    MidLineEntry(names, k - 1, indentation);
    assert EnumEntriesPrefix(names, k, indentation) == (ind + j + ", ") + (m + sep);
    JoinExtend(names, k, ", ");
    Regroup(ind, j, ", ", m, sep);
  }

  /** An entry after the first on a line has neither a break nor an indent. */
  lemma MidLineEntry(names: seq<string>, i: nat, indentation: int)
    requires 1 <= i < MAX_ENUM_ENTRY_PER_LINE && i < |names|
    ensures EnumEntryText(names, i, indentation) == names[i] + EntrySeparator(i, |names|)
  {
    assert EntryBreak(i) == "" && EntryIndent(i, indentation) == "";
  }

  lemma Regroup(a: string, b: string, c: string, d: string, e: string)
    ensures (a + b + c) + (d + e) == a + (b + c + d) + e
  {
  }

  /** A body-less enum with at most five entries closes on one line:
    * `{ A, B, C }`. */
  lemma OneLineEnum(names: seq<string>, indentation: int)
    requires 1 <= |names| <= MAX_ENUM_ENTRY_PER_LINE
    requires names[0] != [] && names[0][0] > ' '
    requires names[|names| - 1] != [] && names[|names| - 1][|names[|names| - 1]| - 1] > ' '
    ensures ClassClose("", EnumEntriesText(names, indentation + 1), |names|, indentation)
         == "{ " + Join(names, ", ") + " }" + LINE_SEPARATOR
  {
    OneLineEntriesTrimmed(names, indentation + 1);
    OneLineClose(EnumEntriesText(names, indentation + 1), Join(names, ", "), |names|, indentation);
  }

  /** Up to five entries are one indented line of names joined by `", "`. */
  lemma OneLineEntriesTrimmed(names: seq<string>, indentation: int)
    requires 1 <= |names| <= MAX_ENUM_ENTRY_PER_LINE
    requires names[0] != [] && names[0][0] > ' '
    requires names[|names| - 1] != [] && names[|names| - 1][|names[|names| - 1]| - 1] > ' '
    ensures EnumEntriesText(names, indentation) != []
    ensures Trim(EnumEntriesText(names, indentation)) == Join(names, ", ")
  {
    var n := |names|;
    FirstLineEntries(names, n, indentation);
    assert names[..n] == names;
    assert EntrySeparator(n - 1, n) == "";
    assert EnumEntriesText(names, indentation) == IndentText(indentation) + Join(names, ", ");
    TrimIndentedJoin(names, indentation);
  }

  /** Indentation before names with visible ends is what `trim` removes. */
  lemma TrimIndentedJoin(names: seq<string>, indentation: int)
    requires 1 <= |names|
    requires names[0] != [] && names[0][0] > ' '
    requires names[|names| - 1] != [] && names[|names| - 1][|names[|names| - 1]| - 1] > ' '
    ensures Join(names, ", ") != []
    ensures Trim(IndentText(indentation) + Join(names, ", ")) == Join(names, ", ")
  {
    JoinEnds(names, ", ");
    if indentation > 0 {
      RepeatIsSpaces(indentation);
    }
    TrimOfPadded(IndentText(indentation), Join(names, ", "));
  }

  lemma OneLineClose(text: string, trimmed: string, n: nat, indentation: int)
    requires text != [] && n <= MAX_ENUM_ENTRY_PER_LINE && Trim(text) == trimmed
    ensures ClassClose("", text, n, indentation) == "{ " + trimmed + " }" + LINE_SEPARATOR
  {
    var close := "}" + LINE_SEPARATOR;
    OneLineCloseUnfolded(text, n, indentation);
    assert "{" + " " == "{ " && "" + (trimmed + " ") == trimmed + " " && "" + "}" == "}";
    Associative("{ " + trimmed, " ", close);
    assert " " + close == " }" + LINE_SEPARATOR;
    Associative("{ ", trimmed, " ");
  }

  lemma OneLineCloseUnfolded(text: string, n: nat, indentation: int)
    requires text != [] && n <= MAX_ENUM_ENTRY_PER_LINE
    ensures ClassClose("", text, n, indentation) == "{" + " " + ("" + (Trim(text) + " ")) + ("" + "}" + LINE_SEPARATOR)
  {
  }

  /** A join of non-empty outer items starts with the first item's first
    * character and ends with the last item's last character. */
  lemma {:induction false} JoinEnds(items: seq<string>, separator: string)
    requires items != [] && items[0] != [] && items[|items| - 1] != []
    ensures Join(items, separator) != []
    ensures Join(items, separator)[0] == items[0][0]
    ensures Join(items, separator)[|Join(items, separator)| - 1] == items[|items| - 1][|items[|items| - 1]| - 1]
  {
    if |items| > 1 {
      var init := items[..|items| - 1];
      if |init| > 1 {
        JoinPrefixStart(init, separator);
      }
      assert Join(items, separator) == Join(init, separator) + separator + items[|items| - 1];
    }
  }

  lemma {:induction false} JoinPrefixStart(items: seq<string>, separator: string)
    requires items != [] && items[0] != []
    ensures Join(items, separator) != [] && Join(items, separator)[0] == items[0][0]
  {
    if |items| > 1 {
      JoinPrefixStart(items[..|items| - 1], separator);
    }
  }
}

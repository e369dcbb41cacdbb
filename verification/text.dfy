/** Java string operations used by the printers, written out as explicit
  * functions on `seq<char>`. */
module Text {

  /** `System.lineSeparator()`, fixed to a single line feed. */
  const LINE_SEPARATOR: string := "\n"

  /** One level of indentation (KotlinMetadataPrinter.INDENTATION). */
  const INDENTATION: string := "    "

  /** `(char) -1`, returned by `previousChar` when there is no buffer. */
  const NO_CHAR: char := '\U{FFFF}'

  function Repeat(s: string, n: nat): (r: string)
    ensures |r| == n * |s|
  {
    if n == 0 then "" else Repeat(s, n - 1) + s
  }

  /** The text `print(…, true)` emits before its argument: a Java `for` loop
    * that runs `level` times, so nothing for a level below one. */
  function IndentText(level: int): string
  {
    if level <= 0 then "" else Repeat(INDENTATION, level)
  }

  predicate StartsWith(s: string, prefix: string)
  {
    |prefix| <= |s| && s[..|prefix|] == prefix
  }

  predicate EndsWith(s: string, suffix: string)
  {
    |suffix| <= |s| && s[|s| - |suffix|..] == suffix
  }

  /** `String.replace(CharSequence, CharSequence)`: every non-overlapping
    * occurrence of `pattern`, scanned left to right, becomes `replacement`. */
  function ReplaceAll(s: string, pattern: string, replacement: string): (r: string)
    requires pattern != ""
    ensures |s| < |pattern| ==> r == s
    ensures replacement == pattern ==> r == s
    decreases |s|
  {
    if |s| < |pattern| then s
    else if s[..|pattern|] == pattern then
      var rest := ReplaceAll(s[|pattern|..], pattern, replacement);
      assert replacement == pattern ==> s == s[..|pattern|] + s[|pattern|..];
      replacement + rest
    else
      var rest := ReplaceAll(s[1..], pattern, replacement);
      assert s == [s[0]] + s[1..];
      [s[0]] + rest
  }

  /** `String.lastIndexOf(char)`: the last position of `c`, or -1. */
  function LastIndexOf(s: string, c: char): (r: int)
    ensures -1 <= r < |s|
    ensures r >= 0 ==> s[r] == c
    ensures forall k | r < k < |s| :: s[k] != c
  {
    if s == [] then -1
    else if s[|s| - 1] == c then |s| - 1
    else LastIndexOf(s[..|s| - 1], c)
  }

  /** `pattern` occurs in `s` starting at position `k`. */
  predicate OccursAt(s: string, pattern: string, k: int)
  {
    0 <= k && k + |pattern| <= |s| && s[k..k + |pattern|] == pattern
  }

  /** `String.indexOf(String)`: the first position where `pattern` occurs, or -1. */
  function IndexOf(s: string, pattern: string): (r: int)
    ensures r == -1 || 0 <= r <= |s| - |pattern|
    ensures r >= 0 ==> OccursAt(s, pattern, r)
    decreases |s|
  {
    if |s| < |pattern| then -1
    else if s[..|pattern|] == pattern then 0
    else
      var k := IndexOf(s[1..], pattern);
      if k < 0 then -1 else k + 1
  }

  /** Dropping the first character shifts every occurrence one place left. */
  lemma OccursShifted(s: string, pattern: string, j: int)
    requires s != [] && j >= 0
    ensures OccursAt(s[1..], pattern, j) <==> OccursAt(s, pattern, j + 1)
  {
    if 0 <= j && j + 1 + |pattern| <= |s| {
      assert s[1..][j..j + |pattern|] == s[j + 1..j + 1 + |pattern|];
    }
  }

  /** `IndexOf` finds the first occurrence, and -1 exactly when there is none. */
  lemma {:induction false} IndexOfFirst(s: string, pattern: string)
    ensures forall k | 0 <= k < IndexOf(s, pattern) :: !OccursAt(s, pattern, k)
    ensures IndexOf(s, pattern) == -1 <==> forall k | 0 <= k <= |s| - |pattern| :: !OccursAt(s, pattern, k)
    decreases |s|
  {
    if |s| < |pattern| {
    } else if s[..|pattern|] == pattern {
      assert OccursAt(s, pattern, 0);
    } else {
      assert !OccursAt(s, pattern, 0);
      IndexOfFirst(s[1..], pattern);
      forall k | 1 <= k <= |s| - |pattern|
        ensures OccursAt(s, pattern, k) <==> OccursAt(s[1..], pattern, k - 1)
      {
        OccursShifted(s, pattern, k - 1);
      }
    }
  }

  /** `String.trim()`: drops leading and trailing characters up to U+0020. */
  function Trim(s: string): (r: string)
    ensures |r| <= |s|
    ensures r == [] || (r[0] > ' ' && r[|r| - 1] > ' ')
    ensures r == [] <==> forall k | 0 <= k < |s| :: s[k] <= ' '
  {
    var start := TrimStart(s);
    var r := TrimEnd(start);
    assert start != [] ==> start[0] == s[|s| - |start|];
    r
  }

  /** Drops the leading characters up to U+0020, and only those. */
  function TrimStart(s: string): (r: string)
    ensures |r| <= |s| && r == s[|s| - |r|..]
    ensures r == [] || r[0] > ' '
    ensures forall k | 0 <= k < |s| - |r| :: s[k] <= ' '
  {
    if s != [] && s[0] <= ' ' then TrimStart(s[1..]) else s
  }

  /** Drops the trailing characters up to U+0020, and only those. */
  function TrimEnd(s: string): (r: string)
    ensures |r| <= |s| && r == s[..|r|]
    ensures r == [] || r[|r| - 1] > ' '
    ensures forall k | |r| <= k < |s| :: s[k] <= ' '
  {
    if s != [] && s[|s| - 1] <= ' ' then TrimEnd(s[..|s| - 1]) else s
  }

  function Concat(parts: seq<string>): string
  {
    if parts == [] then "" else Concat(parts[..|parts| - 1]) + parts[|parts| - 1]
  }

  /** `String.join(separator, items)`. */
  function Join(items: seq<string>, separator: string): string
  {
    if items == [] then ""
    else if |items| == 1 then items[0]
    else Join(items[..|items| - 1], separator) + separator + items[|items| - 1]
  }

  /** Joining one more item appends the separator and that item. */
  lemma JoinExtend(items: seq<string>, k: nat, separator: string)
    requires 2 <= k <= |items|
    ensures Join(items[..k], separator) == Join(items[..k - 1], separator) + separator + items[k - 1]
  {
    assert items[..k][..k - 1] == items[..k - 1];
  }

  /** `JoinExtend` for a slice starting at `lo`. */
  lemma JoinExtendSlice(items: seq<string>, lo: nat, k: nat, separator: string)
    requires lo + 2 <= k <= |items|
    ensures Join(items[lo..k], separator) == Join(items[lo..k - 1], separator) + separator + items[k - 1]
  {
    var slice := items[lo..k];
    assert slice[..|slice| - 1] == items[lo..k - 1];
  }

  predicate IsDigit(c: char)
  {
    '0' <= c <= '9'
  }

  /** The characters at which an unanchored Java regex `.` refuses to match. */
  predicate IsLineTerminator(c: char)
  {
    c == '\n' || c == '\r' || c == '\U{0085}' || c == '\U{2028}' || c == '\U{2029}'
  }

  /** Where the non-multiline Java regex `$` matches when the character before
    * it in the pattern is not a line terminator: before a final `\r\n`,
    * before a final line terminator, or else at the end of the input. */
  function EndAnchor(s: string): (e: nat)
    ensures |s| - 2 <= e <= |s|
    ensures e == |s| <==> (s == [] || !IsLineTerminator(s[|s| - 1]))
    ensures e < |s| ==> forall k | e <= k < |s| :: IsLineTerminator(s[k])
  {
    if |s| >= 2 && s[|s| - 2..] == "\r\n" then |s| - 2
    else if |s| >= 1 && IsLineTerminator(s[|s| - 1]) then |s| - 1
    else |s|
  }

  /** A final line break, as `$` sees it: `\r\n` or one line terminator. */
  predicate FinalTerminator(t: string)
  {
    t == "\r\n" || (|t| == 1 && IsLineTerminator(t[0]))
  }

  /** Before a final line break, `$` matches where the break begins. */
  lemma EndAnchorBeforeTerminator(name: string, t: string)
    requires name != [] && !IsLineTerminator(name[|name| - 1])
    requires t == [] || FinalTerminator(t)
    ensures EndAnchor(name + t) == |name|
  {
    var s := name + t;
    if t == "\r\n" {
      assert s[|s| - 2..] == "\r\n";
    } else if t != [] {
      assert s[|s| - 2] == name[|name| - 1];
    }
  }

  /** `Character.isJavaIdentifierStart`, approximated: ASCII letters, `_`
    * and `$`, and every character outside ASCII. */
  predicate IsJavaIdentifierStart(c: char)
  {
    ('a' <= c <= 'z') || ('A' <= c <= 'Z') || c == '_' || c == '$' || c >= '\U{0080}'
  }

  /** `String.valueOf(int)` for a non-negative value. */
  function NatToString(n: nat): (r: string)
    ensures r != []
    ensures forall k | 0 <= k < |r| :: IsDigit(r[k])
  {
    if n < 10 then [DigitChar(n)] else NatToString(n / 10) + [DigitChar(n % 10)]
  }

  /** `String.valueOf(int)`. */
  function IntToString(i: int): string
  {
    if i < 0 then "-" + NatToString(-i) else NatToString(i)
  }

  function DigitChar(d: nat): (c: char)
    requires d < 10
    ensures IsDigit(c)
  {
    ['0', '1', '2', '3', '4', '5', '6', '7', '8', '9'][d]
  }

  /** The value of a string of decimal digits (`Integer.parseInt`, without
    * the 32-bit overflow check). */
  function DigitsValue(s: string): nat
    requires forall k | 0 <= k < |s| :: IsDigit(s[k])
  {
    if s == [] then 0
    else
      assert IsDigit(s[|s| - 1]);
      10 * DigitsValue(s[..|s| - 1]) + (s[|s| - 1] as int - '0' as int)
  }

  lemma {:induction false} DigitsValueOfNatToString(n: nat)
    ensures DigitsValue(NatToString(n)) == n
  {
    if n >= 10 {
      var s := NatToString(n);
      assert s[..|s| - 1] == NatToString(n / 10);
      DigitsValueOfNatToString(n / 10);
    }
  }

  lemma {:induction false} ReplaceAllFrontMatch(prefix: string, s: string, pattern: string, replacement: string)
    requires pattern != "" && StartsWith(prefix + s, pattern) && |prefix| == |pattern|
    ensures ReplaceAll(prefix + s, pattern, replacement) == replacement + ReplaceAll(s, pattern, replacement)
  {
    assert (prefix + s)[|pattern|..] == s;
  }

  /** Replacing a one-character pattern by a text that does not contain it
    * leaves no occurrence behind. */
  lemma {:induction false} ReplaceAllRemoves(s: string, c: char, replacement: string)
    requires c !in replacement
    ensures c !in ReplaceAll(s, [c], replacement)
    decreases |s|
  {
    if |s| >= 1 {
      ReplaceAllRemoves(s[1..], c, replacement);
      if s[..1] != [c] {
        assert s[0] != c;
      }
    }
  }

  /** Replacing never empties a non-empty string when the replacement is non-empty. */
  lemma {:induction false} ReplaceAllNonEmpty(s: string, pattern: string, replacement: string)
    requires pattern != "" && replacement != "" && s != ""
    ensures ReplaceAll(s, pattern, replacement) != ""
  {
  }

  lemma {:induction false} TrimOfPadded(pad: string, s: string)
    requires forall k | 0 <= k < |pad| :: pad[k] == ' '
    requires s != [] && s[0] > ' ' && s[|s| - 1] > ' '
    ensures Trim(pad + s) == s
    decreases |pad|
  {
    if pad == [] {
      assert pad + s == s;
      assert TrimStart(s) == s;
    } else {
      assert (pad + s)[1..] == pad[1..] + s;
      TrimOfPadded(pad[1..], s);
    }
  }

  lemma {:induction false} RepeatIsSpaces(n: nat)
    ensures forall k | 0 <= k < |Repeat(INDENTATION, n)| :: Repeat(INDENTATION, n)[k] == ' '
  {
    if n > 0 {
      RepeatIsSpaces(n - 1);
    }
  }

  /** A pattern one of whose characters is missing from `s` never matches. */
  lemma {:induction false} ReplaceAllNoMatch(s: string, pattern: string, replacement: string, c: char)
    requires pattern != "" && c in pattern && c !in s
    ensures ReplaceAll(s, pattern, replacement) == s
    decreases |s|
  {
    if |s| >= |pattern| {
      assert c !in s[..|pattern|];
      ReplaceAllNoMatch(s[1..], pattern, replacement, c);
      assert [s[0]] + s[1..] == s;
    }
  }

  /** A character absent from both the input and the replacement stays absent. */
  lemma {:induction false} ReplaceAllKeepsAbsent(s: string, pattern: string, replacement: string, c: char)
    requires pattern != "" && c !in s && c !in replacement
    ensures c !in ReplaceAll(s, pattern, replacement)
    decreases |s|
  {
    if |s| >= |pattern| {
      if s[..|pattern|] == pattern {
        ReplaceAllKeepsAbsent(s[|pattern|..], pattern, replacement, c);
      } else {
        ReplaceAllKeepsAbsent(s[1..], pattern, replacement, c);
      }
    }
  }

  /** Nothing after the last occurrence of `c` is `c`. */
  lemma AfterLastIndexOf(s: string, c: char)
    ensures c !in s[LastIndexOf(s, c) + 1..]
  {
    var k := LastIndexOf(s, c);
    var tail := s[k + 1..];
    forall j | 0 <= j < |tail|
      ensures tail[j] != c
    {
      assert tail[j] == s[k + 1 + j];
    }
  }

  /** How many times `c` occurs in `s`. */
  function Count(s: string, c: char): (n: nat)
    ensures n <= |s|
  {
    if s == [] then 0 else Count(s[..|s| - 1], c) + (if s[|s| - 1] == c then 1 else 0)
  }

  lemma {:induction false} CountAbsent(s: string, c: char)
    requires c !in s
    ensures Count(s, c) == 0
  {
    if s != [] {
      assert c !in s[..|s| - 1];
      CountAbsent(s[..|s| - 1], c);
    }
  }

  lemma {:induction false} CountAppend(a: string, b: string, c: char)
    ensures Count(a + b, c) == Count(a, c) + Count(b, c)
    decreases |b|
  {
    if b == [] {
      assert a + b == a;
    } else {
      assert (a + b)[..|a + b| - 1] == a + b[..|b| - 1];
      CountAppend(a, b[..|b| - 1], c);
    }
  }

  /** A concatenation of three texts starts with the first and ends with the last. */
  lemma ConcatEnds(a: string, b: string, c: string)
    ensures StartsWith(a + b + c, a) && EndsWith(a + b + c, c)
  {
    assert (a + b + c)[..|a|] == a;
    assert (a + b + c)[|a + b + c| - |c|..] == c;
  }

  /** Appending keeps a prefix. */
  lemma PrefixExtended(s: string, prefix: string, more: string)
    requires StartsWith(s, prefix)
    ensures StartsWith(s + more, prefix)
  {
    assert (s + more)[..|prefix|] == s[..|prefix|];
  }

  /** The last character of `text`, or `previous` when it is empty. */
  function LastChar(text: string, previous: char): (c: char)
    ensures text != "" ==> c == text[|text| - 1]
    ensures text == "" ==> c == previous
  {
    if text == "" then previous else text[|text| - 1]
  }

  /** Prepending keeps a suffix. */
  lemma SuffixExtended(more: string, s: string, suffix: string)
    requires EndsWith(s, suffix)
    ensures EndsWith(more + s, suffix)
  {
    assert (more + s)[|more + s| - |suffix|..] == s[|s| - |suffix|..];
  }

  /** Empty text on either side changes nothing. */
  lemma EmptySides(s: string)
    ensures "" + s == s && s + "" == s
  {
  }

  lemma Associative(a: string, b: string, c: string)
    ensures a + b + c == a + (b + c)
  {
  }
}

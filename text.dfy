/** String helpers with the meaning Python gives them: whitespace splitting,
    `sep.join`, `strip`, slicing with an abbreviation mark, ASCII lower-casing,
    decimal formatting of sizes and counts. */
module Text {

  /** The characters that `str.split()` and `str.strip()` without arguments
      treat as whitespace. */
  predicate IsSpace(c: char) {
    || ('\t' <= c <= '\r')
    || ('\U{1C}' <= c <= ' ')
    || c == '\U{85}' || c == '\U{A0}' || c == '\U{1680}'
    || ('\U{2000}' <= c <= '\U{200A}')
    || c == '\U{2028}' || c == '\U{2029}' || c == '\U{202F}' || c == '\U{205F}'
    || c == '\U{3000}'
  }

  /** A piece that `str.split()` can return: non-empty, no whitespace. */
  predicate IsWord(w: string) {
    w != [] && forall i :: 0 <= i < |w| ==> !IsSpace(w[i])
  }

  /** Length of the leading run of non-whitespace characters. */
  function NonSpaceRun(s: string): (n: nat)
    ensures n <= |s|
  {
    if s == [] || IsSpace(s[0]) then 0 else 1 + NonSpaceRun(s[1..])
  }

  /** `s.split()`: the maximal runs of non-whitespace characters, in order. */
  function Words(s: string): (ws: seq<string>)
    ensures |ws| <= |s|
    decreases |s|
  {
    if s == [] then []
    else if IsSpace(s[0]) then Words(s[1..])
    else
      var n := NonSpaceRun(s);
      [s[..n]] + Words(s[n..])
  }

  /** `sep.join(parts)`. */
  function Join(sep: string, parts: seq<string>): string
  {
    if parts == [] then ""
    else if |parts| == 1 then parts[0]
    else parts[0] + sep + Join(sep, parts[1..])
  }

  /** `"".join(parts)`. */
  function Concat(parts: seq<string>): string
  {
    if parts == [] then "" else parts[0] + Concat(parts[1..])
  }

  /** `"".join(p + "\n" for p in parts)`: every part followed by a newline. */
  function Lines(parts: seq<string>): string
  {
    if parts == [] then "" else parts[0] + "\n" + Lines(parts[1..])
  }

  /** `" ".join(s.split())`: runs of whitespace collapsed to one space, ends trimmed. */
  function NormalizeSpaces(s: string): string
  {
    Join(" ", Words(s))
  }

  function TrimStart(s: string): (r: string)
    ensures |r| <= |s|
    ensures r != [] ==> !IsSpace(r[0])
  {
    if s != [] && IsSpace(s[0]) then TrimStart(s[1..]) else s
  }

  function TrimEnd(s: string): (r: string)
    ensures |r| <= |s|
    ensures r != [] ==> !IsSpace(r[|r| - 1])
  {
    if s != [] && IsSpace(s[|s| - 1]) then TrimEnd(s[..|s| - 1]) else s
  }

  /** `s.strip()`. */
  function Strip(s: string): string
  {
    TrimEnd(TrimStart(s))
  }

  /** `s[:n]`: the first n characters, or all of s when it is shorter. */
  function Prefix(s: string, n: nat): string
  {
    if |s| <= n then s else s[..n]
  }

  /** `s[:n] + "..." if len(s) > n else s`. */
  function Abbreviate(s: string, n: nat): string
  {
    if |s| > n then s[..n] + "..." else s
  }

  /** Index of the last occurrence of c in s, or -1 (`s.rfind(c)`). */
  function LastIndex(s: string, c: char): (i: int)
    ensures -1 <= i < |s|
    ensures i >= 0 ==> s[i] == c
    ensures forall j :: i < j < |s| ==> s[j] != c
  {
    if s == [] then -1
    else if s[|s| - 1] == c then |s| - 1
    else LastIndex(s[..|s| - 1], c)
  }

  /** The part of s after the last occurrence of c; all of s when c does not
      occur (`s.split(c)[-1]`, and `os.path.basename` for c == '/'). */
  function AfterLast(s: string, c: char): string
  {
    s[LastIndex(s, c) + 1..]
  }

  function LowerChar(c: char): char
  {
    if 'A' <= c <= 'Z' then (c as int + 32) as char else c
  }

  /** `s.lower()` restricted to ASCII letters. */
  function Lower(s: string): (r: string)
    ensures |r| == |s|
    ensures forall i :: 0 <= i < |s| ==> r[i] == LowerChar(s[i])
  {
    if s == [] then [] else [LowerChar(s[0])] + Lower(s[1..])
  }

  predicate EndsWith(s: string, suffix: string)
  {
    |suffix| <= |s| && s[|s| - |suffix|..] == suffix
  }

  function DigitChar(d: nat): char
    requires d < 10
  {
    ('0' as int + d) as char
  }

  /** `str(n)` for a natural number: its decimal digits. */
  function NatToString(n: nat): string
    decreases n
  {
    if n < 10 then [DigitChar(n)] else NatToString(n / 10) + [DigitChar(n % 10)]
  }

  /** The value of a string of decimal digits, the inverse of NatToString. */
  function DecimalValue(s: string): nat
  {
    if s == [] then 0
    else 10 * DecimalValue(s[..|s| - 1]) + (if '0' <= s[|s| - 1] <= '9' then s[|s| - 1] as int - '0' as int else 0)
  }

  // ---------------------------------------------------------------------
  // Properties

  /** Reading back the decimal form of n gives n; the form is all digits and
      has no leading zero. */
  lemma {:induction false} NatToStringRoundTrip(n: nat)
    ensures DecimalValue(NatToString(n)) == n
    ensures NatToString(n) != [] && (NatToString(n)[0] == '0' ==> n == 0)
    ensures forall i :: 0 <= i < |NatToString(n)| ==> '0' <= NatToString(n)[i] <= '9'
    decreases n
  {
    if n >= 10 {
      NatToStringRoundTrip(n / 10);
      var s := NatToString(n);
      assert s[..|s| - 1] == NatToString(n / 10);
    }
  }

  /** An abbreviation is the text itself when it fits, and otherwise its first
      n characters followed by "..."; the mark is added exactly when the text
      is longer than n. */
  lemma AbbreviateShape(s: string, n: nat)
    ensures |s| <= n ==> Abbreviate(s, n) == s
    ensures |s| > n ==> (|Abbreviate(s, n)| == n + 3
                         && Abbreviate(s, n)[..n] == s[..n]
                         && Abbreviate(s, n)[n..] == "...")
    ensures Abbreviate(s, n) == Prefix(s, n) + (if |s| > n then "..." else "")
  {
  }

  /** AfterLast(s, c) is the longest suffix of s without c. */
  lemma AfterLastIsLastSegment(s: string, c: char)
    ensures |AfterLast(s, c)| <= |s|
    ensures AfterLast(s, c) == s[|s| - |AfterLast(s, c)|..]
    ensures forall i :: 0 <= i < |AfterLast(s, c)| ==> AfterLast(s, c)[i] != c
    ensures |AfterLast(s, c)| < |s| ==> s[|s| - |AfterLast(s, c)| - 1] == c
  {
  }

  /** The leading run of non-whitespace ends at whitespace or at the end. */
  lemma {:induction false} NonSpaceRunShape(s: string)
    ensures forall i :: 0 <= i < NonSpaceRun(s) ==> !IsSpace(s[i])
    ensures NonSpaceRun(s) < |s| ==> IsSpace(s[NonSpaceRun(s)])
  {
    if s != [] && !IsSpace(s[0]) {
      NonSpaceRunShape(s[1..]);
      forall i | 1 <= i < NonSpaceRun(s) ensures !IsSpace(s[i]) {
        assert s[i] == s[1..][i - 1];
      }
      if NonSpaceRun(s) < |s| {
        assert s[NonSpaceRun(s)] == s[1..][NonSpaceRun(s[1..])];
      }
    }
  }

  /** Every piece `str.split()` returns is a word. */
  lemma {:induction false} WordsAreWords(s: string)
    ensures forall k :: 0 <= k < |Words(s)| ==> IsWord(Words(s)[k])
    decreases |s|
  {
    if s != [] {
      if IsSpace(s[0]) {
        WordsAreWords(s[1..]);
      } else {
        var n := NonSpaceRun(s);
        NonSpaceRunShape(s);
        WordsAreWords(s[n..]);
        assert IsWord(s[..n]);
        forall k | 1 <= k < |Words(s)| ensures IsWord(Words(s)[k]) {
          assert Words(s)[k] == Words(s[n..])[k - 1];
        }
      }
    }
  }

  /** Words of a word followed by whitespace and more text. */
  lemma WordsAfterWord(w: string, rest: string)
    requires IsWord(w)
    requires rest == [] || IsSpace(rest[0])
    ensures Words(w + rest) == [w] + Words(rest)
  {
    var s := w + rest;
    NonSpaceRunOfWord(w, rest);
    assert s[..|w|] == w;
    assert s[|w|..] == rest;
  }

  lemma {:induction false} NonSpaceRunOfWord(w: string, rest: string)
    requires forall i :: 0 <= i < |w| ==> !IsSpace(w[i])
    requires rest == [] || IsSpace(rest[0])
    ensures NonSpaceRun(w + rest) == |w|
  {
    if w != [] {
      assert (w + rest)[1..] == w[1..] + rest;
      NonSpaceRunOfWord(w[1..], rest);
    }
  }

  /** Splitting a space-joined list of words gives the words back. */
  lemma {:induction false} WordsOfJoin(ws: seq<string>)
    requires forall k :: 0 <= k < |ws| ==> IsWord(ws[k])
    ensures Words(Join(" ", ws)) == ws
  {
    if |ws| == 1 {
      WordsAfterWord(ws[0], "");
      assert ws[0] + "" == ws[0];
    } else if |ws| > 1 {
      var tail := Join(" ", ws[1..]);
      WordsOfJoin(ws[1..]);
      WordsAfterSpace(tail);
      WordsAfterWord(ws[0], " " + tail);
      assert Join(" ", ws) == ws[0] + (" " + tail);
    }
  }

  /** A leading space is no word. */
  lemma WordsAfterSpace(s: string)
    ensures Words(" " + s) == Words(s)
  {
    assert (" " + s)[1..] == s;
  }

  /** Normalising whitespace keeps the words and is idempotent. */
  lemma NormalizeSpacesKeepsWords(s: string)
    ensures Words(NormalizeSpaces(s)) == Words(s)
    ensures NormalizeSpaces(NormalizeSpaces(s)) == NormalizeSpaces(s)
  {
    WordsAreWords(s);
    WordsOfJoin(Words(s));
  }

  /** The text a joined list starts with and ends with. */
  lemma {:induction false} JoinAppend(sep: string, a: seq<string>, b: seq<string>)
    requires a != [] && b != []
    ensures Join(sep, a + b) == Join(sep, a) + sep + Join(sep, b)
  {
    if |a| == 1 {
      assert (a + b)[1..] == b;
    } else {
      assert (a + b)[1..] == a[1..] + b;
      JoinAppend(sep, a[1..], b);
    }
  }

  /** Terminating every part with a newline is joining with newlines plus one
      final newline. */
  lemma {:induction false} LinesIsJoinPlusNewline(parts: seq<string>)
    requires parts != []
    ensures Lines(parts) == Join("\n", parts) + "\n"
  {
    if |parts| > 1 {
      LinesIsJoinPlusNewline(parts[1..]);
    }
  }

  lemma {:induction false} LinesAppend(a: seq<string>, b: seq<string>)
    ensures Lines(a + b) == Lines(a) + Lines(b)
  {
    if a != [] {
      assert (a + b)[0] == a[0];
      assert (a + b)[1..] == a[1..] + b;
      LinesAppend(a[1..], b);
      assert Lines(a + b) == a[0] + "\n" + (Lines(a[1..]) + Lines(b));
    } else {
      assert a + b == b;
    }
  }

  lemma {:induction false} ConcatAppend(a: seq<string>, b: seq<string>)
    ensures Concat(a + b) == Concat(a) + Concat(b)
  {
    if a != [] {
      assert (a + b)[0] == a[0];
      assert (a + b)[1..] == a[1..] + b;
      ConcatAppend(a[1..], b);
      assert Concat(a + b) == a[0] + (Concat(a[1..]) + Concat(b));
    } else {
      assert a + b == b;
    }
  }

  /** Stripping removes exactly the surrounding whitespace: s is a run of
      whitespace, then Strip(s), then another run of whitespace, and Strip(s)
      neither starts nor ends with whitespace. */
  lemma StripShape(s: string)
    ensures var k := |s| - |TrimStart(s)|;
            && k + |Strip(s)| <= |s|
            && s[k..k + |Strip(s)|] == Strip(s)
            && (forall i :: 0 <= i < k ==> IsSpace(s[i]))
            && (forall i :: k + |Strip(s)| <= i < |s| ==> IsSpace(s[i]))
    ensures Strip(s) != [] ==> !IsSpace(Strip(s)[0]) && !IsSpace(Strip(s)[|Strip(s)| - 1])
  {
    var t := TrimStart(s);
    var r := TrimEnd(t);
    var k := |s| - |t|;
    TrimStartSpaces(s);
    TrimEndSpaces(t);
    TrimStartSuffix(s);
    TrimEndPrefix(t);
    SliceOfSuffix(s, k, |r|);
    forall i | k + |r| <= i < |s| ensures IsSpace(s[i]) {
      assert s[i] == t[i - k];
    }
  }

  /** `lstrip()` keeps a suffix. */
  lemma {:induction false} TrimStartSuffix(s: string)
    ensures TrimStart(s) == s[|s| - |TrimStart(s)|..]
  {
    if s != [] && IsSpace(s[0]) {
      TrimStartSuffix(s[1..]);
      assert s[1..][|s| - 1 - |TrimStart(s)|..] == s[|s| - |TrimStart(s)|..];
    }
  }

  /** `rstrip()` keeps a prefix. */
  lemma {:induction false} TrimEndPrefix(s: string)
    ensures TrimEnd(s) == s[..|TrimEnd(s)|]
  {
    if s != [] && IsSpace(s[|s| - 1]) {
      TrimEndPrefix(s[..|s| - 1]);
      assert s[..|s| - 1][..|TrimEnd(s)|] == s[..|TrimEnd(s)|];
    }
  }

  /** `lstrip()` cuts only whitespace. */
  lemma {:induction false} TrimStartSpaces(s: string)
    ensures forall i :: 0 <= i < |s| - |TrimStart(s)| ==> IsSpace(s[i])
  {
    if s != [] && IsSpace(s[0]) {
      TrimStartSpaces(s[1..]);
      forall i | 1 <= i < |s| - |TrimStart(s)| ensures IsSpace(s[i]) {
        assert s[i] == s[1..][i - 1];
      }
    }
  }

  /** `rstrip()` cuts only whitespace. */
  lemma {:induction false} TrimEndSpaces(s: string)
    ensures forall i :: |TrimEnd(s)| <= i < |s| ==> IsSpace(s[i])
  {
    if s != [] && IsSpace(s[|s| - 1]) {
      TrimEndSpaces(s[..|s| - 1]);
      forall i | |TrimEnd(s)| <= i < |s| - 1 ensures IsSpace(s[i]) {
        assert s[i] == s[..|s| - 1][i];
      }
    }
  }

  lemma SliceOfSuffix(s: string, k: nat, n: nat)
    requires k + n <= |s|
    ensures s[k..][..n] == s[k..k + n]
  {
  }

  /** Lower-casing works character by character, so it commutes with taking
      a suffix. */
  lemma LowerSuffix(s: string, k: nat)
    requires k <= |s|
    ensures Lower(s[k..]) == Lower(s)[k..]
  {
  }

  /** A trailing whitespace character never survives `strip()`. */
  lemma StripTrailingSpace(x: string, c: char)
    requires IsSpace(c)
    ensures Strip(x + [c]) == Strip(x)
  {
    TrimStartAppend(x, c);
    var y := TrimStart(x);
    if y != [] {
      assert (y + [c])[..|y|] == y;
    }
  }

  lemma {:induction false} TrimStartAppend(x: string, c: char)
    requires IsSpace(c)
    ensures TrimStart(x + [c]) == if TrimStart(x) == [] then [] else TrimStart(x) + [c]
  {
    if x == [] {
      assert x + [c] == [c];
      assert [c][1..] == [];
    } else {
      assert (x + [c])[0] == x[0];
      if IsSpace(x[0]) {
        assert (x + [c])[1..] == x[1..] + [c];
        TrimStartAppend(x[1..], c);
      }
    }
  }

  /** Terminating every part with a newline and stripping gives the same text
      as joining the parts with newlines and stripping. */
  lemma StripLinesIsStripJoin(parts: seq<string>)
    ensures Strip(Lines(parts)) == Strip(Join("\n", parts))
  {
    if parts != [] {
      LinesIsJoinPlusNewline(parts);
      StripTrailingSpace(Join("\n", parts), '\n');
    }
  }

  /** The text of part k sits between the texts of the parts before it and
      after it. */
  lemma ConcatAround(parts: seq<string>, k: nat)
    requires k < |parts|
    ensures Concat(parts) == Concat(parts[..k]) + parts[k] + Concat(parts[k + 1..])
  {
    assert parts == parts[..k] + parts[k..];
    ConcatAppend(parts[..k], parts[k..]);
    assert parts[k..][1..] == parts[k + 1..];
  }

  /** A joined list ends with its last part: joining adds no separator after it. */
  lemma {:induction false} JoinEndsWithLast(sep: string, parts: seq<string>)
    requires parts != []
    ensures EndsWith(Join(sep, parts), parts[|parts| - 1])
  {
    if |parts| > 1 {
      JoinEndsWithLast(sep, parts[1..]);
      var tail := Join(sep, parts[1..]);
      var last := parts[|parts| - 1];
      assert Join(sep, parts) == (parts[0] + sep) + tail;
      assert (parts[0] + sep + tail)[|parts[0] + sep + tail| - |last|..] == tail[|tail| - |last|..];
    }
  }
}

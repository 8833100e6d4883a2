/**
  The few operations on Python `str` values that the scripts rely on,
  with Python's semantics: `find`/`rfind` of one character (returning -1
  when absent), `strip` with a character set, `split` on one separator
  character, `join`, iterating a text file line by line, and `"%d" % n`.
 */
module PyText {

  /** The characters `str.isspace()` accepts, which the argument-less `str.strip()` removes. */
  const Whitespace: set<char> := {
    ' ', '\t', '\n', '\r', '\U{000B}', '\U{000C}',
    '\U{001C}', '\U{001D}', '\U{001E}', '\U{001F}', '\U{0085}', '\U{00A0}',
    '\U{1680}', '\U{2000}', '\U{2001}', '\U{2002}', '\U{2003}', '\U{2004}',
    '\U{2005}', '\U{2006}', '\U{2007}', '\U{2008}', '\U{2009}', '\U{200A}',
    '\U{2028}', '\U{2029}', '\U{202F}', '\U{205F}', '\U{3000}'
  }

  /** The first index at or after `i` holding `c`, or -1. */
  function FindFrom(s: string, c: char, i: nat): (r: int)
    requires i <= |s|
    ensures r == -1 || (i <= r < |s| && s[r] == c)
    ensures forall k :: i <= k < (if r == -1 then |s| else r) ==> s[k] != c
    decreases |s| - i
  {
    if i == |s| then -1 else if s[i] == c then i else FindFrom(s, c, i + 1)
  }

  /** `s.find(c)`: the first index holding `c`, or -1. */
  function Find(s: string, c: char): (r: int)
    ensures -1 <= r < |s|
    ensures r == -1 <==> c !in s
    ensures r >= 0 ==> s[r] == c && forall k :: 0 <= k < r ==> s[k] != c
  {
    FindFrom(s, c, 0)
  }

  /** The first occurrence of `c` is at `i` when `s[i]` is `c` and nothing before it is. */
  lemma FindAt(s: string, c: char, i: nat)
    requires i < |s| && s[i] == c && forall k :: 0 <= k < i ==> s[k] != c
    ensures Find(s, c) == i
  {
  }

  /** The last index before `j` holding `c`, or -1. */
  function RFindBefore(s: string, c: char, j: nat): (r: int)
    requires j <= |s|
    ensures -1 <= r < j && (r >= 0 ==> s[r] == c)
    ensures forall k :: r < k < j ==> s[k] != c
  {
    if j == 0 then -1 else if s[j - 1] == c then j - 1 else RFindBefore(s, c, j - 1)
  }

  /** `s.rfind(c)`: the last index holding `c`, or -1. */
  function RFind(s: string, c: char): (r: int)
    ensures -1 <= r < |s|
    ensures r == -1 <==> c !in s
    ensures r >= 0 ==> s[r] == c
    ensures forall k :: r < k < |s| ==> s[k] != c
  {
    RFindBefore(s, c, |s|)
  }

  /** The last occurrence of `c` is at `i` when `s[i]` is `c` and nothing after it is. */
  lemma RFindAt(s: string, c: char, i: nat)
    requires i < |s| && s[i] == c && forall k :: i < k < |s| ==> s[k] != c
    ensures RFind(s, c) == i
  {
  }

  /** Appending text without `c` keeps the last occurrence of `c` where it was. */
  lemma RFindAppend(s: string, t: string, c: char)
    requires c in s && c !in t
    ensures RFind(s + t, c) == RFind(s, c)
  {
    var i, u := RFind(s, c), s + t;
    forall k | i < k < |u|
      ensures u[k] != c
    {
      if k >= |s| {
        assert u[k] == t[k - |s|];
      }
    }
    RFindAt(u, c, i);
  }

  /** The end of the run of characters of `chars` that starts at `i`. */
  function LeadFrom(s: string, chars: set<char>, i: nat): (n: nat)
    requires i <= |s|
    ensures i <= n <= |s| && (n < |s| ==> s[n] !in chars)
    ensures forall k :: i <= k < n ==> s[k] in chars
    decreases |s| - i
  {
    if i < |s| && s[i] in chars then LeadFrom(s, chars, i + 1) else i
  }

  /** How many leading characters of `s` belong to `chars`. */
  function LeadCount(s: string, chars: set<char>): (n: nat)
    ensures n <= |s| && (n < |s| ==> s[n] !in chars)
    ensures forall k :: 0 <= k < n ==> s[k] in chars
  {
    LeadFrom(s, chars, 0)
  }

  /** The start of the run of characters of `chars` that ends just before `j`. */
  function TrailStart(s: string, chars: set<char>, j: nat): (m: nat)
    requires j <= |s|
    ensures m <= j && (m > 0 ==> s[m - 1] !in chars)
    ensures forall k :: m <= k < j ==> s[k] in chars
  {
    if j > 0 && s[j - 1] in chars then TrailStart(s, chars, j - 1) else j
  }

  /** The run that ends before `j` starts at `m` when it covers `[m, j)` and stops at `m`. */
  lemma {:induction false} TrailStartAt(s: string, chars: set<char>, j: nat, m: nat)
    requires m <= j <= |s|
    requires forall k :: m <= k < j ==> s[k] in chars
    requires m == 0 || s[m - 1] !in chars
    ensures TrailStart(s, chars, j) == m
    decreases j
  {
    if j > m {
      TrailStartAt(s, chars, j - 1, m);
    }
  }

  /** `s.lstrip(chars)`. */
  function LStrip(s: string, chars: set<char>): string
  {
    s[LeadCount(s, chars)..]
  }

  /** `s.rstrip(chars)`. */
  function RStrip(s: string, chars: set<char>): string
  {
    s[..TrailStart(s, chars, |s|)]
  }

  /** Neither end of `s` lies in `chars`: stripping leaves it alone. */
  predicate Trimmed(s: string, chars: set<char>)
  {
    |s| == 0 || (s[0] !in chars && s[|s| - 1] !in chars)
  }

  /**
    `s.strip(chars)`: removes every leading and every trailing character
    that belongs to the SET `chars` (it does not remove a suffix).
    What is left is the slice of `s` between the first and the last
    character outside `chars`, and everything cut off belongs to `chars`.
   */
  function Strip(s: string, chars: set<char>): (r: string)
    ensures var i := LeadCount(s, chars); i + |r| <= |s| && r == s[i..i + |r|]
    ensures Trimmed(r, chars)
    ensures forall k :: 0 <= k < |s| && (k < LeadCount(s, chars) || LeadCount(s, chars) + |r| <= k) ==> s[k] in chars
  {
    var i := LeadCount(s, chars);
    var j := TrailStart(s, chars, |s|);
    if i < j then s[i..j] else ""
  }

  lemma StripTrimmed(s: string, chars: set<char>)
    requires Trimmed(s, chars)
    ensures Strip(s, chars) == s
  {
    if |s| > 0 {
      TrailStartAt(s, chars, |s|, |s|);
    }
  }

  /** Every character of `s` belongs to `chars`: the leading run covers all of `s`. */
  predicate AllIn(s: string, chars: set<char>)
  {
    LeadCount(s, chars) == |s|
  }

  /** A character outside `chars` does not occur in a string made of `chars`. */
  lemma AllInExcludes(s: string, chars: set<char>, c: char)
    requires AllIn(s, chars) && c !in chars
    ensures c !in s
  {
  }

  lemma AllInAppend(s: string, t: string, chars: set<char>)
    requires AllIn(s, chars) && AllIn(t, chars)
    ensures AllIn(s + t, chars)
  {
    var u := s + t;
    forall k | 0 <= k < |u|
      ensures u[k] in chars
    {
      if k >= |s| {
        assert u[k] == t[k - |s|];
      }
    }
  }

  /** A trimmed string followed only by characters of `chars` strips back to itself. */
  lemma StripSuffix(s: string, t: string, chars: set<char>)
    requires Trimmed(s, chars) && AllIn(t, chars)
    ensures Strip(s + t, chars) == s
  {
    var u := s + t;
    if |s| == 0 {
      assert u == t;
    } else {
      assert u[0] == s[0];
      forall k | |s| <= k < |u|
        ensures u[k] in chars
      {
        assert u[k] == t[k - |s|];
      }
      TrailStartAt(u, chars, |u|, |s|);
      assert u[..|s|] == s;
    }
  }

  /** A character that does not occur in `s` does not occur in any slice of it. */
  lemma NotInSlice(s: string, c: char, i: nat, j: nat)
    requires i <= j <= |s| && c !in s
    ensures c !in s[i..j]
  {
    forall k | 0 <= k < j - i
      ensures s[i..j][k] != c
    {
      assert s[i..j][k] == s[i + k];
    }
  }

  /** `sep.join(parts)`. */
  function Join(parts: seq<string>, sep: string): string
  {
    if |parts| == 0 then ""
    else if |parts| == 1 then parts[0]
    else parts[0] + sep + Join(parts[1..], sep)
  }

  /**
    `s.split(c)`: the pieces between occurrences of `c`, empty pieces
    included, so that joining them with `c` gives back `s`.
   */
  function Split(s: string, c: char): (parts: seq<string>)
    ensures |parts| >= 1
    ensures forall k :: 0 <= k < |parts| ==> c !in parts[k]
    ensures Join(parts, [c]) == s
    decreases |s|
  {
    var i := Find(s, c);
    if i == -1 then [s]
    else
      var rest := Split(s[i + 1..], c);
      assert s == s[..i] + [c] + s[i + 1..];
      [s[..i]] + rest
  }

  /** Splitting a join of separator-free pieces gives the pieces back. */
  lemma {:induction false} SplitJoin(parts: seq<string>, c: char)
    requires |parts| >= 1
    requires forall k :: 0 <= k < |parts| ==> c !in parts[k]
    ensures Split(Join(parts, [c]), c) == parts
  {
    if |parts| > 1 {
      var s := Join(parts, [c]);
      var p := parts[0];
      assert s == p + [c] + Join(parts[1..], [c]);
      assert Find(s, c) == |p| by {
        assert s[..|p|] == p;
        FindAt(s, c, |p|);
      }
      assert s[|p| + 1..] == Join(parts[1..], [c]);
      assert s[..|p|] == p;
      SplitJoin(parts[1..], c);
    }
  }

  /** Concatenation of a sequence of strings. */
  function Concat(ls: seq<string>): string
  {
    if |ls| == 0 then "" else ls[0] + Concat(ls[1..])
  }

  /**
    The text Python's universal-newline mode reads from a file holding
    `s`: a `"\r\n"` pair and a bare `'\r'` each become one `'\n'`; every
    other character is kept.
   */
  function Translated(s: string): (t: string)
    ensures '\r' !in t
    ensures |t| <= |s|
    decreases |s|
  {
    if |s| == 0 then ""
    else if s[0] == '\r' then
      "\n" + Translated(if |s| >= 2 && s[1] == '\n' then s[2..] else s[1..])
    else [s[0]] + Translated(s[1..])
  }

  /** Text without a carriage return is read as it is written. */
  lemma {:induction false} TranslatedPlain(s: string)
    requires '\r' !in s
    ensures Translated(s) == s
    decreases |s|
  {
    if |s| > 0 {
      assert s[0] != '\r';
      assert forall k :: 0 <= k < |s| - 1 ==> s[1..][k] == s[k + 1];
      TranslatedPlain(s[1..]);
      assert s == [s[0]] + s[1..];
    }
  }

  /** Text ending with a newline. */
  predicate EndsLine(line: string)
  {
    |line| > 0 && line[|line| - 1] == '\n'
  }

  /** A line as a text file yields it: not empty, with no newline before its last character. */
  predicate OneLine(line: string)
  {
    |line| > 0 && forall j :: 0 <= j < |line| - 1 ==> line[j] != '\n'
  }

  /** Splitting text after each `'\n'`: the pieces are not empty and concatenate back to the text. */
  function SplitLines(s: string): (ls: seq<string>)
    ensures Concat(ls) == s
    ensures forall k :: 0 <= k < |ls| ==> |ls[k]| > 0
    decreases |s|
  {
    if |s| == 0 then []
    else
      var i := Find(s, '\n');
      if i == -1 then
        assert Concat([s]) == s + Concat([]);
        [s]
      else
        var rest := SplitLines(s[i + 1..]);
        assert s == s[..i + 1] + s[i + 1..];
        assert ([s[..i + 1]] + rest)[1..] == rest;
        [s[..i + 1]] + rest
  }

  /** Every piece holds no newline before its end: the text is cut at each newline. */
  lemma {:induction false} SplitLinesAreLines(s: string)
    ensures forall k :: 0 <= k < |SplitLines(s)| ==> OneLine(SplitLines(s)[k])
    decreases |s|
  {
    if |s| > 0 {
      var i := Find(s, '\n');
      if i != -1 {
        var rest := SplitLines(s[i + 1..]);
        SplitLinesAreLines(s[i + 1..]);
        var ls := SplitLines(s);
        assert ls[0] == s[..i + 1] && ls[1..] == rest;
        forall k | 1 <= k < |ls|
          ensures OneLine(ls[k])
        {
          assert ls[k] == rest[k - 1] && OneLine(rest[k - 1]);
        }
      }
    }
  }

  /** Every piece but the last ends with the newline it was cut at. */
  lemma {:induction false} SplitLinesEnded(s: string)
    ensures forall k :: 0 <= k < |SplitLines(s)| - 1 ==> EndsLine(SplitLines(s)[k])
    decreases |s|
  {
    if |s| > 0 {
      var i := Find(s, '\n');
      if i != -1 {
        var rest := SplitLines(s[i + 1..]);
        SplitLinesEnded(s[i + 1..]);
        var ls := SplitLines(s);
        assert ls[0] == s[..i + 1] && ls[1..] == rest;
        forall k | 1 <= k < |ls| - 1
          ensures EndsLine(ls[k])
        {
          assert ls[k] == rest[k - 1];
        }
      }
    }
  }

  /**
    The lines `for line in f` yields for a text file holding `s`: the
    text as universal newlines read it, cut after each newline; a last
    line without one is kept as it is.
   */
  function Lines(s: string): (ls: seq<string>)
    ensures Concat(ls) == Translated(s)
    ensures forall k :: 0 <= k < |ls| ==> |ls[k]| > 0
  {
    SplitLines(Translated(s))
  }

  /** Universal newlines read `a\rb\n` as `a\nb\n`. */
  lemma TranslatedBareReturn()
    ensures Translated("a\rb\n") == "a\nb\n"
  {
    assert Translated("") == "";
    assert Translated("\n") == "\n";
    assert Translated("b\n") == "b\n";
    assert Translated("\rb\n") == "\n" + Translated("b\n");
  }

  /** `a\nb\n` is cut into `a\n` and `b\n`. */
  lemma SplitTwoEndedLines()
    ensures SplitLines("a\nb\n") == ["a\n", "b\n"]
  {
    assert SplitLines("b\n") == ["b\n"] by {
      FindAt("b\n", '\n', 1);
      assert "b\n"[..2] == "b\n" && "b\n"[2..] == "";
    }
    FindAt("a\nb\n", '\n', 1);
    assert "a\nb\n"[..2] == "a\n" && "a\nb\n"[2..] == "b\n";
  }

  /** A bare carriage return ends a line as a newline does. */
  lemma CarriageReturnEndsLine()
    ensures Lines("a\rb\n") == ["a\n", "b\n"]
  {
    TranslatedBareReturn();
    SplitTwoEndedLines();
  }

  /** Universal newlines read `a\r\nb` as `a\nb`. */
  lemma TranslatedReturnNewline()
    ensures Translated("a\r\nb") == "a\nb"
  {
    assert Translated("") == "";
    assert Translated("b") == "b";
    assert "\r\nb"[2..] == "b";
    assert Translated("\r\nb") == "\n" + Translated("b");
  }

  /** `a\nb` is cut into `a\n` and `b`. */
  lemma SplitOpenLastLine()
    ensures SplitLines("a\nb") == ["a\n", "b"]
  {
    assert SplitLines("b") == ["b"] by {
      assert Find("b", '\n') == -1;
    }
    FindAt("a\nb", '\n', 1);
    assert "a\nb"[..2] == "a\n" && "a\nb"[2..] == "b";
  }

  /** A carriage return followed by a newline ends one line, not two. */
  lemma CarriageReturnNewlineEndsLine()
    ensures Lines("a\r\nb") == ["a\n", "b"]
  {
    TranslatedReturnNewline();
    SplitOpenLastLine();
  }

  /** The text `print("\n".join(names), file=f)` writes. */
  function PrintedLines(names: seq<string>): string
  {
    Join(names, "\n") + "\n"
  }

  /** A character in neither the parts nor the separator is not in their join. */
  lemma {:induction false} JoinAvoids(parts: seq<string>, sep: string, c: char)
    requires c !in sep
    requires forall k :: 0 <= k < |parts| ==> c !in parts[k]
    ensures c !in Join(parts, sep)
  {
    if |parts| > 1 {
      JoinAvoids(parts[1..], sep, c);
    }
  }

  /** The text printed from names cut after each newline. */
  lemma {:induction false} SplitLinesOfPrinted(names: seq<string>)
    requires |names| >= 1
    requires forall k :: 0 <= k < |names| ==> '\n' !in names[k]
    ensures |SplitLines(PrintedLines(names))| == |names|
    ensures forall k :: 0 <= k < |names| ==> SplitLines(PrintedLines(names))[k] == names[k] + "\n"
  {
    var s := PrintedLines(names);
    var p := names[0];
    assert Find(s, '\n') == |p| by {
      if |names| == 1 {
        assert s == p + "\n";
      } else {
        assert s == p + "\n" + PrintedLines(names[1..]);
      }
      assert s[..|p|] == p;
      FindAt(s, '\n', |p|);
    }
    if |names| == 1 {
      assert s == p + "\n";
      assert s[|p| + 1..] == [];
    } else {
      assert s == p + "\n" + PrintedLines(names[1..]);
      assert s[|p| + 1..] == PrintedLines(names[1..]);
      SplitLinesOfPrinted(names[1..]);
    }
    assert s[..|p| + 1] == p + "\n";
  }

  /**
    A file written by `PrintedLines` is read back one name per line, each
    with its newline, for names holding neither a newline nor a carriage
    return (either would end a line of its own).
   */
  lemma LinesOfPrinted(names: seq<string>)
    requires |names| >= 1
    requires forall k :: 0 <= k < |names| ==> '\n' !in names[k] && '\r' !in names[k]
    ensures |Lines(PrintedLines(names))| == |names|
    ensures forall k :: 0 <= k < |names| ==> Lines(PrintedLines(names))[k] == names[k] + "\n"
  {
    JoinAvoids(names, "\n", '\r');
    TranslatedPlain(PrintedLines(names));
    SplitLinesOfPrinted(names);
  }

  /** The digit character for `d`. */
  function DigitChar(d: nat): (c: char)
    requires d < 10
    ensures '0' <= c <= '9' && c as int - '0' as int == d
  {
    "0123456789"[d]
  }

  predicate IsDigits(s: string)
  {
    forall k :: 0 <= k < |s| ==> '0' <= s[k] <= '9'
  }

  /** `"%d" % n` for a natural number. */
  function NatToString(n: nat): (s: string)
    ensures |s| >= 1 && IsDigits(s)
    ensures s[0] == '0' ==> n == 0
  {
    if n < 10 then [DigitChar(n)] else NatToString(n / 10) + [DigitChar(n % 10)]
  }

  /** `"%d" % i` for any integer: a minus sign, then the digits. */
  function IntToString(i: int): string
  {
    if i < 0 then "-" + NatToString(-i) else NatToString(i)
  }

  /** `int(s)` for a string of decimal digits. */
  function ParseNat(s: string): nat
    requires IsDigits(s)
  {
    if |s| == 0 then 0 else 10 * ParseNat(s[..|s| - 1]) + (s[|s| - 1] as int - '0' as int)
  }

  /** Reading back a rendered number gives the number. */
  lemma {:induction false} ParseNatToString(n: nat)
    ensures ParseNat(NatToString(n)) == n
  {
    var s := NatToString(n);
    if n >= 10 {
      assert s[..|s| - 1] == NatToString(n / 10);
      ParseNatToString(n / 10);
    }
  }

  /** Distinct numbers render as distinct strings. */
  lemma NatToStringInjective(m: nat, n: nat)
    requires m != n
    ensures NatToString(m) != NatToString(n)
  {
    ParseNatToString(m);
    ParseNatToString(n);
  }

  /** A rendered negative number is a minus sign, then the digits of its magnitude. */
  lemma IntToStringNegative(i: int)
    requires i < 0
    ensures |IntToString(i)| >= 2 && IntToString(i)[0] == '-' && IntToString(i)[1..] == NatToString(-i)
  {
    var d := NatToString(-i);
    assert ("-" + d)[1..] == d;
  }

  /** Distinct integers render as distinct strings. */
  lemma IntToStringInjective(i: int, j: int)
    requires i != j
    ensures IntToString(i) != IntToString(j)
  {
    if i < 0 && j < 0 {
      NegativesDiffer(i, j);
    } else if i >= 0 && j >= 0 {
      NatToStringInjective(i, j);
    } else if i < 0 {
      SignsDiffer(i, j);
    } else {
      SignsDiffer(j, i);
    }
  }

  lemma NegativesDiffer(i: int, j: int)
    requires i < 0 && j < 0 && i != j
    ensures IntToString(i) != IntToString(j)
  {
    NatToStringInjective(-i, -j);
    PrefixKeepsApart("-", NatToString(-i), NatToString(-j));
  }

  /** The same prefix in front of two different sequences keeps them different. */
  lemma PrefixKeepsApart<T>(p: seq<T>, a: seq<T>, b: seq<T>)
    requires a != b
    ensures p + a != p + b
  {
    assert (p + a)[|p|..] == a && (p + b)[|p|..] == b;
  }

  /** A negative number renders with a minus sign, a natural one with a digit first. */
  lemma SignsDiffer(i: int, j: int)
    requires i < 0 <= j
    ensures IntToString(i) != IntToString(j)
  {
    IntToStringNegative(i);
    assert IntToString(i)[0] != IntToString(j)[0];
  }
}

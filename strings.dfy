/** The few Python string operations the bot relies on: `sep.join(parts)`,
    `s.split(c)` with a one-character separator, `s.split()` on whitespace,
    `s.lower()` and `str(n)` for a natural number. */
module Strings {

  /** `sep.join(parts)` */
  function JoinWith(parts: seq<string>, sep: string): string
  {
    if |parts| == 0 then ""
    else if |parts| == 1 then parts[0]
    else parts[0] + sep + JoinWith(parts[1..], sep)
  }

  /** `s.split(c)`: the pieces between occurrences of `c`; there is always at
      least one piece, and joining the pieces with `c` gives `s` back. */
  function SplitOn(s: string, c: char): (parts: seq<string>)
    ensures |parts| >= 1
    ensures forall p <- parts :: c !in p
    ensures JoinWith(parts, [c]) == s
  {
    if s == [] then [""]
    else
      var rest := SplitOn(s[1..], c);
      if s[0] == c then
        [""] + rest
      else
        [[s[0]] + rest[0]] + rest[1..]
  }

  lemma {:induction false} SplitOnNoSeparator(p: string, c: char)
    requires c !in p
    ensures SplitOn(p, c) == [p]
  {
    if p != [] {
      SplitOnNoSeparator(p[1..], c);
    }
  }

  lemma {:induction false} SplitOnFirstPiece(p: string, c: char, rest: string)
    requires c !in p
    ensures SplitOn(p + [c] + rest, c) == [p] + SplitOn(rest, c)
  {
    if p == [] {
      assert p + [c] + rest == [c] + rest;
      assert ([c] + rest)[1..] == rest;
    } else {
      SplitOnFirstPiece(p[1..], c, rest);
      assert (p + [c] + rest)[1..] == p[1..] + [c] + rest;
      assert [p[0]] + p[1..] == p;
    }
  }

  /** Splitting what `JoinWith` built on the same one-character separator
      gives the parts back, provided no part contains the separator. */
  lemma {:induction false} SplitOnJoinWith(parts: seq<string>, c: char)
    requires |parts| >= 1
    requires forall p <- parts :: c !in p
    ensures SplitOn(JoinWith(parts, [c]), c) == parts
  {
    if |parts| == 1 {
      SplitOnNoSeparator(parts[0], c);
    } else {
      SplitOnJoinWith(parts[1..], c);
      SplitOnFirstPiece(parts[0], c, JoinWith(parts[1..], [c]));
      assert [parts[0]] + parts[1..] == parts;
    }
  }

  /** The characters for which Python's `str.isspace()` holds. */
  predicate IsSpace(ch: char)
  {
    ('\U{9}' <= ch <= '\U{D}') || ('\U{1C}' <= ch <= '\U{20}') ||
    ch == '\U{85}' || ch == '\U{A0}' || ch == '\U{1680}' ||
    ('\U{2000}' <= ch <= '\U{200A}') || ch == '\U{2028}' || ch == '\U{2029}' ||
    ch == '\U{202F}' || ch == '\U{205F}' || ch == '\U{3000}'
  }

  /** Only whitespace characters. */
  predicate AllSpace(s: string)
  {
    forall ch <- s :: IsSpace(ch)
  }

  predicate IsWord(w: string)
  {
    w != [] && forall ch <- w :: !IsSpace(ch)
  }

  /** Length of the run of non-space characters at the start of `s`. */
  function WordLength(s: string): (n: nat)
    ensures n <= |s|
    ensures forall i :: 0 <= i < n ==> !IsSpace(s[i])
    ensures n < |s| ==> IsSpace(s[n])
  {
    if s == [] || IsSpace(s[0]) then 0 else 1 + WordLength(s[1..])
  }

  /** `s.split()`: the maximal runs of non-space characters, in order. */
  function SplitWords(s: string): (words: seq<string>)
    ensures forall w <- words :: IsWord(w)
    ensures words == [] <==> AllSpace(s)
    decreases |s|
  {
    if s == [] then []
    else if IsSpace(s[0]) then SplitWords(s[1..])
    else
      var n := WordLength(s);
      [s[..n]] + SplitWords(s[n..])
  }

  lemma {:induction false} SplitWordsFirstWord(w: string, rest: string)
    requires IsWord(w)
    requires rest == [] || IsSpace(rest[0])
    ensures SplitWords(w + rest) == [w] + SplitWords(rest)
  {
    var s := w + rest;
    assert s[0] == w[0];
    WordLengthOfWord(w, rest);
    assert s[..|w|] == w;
    assert s[|w|..] == rest;
  }

  lemma {:induction false} WordLengthOfWord(w: string, rest: string)
    requires forall ch <- w :: !IsSpace(ch)
    requires rest == [] || IsSpace(rest[0])
    ensures WordLength(w + rest) == |w|
  {
    if w != [] {
      assert (w + rest)[1..] == w[1..] + rest;
      WordLengthOfWord(w[1..], rest);
    } else {
      assert w + rest == rest;
    }
  }

  /** Leading whitespace does not change the split. */
  lemma {:induction false} SplitWordsSkipsSpace(sp: string, s: string)
    requires AllSpace(sp)
    ensures SplitWords(sp + s) == SplitWords(s)
    decreases |sp|
  {
    if sp != [] {
      assert (sp + s)[0] == sp[0];
      assert (sp + s)[1..] == sp[1..] + s;
      SplitWordsSkipsSpace(sp[1..], s);
    } else {
      assert sp + s == s;
    }
  }

  /** Whitespace runs around and between words, as `split()` accepts them:
      one run more than there are words, every run only whitespace, and the
      runs between two words non-empty. */
  predicate Gaps(gaps: seq<string>, n: nat)
  {
    |gaps| == n + 1 &&
    (forall g <- gaps :: AllSpace(g)) &&
    (forall i :: 0 < i < n ==> gaps[i] != [])
  }

  /** `gaps[0] + words[0] + gaps[1] + ... + words[n - 1] + gaps[n]`. */
  function Interleave(words: seq<string>, gaps: seq<string>): string
    requires |gaps| == |words| + 1
  {
    if words == [] then gaps[0]
    else gaps[0] + words[0] + Interleave(words[1..], gaps[1..])
  }

  lemma InterleaveTwo(a: string, b: string, g0: string, g1: string, g2: string)
    ensures Interleave([a, b], [g0, g1, g2]) == g0 + a + g1 + b + g2
  {
    assert [a, b][1..] == [b] && [g0, g1, g2][1..] == [g1, g2];
    assert [b][1..] == [] && [g1, g2][1..] == [g2];
    assert Interleave([b], [g1, g2]) == g1 + b + g2;
    assert Interleave([a, b], [g0, g1, g2]) == g0 + a + (g1 + b + g2);
  }

  /** Splitting words set apart by any whitespace gives the words back. */
  lemma {:induction false} SplitWordsInterleave(words: seq<string>, gaps: seq<string>)
    requires forall w <- words :: IsWord(w)
    requires Gaps(gaps, |words|)
    ensures SplitWords(Interleave(words, gaps)) == words
  {
    if words == [] {
      SplitWordsSkipsSpace(gaps[0], "");
      assert gaps[0] + "" == gaps[0];
    } else {
      var rest := Interleave(words[1..], gaps[1..]);
      assert Gaps(gaps[1..], |words[1..]|) by {
        forall i | 0 < i < |words[1..]|
          ensures gaps[1..][i] != []
        {
          assert gaps[1..][i] == gaps[i + 1];
        }
      }
      SplitWordsInterleave(words[1..], gaps[1..]);
      if |words| > 1 {
        assert gaps[1] != [];
        assert rest[0] == gaps[1][0];
      }
      assert gaps[1] in gaps;
      assert rest == [] || IsSpace(rest[0]);
      SplitWordsFirstWord(words[0], rest);
      SplitWordsSkipsSpace(gaps[0], words[0] + rest);
      assert gaps[0] + words[0] + rest == gaps[0] + (words[0] + rest);
      assert [words[0]] + words[1..] == words;
    }
  }

  /** A whitespace character in front joins the first gap. */
  lemma GapsPrependSpace(c: char, words: seq<string>, g: seq<string>)
    requires IsSpace(c) && Gaps(g, |words|)
    ensures Gaps([[c] + g[0]] + g[1..], |words|)
    ensures Interleave(words, [[c] + g[0]] + g[1..]) == [c] + Interleave(words, g)
  {
    var gaps := [[c] + g[0]] + g[1..];
    assert gaps[1..] == g[1..];
    assert AllSpace(gaps[0]) by {
      assert g[0] in g;
      assert forall i :: 0 <= i < |g[0]| ==> gaps[0][i + 1] == g[0][i];
    }
    assert forall x <- gaps :: AllSpace(x) by {
      forall x | x in gaps[1..] ensures AllSpace(x) {
        assert x in g;
      }
      assert gaps == [gaps[0]] + gaps[1..];
    }
    if words != [] {
      assert [c] + g[0] + words[0] + Interleave(words[1..], g[1..])
          == [c] + (g[0] + words[0] + Interleave(words[1..], g[1..]));
    }
  }

  /** A word in front comes with an empty first gap; the old first gap now
      separates two words, so it must not be empty. */
  lemma GapsPrependWord(w: string, ws: seq<string>, g: seq<string>)
    requires forall x <- ws :: IsWord(x)
    requires Gaps(g, |ws|)
    requires Interleave(ws, g) == [] || IsSpace(Interleave(ws, g)[0])
    ensures Gaps([""] + g, |ws| + 1)
    ensures Interleave([w] + ws, [""] + g) == w + Interleave(ws, g)
  {
    var gaps := [""] + g;
    assert gaps[1..] == g;
    assert ([w] + ws)[1..] == ws;
    if ws != [] {
      assert ws[0] in ws;
      assert Interleave(ws, g) == g[0] + ws[0] + Interleave(ws[1..], g[1..]);
    }
  }

  /** Conversely, every string is its words set apart by whitespace gaps. */
  lemma {:induction false} SplitWordsDecomposes(s: string) returns (gaps: seq<string>)
    ensures Gaps(gaps, |SplitWords(s)|)
    ensures s == Interleave(SplitWords(s), gaps)
    decreases |s|
  {
    if s == [] {
      gaps := [""];
    } else if IsSpace(s[0]) {
      var g := SplitWordsDecomposes(s[1..]);
      GapsPrependSpace(s[0], SplitWords(s[1..]), g);
      gaps := [[s[0]] + g[0]] + g[1..];
      assert s == [s[0]] + s[1..];
    } else {
      var n := WordLength(s);
      var g := SplitWordsDecomposes(s[n..]);
      GapsPrependWord(s[..n], SplitWords(s[n..]), g);
      gaps := [""] + g;
      assert s == s[..n] + s[n..];
    }
  }

  /** `ch.lower()` for the ASCII letters; every other character is kept. */
  function LowerChar(ch: char): char
  {
    if 'A' <= ch <= 'Z' then (ch as int - 'A' as int + 'a' as int) as char else ch
  }

  /** `s.lower()`, restricted to ASCII case mapping. */
  function Lower(s: string): (r: string)
    ensures |r| == |s|
  {
    seq(|s|, i requires 0 <= i < |s| => LowerChar(s[i]))
  }

  function Digit(d: nat): char
    requires d < 10
  {
    ('0' as int + d) as char
  }

  function DigitValue(ch: char): int
  {
    ch as int - '0' as int
  }

  /** `str(n)` for a natural number: its decimal digits, no leading zero. */
  function DecimalString(n: nat): (s: string)
    ensures |s| >= 1
    ensures forall ch <- s :: '0' <= ch <= '9'
    ensures n > 0 ==> s[0] != '0'
  {
    if n < 10 then [Digit(n)] else DecimalString(n / 10) + [Digit(n % 10)]
  }

  /** Reading decimal digits back into a number, the inverse of `DecimalString`. */
  function ParseDecimal(s: string): int
  {
    if s == [] then 0 else ParseDecimal(s[..|s| - 1]) * 10 + DigitValue(s[|s| - 1])
  }

  lemma {:induction false} ParseDecimalString(n: nat)
    ensures ParseDecimal(DecimalString(n)) == n
  {
    var s := DecimalString(n);
    if n >= 10 {
      ParseDecimalString(n / 10);
      assert s[..|s| - 1] == DecimalString(n / 10);
    }
  }
}

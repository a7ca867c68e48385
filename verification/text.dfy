/** String helpers standing in for the Python built-ins the backend relies on:
    decimal rendering of integers (f-string `{n}` and `{n:02d}`), `sep.join(parts)`
    and the argument-less `str.split()`. Each comes with the inverse or algebraic
    law that pins it down. */
module Text {
  import opened Wrappers

  // ---------------------------------------------------------------------------
  // Decimal rendering and parsing
  // ---------------------------------------------------------------------------

  predicate IsDigit(c: char) {
    '0' <= c <= '9'
  }

  predicate AllDigits(s: string) {
    forall i :: 0 <= i < |s| ==> IsDigit(s[i])
  }

  function DigitChar(d: nat): (c: char)
    requires d < 10
    ensures IsDigit(c)
  {
    ('0' as int + d) as char
  }

  function DigitValue(c: char): (d: nat)
    requires IsDigit(c)
    ensures d < 10
  {
    c as int - '0' as int
  }

  /** `str(n)` for a natural number: the shortest decimal numeral of `n`. */
  function NatToDecimal(n: nat): (s: string)
    ensures |s| >= 1
    ensures AllDigits(s)
    ensures |s| > 1 ==> s[0] != '0'
    ensures n < 10 ==> |s| == 1
    ensures 10 <= n < 100 ==> |s| == 2
    decreases n
  {
    if n < 10 then [DigitChar(n)] else NatToDecimal(n / 10) + [DigitChar(n % 10)]
  }

  /** `str(i)` for any integer: a minus sign in front of negative numbers. */
  function IntToDecimal(i: int): (s: string)
    ensures |s| >= 1
    ensures ':' !in s
    ensures i >= 0 <==> s[0] != '-'
  {
    if i < 0 then "-" + NatToDecimal(-i) else NatToDecimal(i)
  }

  /** `f"{n:02d}"` for a natural number: at least two digits, zero-padded on the left. */
  function ZeroPad2(n: nat): (s: string)
    ensures |s| >= 2 && AllDigits(s)
    ensures n < 100 ==> |s| == 2
  {
    if n < 10 then "0" + NatToDecimal(n) else NatToDecimal(n)
  }

  /** Reads a non-empty string of decimal digits; `None` for anything else. */
  function ParseDigits(s: string): (r: Option<nat>)
    ensures r.Some? <==> |s| >= 1 && AllDigits(s)
    decreases |s|
  {
    if |s| == 0 || !IsDigit(s[|s| - 1]) then None
    else if |s| == 1 then Some(DigitValue(s[0]))
    else
      match ParseDigits(s[..|s| - 1])
      case None => None
      case Some(p) => Some(p * 10 + DigitValue(s[|s| - 1]))
  }

  /** Reads an optionally negative decimal numeral. */
  function ParseInt(s: string): Option<int> {
    if |s| >= 1 && s[0] == '-' then
      match ParseDigits(s[1..])
      case None => None
      case Some(p) => Some(0 - p as int)
    else
      match ParseDigits(s)
      case None => None
      case Some(p) => Some(p)
  }

  lemma {:induction false} DigitRoundTrip(d: nat)
    requires d < 10
    ensures DigitValue(DigitChar(d)) == d
  {
  }

  /** Parsing undoes rendering for natural numbers. */
  lemma {:induction false} ParseNatToDecimal(n: nat)
    ensures ParseDigits(NatToDecimal(n)) == Some(n)
    decreases n
  {
    var s := NatToDecimal(n);
    if n < 10 {
      DigitRoundTrip(n);
    } else {
      var prefix := NatToDecimal(n / 10);
      assert s == prefix + [DigitChar(n % 10)];
      assert s[..|s| - 1] == prefix;
      ParseNatToDecimal(n / 10);
      DigitRoundTrip(n % 10);
    }
  }

  /** Parsing undoes rendering for every integer, negative ones included. */
  lemma IntToDecimalRoundTrip(i: int)
    ensures ParseInt(IntToDecimal(i)) == Some(i)
  {
    if i < 0 {
      var d := NatToDecimal(-i);
      ParseNatToDecimal(-i);
      assert ("-" + d)[1..] == d;
      assert ParseInt("-" + d) == Some(i);
    } else {
      var d := NatToDecimal(i);
      ParseNatToDecimal(i);
      assert IsDigit(d[0]);
      assert ParseInt(d) == Some(i);
    }
  }

  /** Parsing undoes zero padding. */
  lemma ZeroPad2RoundTrip(n: nat)
    ensures ParseDigits(ZeroPad2(n)) == Some(n)
  {
    ParseNatToDecimal(n);
    if n < 10 {
      var s := ZeroPad2(n);
      assert s[..|s| - 1] == "0";
      DigitRoundTrip(n);
    }
  }

  // ---------------------------------------------------------------------------
  // sep.join(parts)
  // ---------------------------------------------------------------------------

  /** Python's `sep.join(parts)`. */
  function Join(sep: string, parts: seq<string>): string
    decreases |parts|
  {
    if |parts| == 0 then ""
    else if |parts| == 1 then parts[0]
    else parts[0] + sep + Join(sep, parts[1..])
  }

  /** Joining a concatenation joins each half and puts one separator between them. */
  lemma {:induction false} JoinAppend(sep: string, a: seq<string>, b: seq<string>)
    requires |a| >= 1 && |b| >= 1
    ensures Join(sep, a + b) == Join(sep, a) + sep + Join(sep, b)
    decreases |a|
  {
    if |a| == 1 {
      assert (a + b)[1..] == b;
    } else {
      assert (a + b)[1..] == a[1..] + b;
      JoinAppend(sep, a[1..], b);
    }
  }

  // ---------------------------------------------------------------------------
  // str.split() with no separator
  // ---------------------------------------------------------------------------

  /** The characters Python's `str.isspace` accepts. */
  predicate IsSpace(c: char) {
    || c == ' ' || '\t' <= c <= '\r' || '\U{1C}' <= c <= '\U{1F}'
    || c == '\U{85}' || c == '\U{A0}' || c == '\U{1680}'
    || '\U{2000}' <= c <= '\U{200A}' || c == '\U{2028}' || c == '\U{2029}'
    || c == '\U{202F}' || c == '\U{205F}' || c == '\U{3000}'
  }

  /** A token `str.split()` can produce: non-empty and free of whitespace. */
  predicate IsWord(w: string) {
    |w| >= 1 && forall i :: 0 <= i < |w| ==> !IsSpace(w[i])
  }

  /** `s` with its leading whitespace removed. */
  function DropSpaces(s: string): (t: string)
    ensures |t| <= |s|
    ensures t == [] || !IsSpace(t[0])
    ensures |s| >= 1 && !IsSpace(s[0]) ==> t == s
    decreases |s|
  {
    if |s| >= 1 && IsSpace(s[0]) then DropSpaces(s[1..]) else s
  }

  /** What `DropSpaces` removes is a run of whitespace at the front: the result is a
      suffix of the input and everything before it is whitespace. */
  lemma {:induction false} DropSpacesRemovesSpaces(s: string)
    ensures var t := DropSpaces(s);
      && t == s[|s| - |t|..]
      && forall i :: 0 <= i < |s| - |t| ==> IsSpace(s[i])
    decreases |s|
  {
    if |s| >= 1 && IsSpace(s[0]) {
      DropSpacesRemovesSpaces(s[1..]);
      var t := DropSpaces(s);
      assert s[1..][|s| - 1 - |t|..] == s[|s| - |t|..];
      assert forall i :: 1 <= i < |s| - |t| ==> s[i] == s[1..][i - 1];
    }
  }

  /** Length of the longest whitespace-free prefix of `s`. */
  function WordLength(s: string): (n: nat)
    ensures n <= |s|
    ensures forall i :: 0 <= i < n ==> !IsSpace(s[i])
    ensures n < |s| ==> IsSpace(s[n])
    decreases |s|
  {
    if |s| == 0 || IsSpace(s[0]) then 0 else 1 + WordLength(s[1..])
  }

  /** The whitespace-free prefix of a string that starts with a non-space is a word. */
  lemma LeadingWord(t: string)
    requires |t| >= 1 && !IsSpace(t[0])
    ensures WordLength(t) >= 1 && IsWord(t[..WordLength(t)])
  {
    var n := WordLength(t);
    assert forall i :: 0 <= i < n ==> t[..n][i] == t[i];
  }

  /** Python's `s.split()`: the maximal whitespace-free runs of `s`, in order. */
  function SplitWords(s: string): seq<string>
    decreases |s|
  {
    var t := DropSpaces(s);
    if t == [] then []
    else [t[..WordLength(t)]] + SplitWords(t[WordLength(t)..])
  }

  /** Every token `split()` produces is a word. */
  lemma {:induction false} SplitWordsAreWords(s: string)
    ensures forall i :: 0 <= i < |SplitWords(s)| ==> IsWord(SplitWords(s)[i])
    decreases |s|
  {
    var t := DropSpaces(s);
    if t != [] {
      LeadingWord(t);
      var rest := t[WordLength(t)..];
      SplitWordsAreWords(rest);
      var ws := SplitWords(s);
      var tail := SplitWords(rest);
      assert ws == [t[..WordLength(t)]] + tail;
      forall i | 0 <= i < |ws|
        ensures IsWord(ws[i])
      {
        if i > 0 {
          assert ws[i] == tail[i - 1];
        }
      }
    }
  }

  lemma WordLengthOfWordThenSpace(w: string, rest: string)
    requires IsWord(w)
    requires |rest| >= 1 && IsSpace(rest[0])
    ensures WordLength(w + rest) == |w|
  {
    var s := w + rest;
    assert s[|w|] == rest[0];
    assert forall i :: 0 <= i < |w| ==> s[i] == w[i];
  }

  /** A word followed by whitespace splits off as the first token. */
  lemma SplitLeadingWord(w: string, rest: string)
    requires IsWord(w)
    requires |rest| >= 1 && IsSpace(rest[0])
    ensures SplitWords(w + rest) == [w] + SplitWords(rest)
  {
    var s := w + rest;
    assert DropSpaces(s) == s by { assert s[0] == w[0]; }
    WordLengthOfWordThenSpace(w, rest);
    assert s[..|w|] == w;
    assert s[|w|..] == rest;
  }

  /** A single leading space in front of a non-space is skipped. */
  lemma SplitSkipsSpace(tail: string)
    requires |tail| >= 1 && !IsSpace(tail[0])
    ensures SplitWords(" " + tail) == SplitWords(tail)
  {
    assert (" " + tail)[1..] == tail;
    assert DropSpaces(" " + tail) == tail;
  }

  /** A single word splits into itself. */
  lemma SplitSingleWord(w: string)
    requires IsWord(w)
    ensures SplitWords(w) == [w]
  {
    assert DropSpaces(w) == w;
    assert WordLength(w) == |w|;
    assert w[|w|..] == [];
    assert w[..|w|] == w;
  }

  /** The inductive step: if the words after the first round-trip, so do all of them. */
  lemma SplitJoinStep(ws: seq<string>)
    requires |ws| >= 2 && IsWord(ws[0]) && IsWord(ws[1])
    requires SplitWords(Join(" ", ws[1..])) == ws[1..]
    ensures SplitWords(Join(" ", ws)) == ws
  {
    var tail := Join(" ", ws[1..]);
    assert Join(" ", ws) == ws[0] + (" " + tail);
    SplitLeadingWord(ws[0], " " + tail);
    JoinHeadIsWordStart(ws[1..]);
    SplitSkipsSpace(tail);
    assert [ws[0]] + ws[1..] == ws;
  }

  /** Splitting words joined by single spaces gives the words back. */
  lemma {:induction false} SplitJoinRoundTrip(ws: seq<string>)
    requires forall i :: 0 <= i < |ws| ==> IsWord(ws[i])
    ensures SplitWords(Join(" ", ws)) == ws
    decreases |ws|
  {
    if |ws| == 1 {
      SplitSingleWord(ws[0]);
    } else if |ws| >= 2 {
      SplitJoinRoundTrip(ws[1..]);
      SplitJoinStep(ws);
    }
  }

  /** A run of whitespace, possibly empty. */
  predicate AllSpace(s: string) {
    forall i :: 0 <= i < |s| ==> IsSpace(s[i])
  }

  /** The words with the separators between them: `ws[0] + seps[0] + ws[1] + ...`. */
  function Interleave(ws: seq<string>, seps: seq<string>): string
    requires |ws| >= 1 && |seps| == |ws| - 1
    decreases |ws|
  {
    if |ws| == 1 then ws[0] else ws[0] + seps[0] + Interleave(ws[1..], seps[1..])
  }

  /** Leading whitespace, however long, is skipped. */
  lemma {:induction false} DropLeadingSpace(p: string, t: string)
    requires AllSpace(p)
    ensures DropSpaces(p + t) == DropSpaces(t)
    decreases |p|
  {
    if |p| == 0 {
      assert p + t == t;
    } else {
      assert (p + t)[0] == p[0];
      assert (p + t)[1..] == p[1..] + t;
      DropLeadingSpace(p[1..], t);
    }
  }

  lemma SplitSkipsLeadingSpace(p: string, t: string)
    requires AllSpace(p)
    ensures SplitWords(p + t) == SplitWords(t)
  {
    DropLeadingSpace(p, t);
  }

  /** A string of whitespace only, the empty string included, has no words. */
  lemma AllSpaceSplitsToNothing(p: string)
    requires AllSpace(p)
    ensures SplitWords(p) == []
  {
    DropLeadingSpace(p, []);
    assert p + [] == p;
  }

  /** A single word followed by whitespace splits into itself. */
  lemma SplitWordThenSpace(w: string, post: string)
    requires IsWord(w) && AllSpace(post)
    ensures SplitWords(w + post) == [w]
  {
    if |post| == 0 {
      assert w + post == w;
      SplitSingleWord(w);
    } else {
      SplitLeadingWord(w, post);
      AllSpaceSplitsToNothing(post);
    }
  }

  /** The inductive step of `SplitSpacedWords`: the first word splits off in front of
      its separator. */
  lemma SplitSpacedStep(ws: seq<string>, seps: seq<string>, post: string)
    requires |ws| >= 2 && |seps| == |ws| - 1 && IsWord(ws[0])
    requires |seps[0]| >= 1 && IsSpace(seps[0][0])
    requires SplitWords(seps[0] + Interleave(ws[1..], seps[1..]) + post) == ws[1..]
    ensures SplitWords(Interleave(ws, seps) + post) == ws
  {
    var rest := seps[0] + Interleave(ws[1..], seps[1..]) + post;
    assert Interleave(ws, seps) + post == ws[0] + rest;
    assert rest[0] == seps[0][0];
    SplitLeadingWord(ws[0], rest);
    assert [ws[0]] + ws[1..] == ws;
  }

  /** `str.split()` recovers the words from any whitespace layout: leading and
      trailing runs of any length, and any non-empty run of any whitespace characters
      between two words. */
  lemma {:induction false} SplitSpacedWords(pre: string, ws: seq<string>, seps: seq<string>, post: string)
    requires AllSpace(pre) && AllSpace(post)
    requires |ws| >= 1 && |seps| == |ws| - 1
    requires forall i :: 0 <= i < |ws| ==> IsWord(ws[i])
    requires forall i :: 0 <= i < |seps| ==> |seps[i]| >= 1 && AllSpace(seps[i])
    ensures SplitWords(pre + Interleave(ws, seps) + post) == ws
    decreases |ws|
  {
    var body := Interleave(ws, seps) + post;
    assert pre + Interleave(ws, seps) + post == pre + body;
    SplitSkipsLeadingSpace(pre, body);
    if |ws| == 1 {
      SplitWordThenSpace(ws[0], post);
    } else {
      SplitSpacedWords(seps[0], ws[1..], seps[1..], post);
      SplitSpacedStep(ws, seps, post);
    }
  }

  lemma {:induction false} JoinHeadIsWordStart(ws: seq<string>)
    requires |ws| >= 1 && IsWord(ws[0])
    ensures |Join(" ", ws)| >= 1 && Join(" ", ws)[0] == ws[0][0]
  {
  }
}

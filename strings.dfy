/** The pieces of Rust's standard text handling that the core relies on:
    `format!("{}", n)` for unsigned integers, `str::rfind`, `str::lines`,
    `str::trim` and `[&str]::join`. Strings are sequences of characters; only
    ASCII ever reaches these functions in the core. */
module Strings {
  import opened Wrappers

  predicate IsDigit(c: char) { '0' <= c <= '9' }

  /** ASCII whitespace as `char::is_whitespace` sees it: tab, line feed,
      vertical tab, form feed, carriage return and space. */
  predicate IsSpace(c: char) { '\t' <= c <= '\r' || c == ' ' }

  predicate AllDigits(s: string) { forall i :: 0 <= i < |s| ==> IsDigit(s[i]) }

  function DigitChar(d: nat): (c: char)
    requires d < 10
    ensures IsDigit(c) && c as int - '0' as int == d
  {
    ('0' as int + d) as char
  }

  function DigitValue(c: char): nat
    requires IsDigit(c)
  {
    c as int - '0' as int
  }

  /** `format!("{}", n)` for an unsigned integer: its decimal digits, without
      sign and without leading zeros. */
  function Dec(n: nat): (s: string)
    ensures 1 <= |s| && AllDigits(s)
    ensures s[0] == '0' <==> n == 0
    decreases n
  {
    if n < 10 then [DigitChar(n)] else Dec(n / 10) + [DigitChar(n % 10)]
  }

  /** The value of a string of decimal digits. */
  function DecValue(s: string): nat
    requires AllDigits(s)
    decreases |s|
  {
    if s == [] then 0 else DecValue(s[..|s| - 1]) * 10 + DigitValue(s[|s| - 1])
  }

  /** Reading back what `Dec` writes gives the number again. */
  lemma {:induction false} DecRoundTrip(n: nat)
    ensures DecValue(Dec(n)) == n
    decreases n
  {
    if n >= 10 {
      DecRoundTrip(n / 10);
      var s := Dec(n);
      assert s[..|s| - 1] == Dec(n / 10);
    }
  }

  /** Different numbers are written differently. */
  lemma DecInjective(m: nat, n: nat)
    ensures Dec(m) == Dec(n) <==> m == n
  {
    if Dec(m) == Dec(n) {
      DecRoundTrip(m);
      DecRoundTrip(n);
    }
  }

  /** Numbers below 1000 take at most three digits; below 10, exactly one. */
  lemma {:induction false} DecLength(n: nat)
    ensures n < 10 ==> |Dec(n)| == 1
    ensures n < 100 ==> |Dec(n)| <= 2
    ensures n < 1000 ==> |Dec(n)| <= 3
  {
    if n >= 10 {
      DecLength(n / 10);
    }
  }

  /** The length of the run of digits that `s` begins with. */
  function DigitRun(s: string): (k: nat)
    ensures k <= |s| && AllDigits(s[..k])
    decreases |s|
  {
    if s != [] && IsDigit(s[0]) then 1 + DigitRun(s[1..]) else 0
  }

  /** Digits followed by a non-digit: the run is exactly the digits. */
  lemma {:induction false} DigitRunOf(a: string, b: string)
    requires AllDigits(a) && (b == [] || !IsDigit(b[0]))
    ensures DigitRun(a + b) == |a|
    decreases |a|
  {
    if a != [] {
      assert (a + b)[1..] == a[1..] + b;
      DigitRunOf(a[1..], b);
    } else {
      assert a + b == b;
    }
  }

  /** The number that `s` begins with, and what follows its digits. */
  function ReadDec(s: string): (nat, string)
  {
    var k := DigitRun(s);
    (DecValue(s[..k]), s[k..])
  }

  /** `ReadDec` takes back what `Dec` wrote, up to the first non-digit. */
  lemma ReadDecOf(n: nat, rest: string)
    requires rest == [] || !IsDigit(rest[0])
    ensures ReadDec(Dec(n) + rest) == (n, rest)
  {
    DigitRunOf(Dec(n), rest);
    assert (Dec(n) + rest)[..|Dec(n)|] == Dec(n);
    assert (Dec(n) + rest)[|Dec(n)|..] == rest;
    DecRoundTrip(n);
  }

  /** A number written by `Dec` and followed by a separator `c` and more
      text reads back as the number, leaving the text after the separator. */
  lemma ReadDecThen(n: nat, c: char, rest: string)
    requires !IsDigit(c)
    ensures ReadDec(Dec(n) + [c] + rest).0 == n
    ensures ReadDec(Dec(n) + [c] + rest).1 == [c] + rest
  {
    assert Dec(n) + [c] + rest == Dec(n) + ([c] + rest);
    ReadDecOf(n, [c] + rest);
  }

  /** `s.rfind(c)`: the index of the last occurrence of `c` in `s`. */
  function RFind(s: string, c: char): (r: Option<nat>)
    ensures r.Some? ==> r.value < |s| && s[r.value] == c
    ensures r.Some? ==> forall k :: r.value < k < |s| ==> s[k] != c
    ensures r.None? <==> c !in s
    decreases |s|
  {
    if s == [] then None
    else if s[|s| - 1] == c then Some(|s| - 1)
    else
      assert s == s[..|s| - 1] + [s[|s| - 1]];
      RFind(s[..|s| - 1], c)
  }

  /** The number of occurrences of `c` in `s`. */
  function Count(s: string, c: char): nat
    decreases |s|
  {
    if s == [] then 0 else Count(s[..|s| - 1], c) + (if s[|s| - 1] == c then 1 else 0)
  }

  lemma {:induction false} CountAppend(a: string, b: string, c: char)
    ensures Count(a + b, c) == Count(a, c) + Count(b, c)
    decreases |b|
  {
    if b != [] {
      assert (a + b)[..|a + b| - 1] == a + b[..|b| - 1];
      CountAppend(a, b[..|b| - 1], c);
    } else {
      assert a + b == a;
    }
  }

  lemma {:induction false} CountAbsent(s: string, c: char)
    requires c !in s
    ensures Count(s, c) == 0
    decreases |s|
  {
    if s != [] {
      assert c !in s[..|s| - 1];
      CountAbsent(s[..|s| - 1], c);
    }
  }

  /** The index of the first line feed of `s`, or |s| when there is none. */
  function LineEnd(s: string): (i: nat)
    ensures i <= |s| && '\n' !in s[..i]
    ensures i < |s| ==> s[i] == '\n'
    decreases |s|
  {
    if s == [] || s[0] == '\n' then 0
    else
      var j := LineEnd(s[1..]);
      assert s[..j + 1] == [s[0]] + s[1..][..j];
      j + 1
  }

  /** `s.lines()`: the pieces between line feeds; a final line feed ends the
      last line rather than starting an empty one, and "" has no lines. */
  function Lines(s: string): (ls: seq<string>)
    ensures forall i :: 0 <= i < |ls| ==> '\n' !in ls[i]
    decreases |s|
  {
    if s == [] then []
    else
      var i := LineEnd(s);
      if i == |s| then [s] else [s[..i]] + Lines(s[i + 1..])
  }

  /** `s.trim_start()`. */
  function TrimStart(s: string): (r: string)
    ensures |r| <= |s| && r == s[|s| - |r|..]
    ensures forall k :: 0 <= k < |s| - |r| ==> IsSpace(s[k])
    ensures r == [] || !IsSpace(r[0])
    decreases |s|
  {
    if s != [] && IsSpace(s[0]) then TrimStart(s[1..]) else s
  }

  /** `s.trim_end()`. */
  function TrimEnd(s: string): (r: string)
    ensures |r| <= |s| && r == s[..|r|]
    ensures forall k :: |r| <= k < |s| ==> IsSpace(s[k])
    ensures r == [] || !IsSpace(r[|r| - 1])
    decreases |s|
  {
    if s != [] && IsSpace(s[|s| - 1]) then TrimEnd(s[..|s| - 1]) else s
  }

  /** `s.trim()`. */
  function Trim(s: string): string
  {
    TrimEnd(TrimStart(s))
  }

  /** A string is trimmed when it neither begins nor ends with whitespace. */
  predicate Trimmed(s: string)
  {
    s == [] || (!IsSpace(s[0]) && !IsSpace(s[|s| - 1]))
  }

  /** Trimming yields a trimmed piece of the string, and leaves a trimmed
      string as it is; hence trimming twice is trimming once. */
  lemma TrimSpec(s: string)
    ensures Trimmed(Trim(s))
    ensures Trimmed(s) ==> Trim(s) == s
    ensures Trim(Trim(s)) == Trim(s)
    ensures forall c :: c in Trim(s) ==> c in s
  {
    var t := TrimStart(s);
    var r := TrimEnd(t);
    assert r == [] || r[0] == t[0];
    forall c | c in r ensures c in s {
      var k :| 0 <= k < |r| && r[k] == c;
      assert t[k] == c;
      assert s[|s| - |t| + k] == c;
    }
  }

  /** The trimmed form of every line. */
  function TrimAll(ls: seq<string>): (ts: seq<string>)
    ensures |ts| == |ls|
    ensures forall i :: 0 <= i < |ls| ==> ts[i] == Trim(ls[i])
  {
    seq(|ls|, i requires 0 <= i < |ls| => Trim(ls[i]))
  }

  /** `ls.join(sep)`. */
  function Join(ls: seq<string>, sep: string): string
    decreases |ls|
  {
    if |ls| == 0 then [] else if |ls| == 1 then ls[0] else ls[0] + sep + Join(ls[1..], sep)
  }

  /** A line followed by a line feed is the first line of what it starts. */
  lemma LinesCons(a: string, b: string)
    requires '\n' !in a
    ensures Lines(a + "\n" + b) == [a] + Lines(b)
  {
    var s := a + "\n" + b;
    LineEndAt(a, b);
    assert s[..|a|] == a;
    assert s[|a| + 1..] == b;
  }

  lemma {:induction false} LineEndAt(a: string, b: string)
    requires '\n' !in a
    ensures LineEnd(a + "\n" + b) == |a|
    decreases |a|
  {
    if a != [] {
      assert (a + "\n" + b)[1..] == a[1..] + "\n" + b;
      LineEndAt(a[1..], b);
    }
  }

  /** Text that is empty or ends with a line feed splits into lines on its
      own: the lines of X + Y are those of X followed by those of Y. */
  lemma {:induction false} LinesAppend(x: string, y: string)
    requires x == [] || x[|x| - 1] == '\n'
    ensures Lines(x + y) == Lines(x) + Lines(y)
    decreases |x|
  {
    if x != [] {
      var i := LineEnd(x);
      var rest := x[i + 1..];
      FirstLineSplit(x, i);
      LinesAppend(rest, y);
      LinesConsAppend(x[..i], rest, y);
    } else {
      assert x + y == y;
    }
  }

  lemma AppendAssoc<T>(p: seq<T>, q: seq<T>, r: seq<T>)
    ensures (p + q) + r == p + (q + r)
  {
  }

  lemma FirstLineSplit(x: string, i: nat)
    requires x != [] && x[|x| - 1] == '\n'
    requires i == LineEnd(x)
    ensures i < |x| && '\n' !in x[..i] && x == x[..i] + "\n" + x[i + 1..]
    ensures x[i + 1..] == [] || x[i + 1..][|x[i + 1..]| - 1] == '\n'
  {
  }

  lemma LinesConsAppend(a: string, rest: string, y: string)
    requires '\n' !in a
    requires Lines(rest + y) == Lines(rest) + Lines(y)
    ensures Lines(a + "\n" + rest + y) == Lines(a + "\n" + rest) + Lines(y)
  {
    var s1, s2 := a + "\n" + rest, a + "\n" + (rest + y);
    assert s1 + y == s2;
    LinesCons(a, rest);
    LinesCons(a, rest + y);
    AppendAssoc([a], Lines(rest), Lines(y));
  }

  /** Ending a join of two or more lines with a line feed: the first line,
      a line feed, then the rest joined and ended the same way. */
  lemma JoinNewline(ls: seq<string>)
    requires |ls| >= 2
    ensures Join(ls, "\n") + "\n" == ls[0] + "\n" + (Join(ls[1..], "\n") + "\n")
  {
    var j := Join(ls[1..], "\n");
    assert Join(ls, "\n") == ls[0] + "\n" + j;
    assert ls[0] + "\n" + j + "\n" == ls[0] + "\n" + (j + "\n");
  }

  /** Joining lines that hold no line feed with "\n" and ending the text with
      one more "\n" gives back exactly those lines. */
  lemma {:induction false} LinesOfJoin(ls: seq<string>)
    requires |ls| >= 1
    requires forall i :: 0 <= i < |ls| ==> '\n' !in ls[i]
    ensures Lines(Join(ls, "\n") + "\n") == ls
    decreases |ls|
  {
    if |ls| == 1 {
      LinesCons(ls[0], "");
    } else {
      LinesOfJoin(ls[1..]);
      LinesOfJoinStep(ls);
    }
  }

  /** The inductive step of LinesOfJoin: a first line without a line feed
      comes back in front of the lines of the rest. */
  lemma LinesOfJoinStep(ls: seq<string>)
    requires |ls| >= 2 && '\n' !in ls[0]
    requires Lines(Join(ls[1..], "\n") + "\n") == ls[1..]
    ensures Lines(Join(ls, "\n") + "\n") == ls
  {
    var head, tail := ls[0], Join(ls[1..], "\n") + "\n";
    JoinNewline(ls);
    LinesCons(head, tail);
    assert [head] + ls[1..] == ls;
  }

  /** Lines that are trimmed already are left as they are. */
  lemma AllTrimmed(ls: seq<string>)
    requires forall i :: 0 <= i < |ls| ==> Trimmed(ls[i])
    ensures TrimAll(ls) == ls
  {
    forall i | 0 <= i < |ls| ensures TrimAll(ls)[i] == ls[i] {
      TrimSpec(ls[i]);
    }
  }

  /** Trimming line by line commutes with putting line lists together. */
  lemma TrimAllAppend(a: seq<string>, b: seq<string>)
    ensures TrimAll(a + b) == TrimAll(a) + TrimAll(b)
  {
  }

  /** Joining one more piece appends the separator and that piece. */
  lemma {:induction false} JoinSnoc(ls: seq<string>, x: string, sep: string)
    requires |ls| >= 1
    ensures Join(ls + [x], sep) == Join(ls, sep) + sep + x
    decreases |ls|
  {
    if |ls| > 1 {
      assert (ls + [x])[1..] == ls[1..] + [x];
      JoinSnoc(ls[1..], x, sep);
    } else {
      assert (ls + [x])[1..] == [x];
    }
  }

  /** Joining in front of at least one piece puts the separator after it. */
  lemma JoinFront(x: string, ls: seq<string>, sep: string)
    requires |ls| >= 1
    ensures Join([x] + ls, sep) == x + sep + Join(ls, sep)
  {
    assert ([x] + ls)[1..] == ls;
  }

  /** A space after trimmed, non-empty text is exactly what trimming drops. */
  lemma TrimTrailingSpace(s: string)
    requires s != [] && Trimmed(s)
    ensures Trim(s + " ") == s
  {
    assert TrimStart(s + " ") == s + " ";
    assert (s + " ")[..|s|] == s;
    assert TrimEnd(s + " ") == TrimEnd(s);
  }
}

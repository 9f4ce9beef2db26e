/** The Python string operations the services rely on: `str.isspace`,
    `strip()`, `split()` with no separator, `lower()`/`upper()`, reading a
    text file with `readlines()`, and splitting at one character. */
module Text {

  /** Python's `str.isspace` for one character: the characters `strip()` and
      `split()` treat as whitespace. */
  predicate IsSpace(c: char) {
    || ('\t' <= c <= '\r')            // \t \n \x0b \x0c \r
    || ('\U{1C}' <= c <= '\U{1F}')    // file, group, record and unit separators
    || c == ' ' || c == '\U{85}' || c == '\U{A0}' || c == '\U{1680}'
    || ('\U{2000}' <= c <= '\U{200A}')
    || c == '\U{2028}' || c == '\U{2029}' || c == '\U{202F}' || c == '\U{205F}' || c == '\U{3000}'
  }

  /** A token as `split()` yields it: non-empty and free of whitespace. */
  predicate IsToken(t: string) {
    |t| > 0 && forall i :: 0 <= i < |t| ==> !IsSpace(t[i])
  }

  // ---------------------------------------------------------------- strip

  /** Index of the first non-space character of `s` at or after `i`, or `|s|`. */
  function FirstNonSpace(s: string, i: nat): (n: nat)
    requires i <= |s|
    ensures i <= n <= |s|
    ensures forall k :: i <= k < n ==> IsSpace(s[k])
    ensures n == |s| || !IsSpace(s[n])
    decreases |s| - i
  {
    if i < |s| && IsSpace(s[i]) then FirstNonSpace(s, i + 1) else i
  }

  /** One past the last non-space character of `s` before `j`, or 0. */
  function LastNonSpace(s: string, j: nat): (n: nat)
    requires j <= |s|
    ensures n <= j
    ensures forall k :: n <= k < j ==> IsSpace(s[k])
    ensures n == 0 || !IsSpace(s[n - 1])
  {
    if 0 < j && IsSpace(s[j - 1]) then LastNonSpace(s, j - 1) else j
  }

  /** `s.lstrip()` */
  function StripLeft(s: string): (r: string)
    ensures |r| <= |s|
    ensures r == s[FirstNonSpace(s, 0)..]
    ensures forall i :: 0 <= i < |s| - |r| ==> IsSpace(s[i])
    ensures r == [] || !IsSpace(r[0])
  {
    var n := FirstNonSpace(s, 0);
    seq(|s| - n, k requires 0 <= k < |s| - n => s[n + k])
  }

  /** `s.rstrip()` */
  function StripRight(s: string): (r: string)
    ensures |r| <= |s| && r == s[..|r|]
    ensures forall i :: |r| <= i < |s| ==> IsSpace(s[i])
    ensures r == [] || !IsSpace(r[|r| - 1])
  {
    s[..LastNonSpace(s, |s|)]
  }

  /** `s.strip()`: the string without its leading and trailing whitespace.
      The result is the slice of `s` that starts at its first non-space
      character, and everything outside that slice is whitespace. */
  function Strip(s: string): (r: string)
    ensures r == [] || (!IsSpace(r[0]) && !IsSpace(r[|r| - 1]))
    ensures FirstNonSpace(s, 0) + |r| <= |s|
    ensures r == s[FirstNonSpace(s, 0)..FirstNonSpace(s, 0) + |r|]
    ensures forall i :: 0 <= i < |s| && (i < FirstNonSpace(s, 0) || FirstNonSpace(s, 0) + |r| <= i) ==> IsSpace(s[i])
  {
    StripSlice(s);
    StripRight(StripLeft(s))
  }

  lemma {:induction false} StripSlice(s: string)
    ensures var n := FirstNonSpace(s, 0); var r := StripRight(StripLeft(s));
      && n + |r| <= |s|
      && r == s[n..n + |r|]
      && forall i :: n + |r| <= i < |s| ==> IsSpace(s[i])
  {
    var n := FirstNonSpace(s, 0);
    var l := StripLeft(s);
    var r := StripRight(l);
    assert l == s[n..] && r == l[..|r|];
    assert s[n..][..|r|] == s[n..n + |r|];
    forall i | n + |r| <= i < |s| ensures IsSpace(s[i]) {
      assert s[i] == l[i - n];
    }
  }

  /** Stripping removes only the whitespace run at each end: a string that
      begins and ends with a non-space character is its own strip. */
  lemma {:induction false} StripKeepsTrimmed(s: string)
    requires s != [] && !IsSpace(s[0]) && !IsSpace(s[|s| - 1])
    ensures Strip(s) == s
  {
  }

  /** A string that is all whitespace strips to the empty string. */
  lemma {:induction false} StripBlank(s: string)
    requires forall i :: 0 <= i < |s| ==> IsSpace(s[i])
    ensures Strip(s) == []
  {
    var l := StripLeft(s);
    if l != [] {
      assert false;
    }
  }

  /** Stripping twice strips nothing more. */
  lemma {:induction false} StripIdempotent(s: string)
    ensures Strip(Strip(s)) == Strip(s)
  {
    var r := Strip(s);
    if r != [] { StripKeepsTrimmed(r); }
  }

  // ---------------------------------------------------------------- split

  /** Length of the run of non-space characters at the start of `s`. */
  function TokenLength(s: string): (n: nat)
    ensures n <= |s|
    ensures forall i :: 0 <= i < n ==> !IsSpace(s[i])
    ensures n == |s| || IsSpace(s[n])
  {
    if s == [] || IsSpace(s[0]) then 0 else 1 + TokenLength(s[1..])
  }

  /** `s.split()`: the maximal runs of non-space characters, in order. */
  function Split(s: string): (r: seq<string>)
    ensures forall k :: 0 <= k < |r| ==> IsToken(r[k])
    decreases |s|
  {
    if s == [] then []
    else if IsSpace(s[0]) then Split(s[1..])
    else
      var n := TokenLength(s);
      [s[..n]] + Split(s[n..])
  }

  /** The token at the head of `t + rest` is all of `t` when `rest` is empty
      or begins with whitespace. */
  lemma {:induction false} TokenLengthOfToken(t: string, rest: string)
    requires IsToken(t)
    requires rest == [] || IsSpace(rest[0])
    ensures TokenLength(t + rest) == |t|
  {
    var s := t + rest;
    assert forall i :: 0 <= i < |t| ==> s[i] == t[i];
    assert rest != [] ==> s[|t|] == rest[0];
  }

  /** A token followed by whitespace (or nothing) is the first piece `split()` yields. */
  lemma {:induction false} SplitHeadToken(t: string, rest: string)
    requires IsToken(t)
    requires rest == [] || IsSpace(rest[0])
    ensures Split(t + rest) == [t] + Split(rest)
  {
    var s := t + rest;
    TokenLengthOfToken(t, rest);
    assert s[0] == t[0];
    assert s[..|t|] == t;
    assert s[|t|..] == rest;
  }

  /** Leading whitespace does not change the tokens. */
  lemma {:induction false} SplitSkipsSpaces(w: string, s: string)
    requires forall i :: 0 <= i < |w| ==> IsSpace(w[i])
    ensures Split(w + s) == Split(s)
  {
    if w == [] {
      assert w + s == s;
    } else {
      assert (w + s)[0] == w[0];
      assert (w + s)[1..] == w[1..] + s;
      SplitSkipsSpaces(w[1..], s);
    }
  }

  /** One token alone splits to itself. */
  lemma {:induction false} SplitToken(t: string)
    requires IsToken(t)
    ensures Split(t) == [t]
  {
    SplitHeadToken(t, []);
    assert t + [] == t;
  }

  /** Two tokens joined by a space split back into those two tokens: the
      round trip of a watchlist line. */
  lemma {:induction false} SplitPair(a: string, b: string)
    requires IsToken(a) && IsToken(b)
    ensures Split(a + " " + b) == [a, b]
  {
    assert a + " " + b == a + (" " + b);
    SplitHeadToken(a, " " + b);
    SplitSkipsSpaces(" ", b);
    SplitToken(b);
  }

  /** Whatever follows the second token after whitespace, the first two
      tokens `split()` yields are the same. */
  lemma {:induction false} SplitPairThenMore(a: string, b: string, more: string)
    requires IsToken(a) && IsToken(b)
    requires more == [] || IsSpace(more[0])
    ensures Split(a + " " + b + more) == [a, b] + Split(more)
  {
    var tail := " " + (b + more);
    assert a + " " + b + more == a + tail;
    assert Split(a + tail) == [a] + Split(tail) by {
      assert tail[0] == ' ';
      SplitHeadToken(a, tail);
    }
    assert Split(tail) == [b] + Split(more) by {
      SplitSpaceThenToken(b, more);
    }
    ConcatAssoc([a], [b], Split(more));
    assert [a] + [b] == [a, b];
  }

  lemma {:induction false} SplitSpaceThenToken(b: string, more: string)
    requires IsToken(b)
    requires more == [] || IsSpace(more[0])
    ensures Split(" " + (b + more)) == [b] + Split(more)
  {
    SplitSkipsSpaces(" ", b + more);
    SplitHeadToken(b, more);
  }

  /** Nothing but whitespace yields no tokens. */
  lemma {:induction false} SplitBlank(w: string)
    requires forall i :: 0 <= i < |w| ==> IsSpace(w[i])
    ensures Split(w) == []
  {
    SplitSkipsSpaces(w, []);
    assert w + [] == w;
  }

  /** Trailing whitespace does not change the tokens. */
  lemma {:induction false} SplitTrailingSpaces(s: string, w: string)
    requires forall i :: 0 <= i < |w| ==> IsSpace(w[i])
    ensures Split(s + w) == Split(s)
    decreases |s|
  {
    if s == [] {
      assert s + w == w;
      SplitBlank(w);
    } else if IsSpace(s[0]) {
      assert (s + w)[0] == s[0];
      assert (s + w)[1..] == s[1..] + w;
      SplitTrailingSpaces(s[1..], w);
    } else {
      var n := TokenLength(s);
      assert forall i :: 0 <= i < |s| ==> (s + w)[i] == s[i];
      assert n == |s| && w != [] ==> (s + w)[n] == w[0];
      assert TokenLength(s + w) == n;
      assert (s + w)[..n] == s[..n];
      assert (s + w)[n..] == s[n..] + w;
      SplitTrailingSpaces(s[n..], w);
    }
  }

  /** `s.strip().split()` and `s.split()` yield the same tokens. */
  lemma {:induction false} SplitStrip(s: string)
    ensures Split(Strip(s)) == Split(s)
  {
    var l := StripLeft(s);
    var r := StripRight(l);
    assert Split(s) == Split(l) by { SplitLeadingBlank(s); }
    assert Split(l) == Split(r) by { SplitTrailingBlank(l); }
  }

  /** `s.lstrip()` drops only what `split()` skips anyway. */
  lemma {:induction false} SplitLeadingBlank(s: string)
    ensures Split(s) == Split(StripLeft(s))
  {
    var l := StripLeft(s);
    var lead := s[..|s| - |l|];
    assert s == lead + l;
    assert forall i :: 0 <= i < |lead| ==> IsSpace(lead[i]);
    SplitSkipsSpaces(lead, l);
  }

  /** `s.rstrip()` drops only what `split()` skips anyway. */
  lemma {:induction false} SplitTrailingBlank(l: string)
    ensures Split(l) == Split(StripRight(l))
  {
    var r := StripRight(l);
    var tail := l[|r|..];
    assert l == r + tail;
    assert forall i :: 0 <= i < |tail| ==> IsSpace(tail[i]) by {
      forall i | 0 <= i < |tail| ensures IsSpace(tail[i]) {
        assert tail[i] == l[|r| + i];
      }
    }
    SplitTrailingSpaces(r, tail);
  }

  // ---------------------------------------------------------------- readlines

  /** Index of the first line break ('\n' or '\r'), or `|s|` when there is none. */
  function BreakIndex(s: string): (n: nat)
    ensures n <= |s|
    ensures forall i :: 0 <= i < n ==> s[i] != '\n' && s[i] != '\r'
    ensures n < |s| ==> s[n] == '\n' || s[n] == '\r'
  {
    if s == [] || s[0] == '\n' || s[0] == '\r' then 0 else 1 + BreakIndex(s[1..])
  }

  /** `file.readlines()` on a file opened in text mode with universal newlines:
      '\n', '\r' and "\r\n" each end a line and are read back as '\n'; a last
      line without a break is returned as it is. */
  function Lines(s: string): (r: seq<string>)
    ensures s == [] <==> r == []
    decreases |s|
  {
    if s == [] then []
    else
      var n := BreakIndex(s);
      if n == |s| then [s]
      else [s[..n] + "\n"] + Lines(s[LineEnd(s, n)..])
  }

  /** Where the line broken at `n` ends: past "\r\n", or past the single break. */
  function LineEnd(s: string, n: nat): (e: nat)
    requires n < |s|
    ensures n < e <= |s|
  {
    if s[n] == '\r' && n + 1 < |s| && s[n + 1] == '\n' then n + 2 else n + 1
  }

  /** True when the text is empty or its last character is '\n', so that the
      next write starts a fresh line. */
  predicate EndsWithNewline(s: string) {
    s == [] || s[|s| - 1] == '\n'
  }

  /** Appending to text that ends with '\n' appends lines and touches none of the earlier ones. */
  lemma {:induction false} LinesAppend(a: string, b: string)
    requires EndsWithNewline(a)
    ensures Lines(a + b) == Lines(a) + Lines(b)
    decreases |a|
  {
    if a == [] {
      assert a + b == b;
    } else {
      var n := BreakIndex(a);
      assert n < |a| by { BreakBeforeEnd(a); }
      var e := LineEnd(a, n);
      var first := [a[..n] + "\n"];
      var rest := a[e..];
      assert Lines(a) == first + Lines(rest) && Lines(a + b) == first + Lines(rest + b) && EndsWithNewline(rest) by {
        var n', e' := FirstLineOfPrefix(a, b);
      }
      assert Lines(rest + b) == Lines(rest) + Lines(b) by { LinesAppend(rest, b); }
      ConcatAssoc(first, Lines(rest), Lines(b));
    }
  }

  lemma ConcatAssoc<T>(x: seq<T>, y: seq<T>, z: seq<T>)
    ensures x + (y + z) == (x + y) + z
  {
  }

  /** The first line of `a + b` is the first line of `a` when `a` ends with '\n'. */
  lemma {:induction false} FirstLineOfPrefix(a: string, b: string) returns (n: nat, e: nat)
    requires a != [] && EndsWithNewline(a)
    ensures n == BreakIndex(a) && n < |a| && e == LineEnd(a, n) && EndsWithNewline(a[e..])
    ensures Lines(a) == [a[..n] + "\n"] + Lines(a[e..])
    ensures Lines(a + b) == [a[..n] + "\n"] + Lines(a[e..] + b)
  {
    var s := a + b;
    n := BreakIndex(a);
    BreakBeforeEnd(a);
    BreakIndexPrefix(a, b);
    assert s[..n] == a[..n];
    e := LineEnd(a, n);
    assert LineEnd(s, n) == e by {
      if a[n] == '\r' { assert n + 1 < |a|; assert s[n + 1] == a[n + 1]; }
    }
    assert s[e..] == a[e..] + b;
  }

  /** Text that ends with '\n' has a line break before its end. */
  lemma {:induction false} BreakBeforeEnd(a: string)
    requires a != [] && EndsWithNewline(a)
    ensures BreakIndex(a) < |a|
  {
    assert a[|a| - 1] == '\n';
  }

  /** The first break of `a + b` is the first break of `a` when `a` has one. */
  lemma {:induction false} BreakIndexPrefix(a: string, b: string)
    requires BreakIndex(a) < |a|
    ensures BreakIndex(a + b) == BreakIndex(a)
  {
    assert forall i :: 0 <= i < |a| ==> (a + b)[i] == a[i];
  }

  /** A line written with one trailing '\n' and no break inside reads back as one line. */
  lemma {:induction false} LinesOfOneLine(s: string)
    requires forall i :: 0 <= i < |s| ==> s[i] != '\n' && s[i] != '\r'
    ensures Lines(s + "\n") == [s + "\n"]
  {
    var t := s + "\n";
    assert forall i :: 0 <= i < |s| ==> t[i] == s[i];
    assert t[|s|] == '\n';
    var n := BreakIndex(t);
    assert n == |s|;
    assert t[..n] == s;
    assert t[n + 1..] == [];
  }

  // ---------------------------------------------------------------- case

  predicate IsUpperLetter(c: char) { 'A' <= c <= 'Z' }
  predicate IsLowerLetter(c: char) { 'a' <= c <= 'z' }

  function LowerChar(c: char): char {
    if IsUpperLetter(c) then (c as int + 32) as char else c
  }

  function UpperChar(c: char): char {
    if IsLowerLetter(c) then (c as int - 32) as char else c
  }

  /** `s.lower()` on ASCII letters: every capital becomes its small letter, nothing else moves. */
  function Lower(s: string): (r: string)
    ensures |r| == |s|
    ensures forall i :: 0 <= i < |r| ==> !IsUpperLetter(r[i])
    ensures forall i :: 0 <= i < |s| && !IsUpperLetter(s[i]) ==> r[i] == s[i]
    ensures forall i :: 0 <= i < |s| && IsUpperLetter(s[i]) ==> IsLowerLetter(r[i]) && UpperChar(r[i]) == s[i]
  {
    seq(|s|, i requires 0 <= i < |s| => LowerChar(s[i]))
  }

  /** `s.upper()` on ASCII letters: every small letter becomes its capital, nothing else moves. */
  function Upper(s: string): (r: string)
    ensures |r| == |s|
    ensures forall i :: 0 <= i < |r| ==> !IsLowerLetter(r[i])
    ensures forall i :: 0 <= i < |s| && !IsLowerLetter(s[i]) ==> r[i] == s[i]
    ensures forall i :: 0 <= i < |s| && IsLowerLetter(s[i]) ==> IsUpperLetter(r[i]) && LowerChar(r[i]) == s[i]
  {
    seq(|s|, i requires 0 <= i < |s| => UpperChar(s[i]))
  }

  // ---------------------------------------------------------------- split at one character

  /** Index of the first `c` in `s`, or `|s|` when there is none. */
  function IndexOf(s: string, c: char): (n: nat)
    ensures n <= |s|
    ensures forall i :: 0 <= i < n ==> s[i] != c
    ensures n < |s| ==> s[n] == c
  {
    if s == [] || s[0] == c then 0 else 1 + IndexOf(s[1..], c)
  }

  lemma {:induction false} IndexOfAbsent(s: string, c: char)
    requires Lacks(s, c)
    ensures IndexOf(s, c) == |s|
  {
    var n := IndexOf(s, c);
  }

  lemma {:induction false} IndexOfAfter(a: string, c: char, b: string)
    requires Lacks(a, c)
    ensures IndexOf(a + [c] + b, c) == |a|
  {
    var s := a + [c] + b;
    assert forall i :: 0 <= i < |a| ==> s[i] == a[i];
    assert s[|a|] == c;
  }

  /** `s.split(c)`: the pieces between occurrences of `c`, empty pieces kept. */
  function SplitAt(s: string, c: char): (r: seq<string>)
    ensures |r| >= 1
    ensures forall k :: 0 <= k < |r| ==> forall i :: 0 <= i < |r[k]| ==> r[k][i] != c
    decreases |s|
  {
    var n := IndexOf(s, c);
    if n == |s| then [s] else [s[..n]] + SplitAt(s[n + 1..], c)
  }

  /** Pieces free of the separator, joined by it, split back into the same pieces. */
  lemma {:induction false} SplitAtJoined(a: string, c: char, b: string)
    requires Lacks(a, c)
    ensures SplitAt(a + [c] + b, c) == [a] + SplitAt(b, c)
  {
    var s := a + [c] + b;
    IndexOfAfter(a, c, b);
    assert s[..|a|] == a;
    assert s[|a| + 1..] == b;
  }

  lemma {:induction false} SplitAtNone(a: string, c: char)
    requires Lacks(a, c)
    ensures SplitAt(a, c) == [a]
  {
    IndexOfAbsent(a, c);
  }

  /** `c not in s` */
  predicate Lacks(s: string, c: char) {
    forall i :: 0 <= i < |s| ==> s[i] != c
  }

  lemma {:induction false} LacksJoin(a: string, b: string, c: char)
    requires Lacks(a, c) && Lacks(b, c)
    ensures Lacks(a + b, c)
  {
    forall i | 0 <= i < |a + b| ensures (a + b)[i] != c {
      if i < |a| { assert (a + b)[i] == a[i]; } else { assert (a + b)[i] == b[i - |a|]; }
    }
  }
}

/**
 * The string library calls the compiler relies on: `str.lower()`, `str.split()`
 * with no separator, and `int()` applied to a token.
 */
module Text {
  import opened Results

  /** The characters `str.split()` treats as whitespace. */
  predicate IsSpace(c: char) {
    var n := c as int;
    n == 32 || 9 <= n <= 13 || 28 <= n <= 31 || n == 0x85 || n == 0xA0 || n == 0x1680
    || 0x2000 <= n <= 0x200A || n == 0x2028 || n == 0x2029 || n == 0x202F || n == 0x205F || n == 0x3000
  }

  predicate NoSpace(s: string) {
    forall i :: 0 <= i < |s| ==> !IsSpace(s[i])
  }

  /** A token as `str.split()` produces it: non-empty, without whitespace. */
  predicate IsWord(s: string) {
    s != [] && NoSpace(s)
  }

  function LowerChar(c: char): (d: char)
    ensures !('A' <= d <= 'Z')
    ensures IsSpace(d) == IsSpace(c)
  {
    if 'A' <= c <= 'Z' then (c as int + 32) as char else c
  }

  /** `str.lower()`, restricted to the ASCII letters. */
  function Lower(s: string): (r: string)
    ensures |r| == |s|
    ensures forall i :: 0 <= i < |s| ==> r[i] == LowerChar(s[i])
    ensures forall i :: 0 <= i < |r| ==> !('A' <= r[i] <= 'Z') && IsSpace(r[i]) == IsSpace(s[i])
  {
    seq(|s|, i requires 0 <= i < |s| => LowerChar(s[i]))
  }

  /** Length of the run of non-whitespace characters at the front of `s`. */
  function WordLength(s: string): (n: nat)
    ensures n <= |s|
    ensures NoSpace(s[..n])
    ensures n == |s| || IsSpace(s[n])
  {
    if s == [] || IsSpace(s[0]) then 0
    else
      var n := 1 + WordLength(s[1..]);
      assert s[..n] == [s[0]] + s[1..][..n - 1];
      n
  }

  /** `str.split()`: the maximal runs of non-whitespace characters, in order. */
  function Split(s: string): (r: seq<string>)
    ensures forall k :: 0 <= k < |r| ==> IsWord(r[k])
    decreases |s|
  {
    if s == [] then []
    else if IsSpace(s[0]) then Split(s[1..])
    else
      var n := WordLength(s);
      [s[..n]] + Split(s[n..])
  }

  /** No ASCII capital letter in `s`. */
  predicate NoUpper(s: string) {
    forall i :: 0 <= i < |s| ==> !('A' <= s[i] <= 'Z')
  }

  /** Splitting a string with no capital letter gives tokens with none. */
  lemma {:induction false} SplitNoUpper(s: string)
    requires NoUpper(s)
    ensures forall k :: 0 <= k < |Split(s)| ==> NoUpper(Split(s)[k])
    decreases |s|
  {
    if s != [] {
      if IsSpace(s[0]) {
        SplitNoUpper(s[1..]);
      } else {
        var n := WordLength(s);
        SplitNoUpper(s[n..]);
        assert Split(s) == [s[..n]] + Split(s[n..]);
      }
    }
  }

  /** The tokens joined by single spaces, the inverse `Split` is proved against. */
  function Join(ts: seq<string>): string {
    if ts == [] then []
    else if |ts| == 1 then ts[0]
    else ts[0] + " " + Join(ts[1..])
  }

  lemma {:induction false} WordLengthOfWord(w: string, rest: string)
    requires NoSpace(w)
    requires rest == [] || IsSpace(rest[0])
    ensures WordLength(w + rest) == |w|
  {
    if w != [] {
      assert (w + rest)[1..] == w[1..] + rest;
      WordLengthOfWord(w[1..], rest);
    }
  }

  lemma {:induction false} SplitWord(w: string, rest: string)
    requires IsWord(w)
    requires rest == [] || IsSpace(rest[0])
    ensures Split(w + rest) == [w] + Split(rest)
  {
    WordLengthOfWord(w, rest);
    assert (w + rest)[..|w|] == w;
    assert (w + rest)[|w|..] == rest;
  }

  lemma {:induction false} SplitSpaces(tail: string)
    requires forall i :: 0 <= i < |tail| ==> IsSpace(tail[i])
    ensures Split(tail) == []
  {
    if tail != [] {
      SplitSpaces(tail[1..]);
    }
  }

  /** A string of whitespace alone has no tokens. */
  lemma BlankSplit(s: string)
    ensures (forall i :: 0 <= i < |s| ==> IsSpace(s[i])) ==> Split(s) == []
  {
    if forall i :: 0 <= i < |s| ==> IsSpace(s[i]) {
      SplitSpaces(s);
    }
  }

  /** Whitespace before the first word does not change the split. */
  lemma {:induction false} SplitLeadingSpaces(lead: string, s: string)
    requires forall i :: 0 <= i < |lead| ==> IsSpace(lead[i])
    ensures Split(lead + s) == Split(s)
  {
    if lead != [] {
      var t := lead + s;
      assert t[0] == lead[0] && t[1..] == lead[1..] + s;
      assert Split(t) == Split(t[1..]);
      SplitLeadingSpaces(lead[1..], s);
    } else {
      assert lead + s == s;
    }
  }

  /**
   * Splitting tokens joined by spaces gives the tokens back, whatever
   * whitespace follows them (a line's newline, say).
   */
  lemma {:induction false} SplitJoin(ts: seq<string>, tail: string)
    requires forall k :: 0 <= k < |ts| ==> IsWord(ts[k])
    requires forall i :: 0 <= i < |tail| ==> IsSpace(tail[i])
    ensures Split(Join(ts) + tail) == ts
  {
    if ts == [] {
      assert Join(ts) + tail == tail;
      SplitSpaces(tail);
    } else if |ts| == 1 {
      assert Join(ts) + tail == ts[0] + tail;
      SplitWord(ts[0], tail);
      SplitSpaces(tail);
    } else {
      var j := Join(ts[1..]);
      var rest := " " + (j + tail);
      assert Join(ts) + tail == ts[0] + rest;
      SplitWord(ts[0], rest);
      assert Split(rest) == Split(j + tail) by {
        assert rest[1..] == j + tail;
      }
      SplitJoin(ts[1..], tail);
      assert ts == [ts[0]] + ts[1..];
    }
  }

  /** `str.split` of words joined by spaces, with whitespace on both sides, gives the words. */
  lemma SplitPadded(lead: string, ts: seq<string>, tail: string)
    requires forall i :: 0 <= i < |lead| ==> IsSpace(lead[i])
    requires forall k :: 0 <= k < |ts| ==> IsWord(ts[k])
    requires forall i :: 0 <= i < |tail| ==> IsSpace(tail[i])
    ensures Split(lead + (Join(ts) + tail)) == ts
  {
    SplitLeadingSpaces(lead, Join(ts) + tail);
    SplitJoin(ts, tail);
  }

  /** Text made of whitespace alone (possibly none). */
  predicate IsBlank(s: string) {
    forall i :: 0 <= i < |s| ==> IsSpace(s[i])
  }

  /** A separator `str.split()` swallows whole: a non-empty run of whitespace. */
  predicate IsSeparator(s: string) {
    s != [] && IsBlank(s)
  }

  /** The tokens with the given separators between them: `seps[k]` sits between `ts[k]` and `ts[k + 1]`. */
  function JoinWith(ts: seq<string>, seps: seq<string>): string
    requires |seps| + 1 == |ts| || ts == seps == []
  {
    if ts == [] then []
    else if |ts| == 1 then ts[0]
    else ts[0] + (seps[0] + JoinWith(ts[1..], seps[1..]))
  }

  /**
   * `str.split()` treats every run of whitespace as one separator: splitting
   * words separated by arbitrary runs, with whitespace on both sides, gives
   * the words back.
   */
  lemma {:induction false} SplitJoinWith(lead: string, ts: seq<string>, seps: seq<string>, tail: string)
    requires |seps| + 1 == |ts| || ts == seps == []
    requires forall k :: 0 <= k < |ts| ==> IsWord(ts[k])
    requires forall k :: 0 <= k < |seps| ==> IsSeparator(seps[k])
    requires IsBlank(lead) && IsBlank(tail)
    ensures Split(lead + (JoinWith(ts, seps) + tail)) == ts
    decreases |ts|
  {
    SplitLeadingSpaces(lead, JoinWith(ts, seps) + tail);
    if ts == [] {
      assert JoinWith(ts, seps) + tail == tail;
      SplitSpaces(tail);
    } else if |ts| == 1 {
      assert JoinWith(ts, seps) + tail == ts[0] + tail;
      SplitWord(ts[0], tail);
      SplitSpaces(tail);
    } else {
      var j := JoinWith(ts[1..], seps[1..]);
      var rest := seps[0] + (j + tail);
      assert JoinWith(ts, seps) + tail == ts[0] + rest;
      SplitWord(ts[0], rest);
      SplitJoinWith(seps[0], ts[1..], seps[1..], tail);
      assert ts == [ts[0]] + ts[1..];
    }
  }

  /** Each token lower-cased. */
  function LowerAll(ts: seq<string>): (r: seq<string>)
    ensures |r| == |ts| && forall k :: 0 <= k < |ts| ==> r[k] == Lower(ts[k])
  {
    seq(|ts|, k requires 0 <= k < |ts| => Lower(ts[k]))
  }

  /** Lower-casing works character by character, so it distributes over concatenation. */
  lemma LowerAppend(a: string, b: string)
    ensures Lower(a + b) == Lower(a) + Lower(b)
  {
    assert forall i :: 0 <= i < |a + b| ==> (a + b)[i] == if i < |a| then a[i] else b[i - |a|];
  }

  /** Lower-casing a joined line lower-cases each token and each separator. */
  lemma {:induction false} LowerJoinWith(ts: seq<string>, seps: seq<string>)
    requires |seps| + 1 == |ts| || ts == seps == []
    ensures Lower(JoinWith(ts, seps)) == JoinWith(LowerAll(ts), LowerAll(seps))
    decreases |ts|
  {
    if |ts| > 1 {
      LowerAppend(ts[0], seps[0] + JoinWith(ts[1..], seps[1..]));
      LowerAppend(seps[0], JoinWith(ts[1..], seps[1..]));
      LowerJoinWith(ts[1..], seps[1..]);
      assert LowerAll(ts)[1..] == LowerAll(ts[1..]);
      assert LowerAll(seps)[1..] == LowerAll(seps[1..]);
    } else if |ts| == 1 {
      assert JoinWith(LowerAll(ts), LowerAll(seps)) == LowerAll(ts)[0];
    } else {
      assert Lower([]) == [];
    }
  }

  predicate IsDigit(c: char) {
    '0' <= c <= '9'
  }

  /**
   * The digit part `int()` accepts: ASCII digits, where single underscores may
   * separate two digits.
   */
  predicate IsDigitRun(s: string) {
    s != [] && IsDigit(s[0]) && IsDigit(s[|s| - 1])
    && (forall i :: 0 <= i < |s| ==> IsDigit(s[i]) || s[i] == '_')
    && (forall i :: 0 <= i < |s| - 1 ==> s[i] == '_' ==> s[i + 1] != '_')
  }

  /** The value of a run of digits and underscores, underscores ignored. */
  function DigitsValue(s: string): nat
    requires forall i :: 0 <= i < |s| ==> IsDigit(s[i]) || s[i] == '_'
  {
    if s == [] then 0
    else if s[|s| - 1] == '_' then DigitsValue(s[..|s| - 1])
    else
      assert IsDigit(s[|s| - 1]);
      10 * DigitsValue(s[..|s| - 1]) + (s[|s| - 1] as int - '0' as int)
  }

  /** `int(s)` for a token: an optional sign and a run of digits, else a ValueError. */
  function ParseInt(s: string): (r: Option<int>)
    ensures r.Some? ==> s != [] && (s[0] == '-' || s[0] == '+' || IsDigit(s[0]))
    ensures r.Some? && r.value < 0 ==> s[0] == '-'
  {
    if s != [] && (s[0] == '+' || s[0] == '-') then
      if IsDigitRun(s[1..]) then
        var v: int := DigitsValue(s[1..]);
        Some(if s[0] == '-' then -v else v)
      else None
    else if IsDigitRun(s) then Some(DigitsValue(s))
    else None
  }

  function DigitChar(d: nat): (c: char)
    requires d < 10
    ensures IsDigit(c) && c as int - '0' as int == d
  {
    ('0' as int + d) as char
  }

  /** The decimal numeral of `n`, without sign or leading zeros. */
  function Decimal(n: nat): (s: string)
    ensures s != [] && forall i :: 0 <= i < |s| ==> IsDigit(s[i])
  {
    if n < 10 then [DigitChar(n)] else Decimal(n / 10) + [DigitChar(n % 10)]
  }

  lemma {:induction false} DecimalValue(n: nat)
    ensures IsDigitRun(Decimal(n))
    ensures DigitsValue(Decimal(n)) == n
  {
    if n >= 10 {
      DecimalValue(n / 10);
      var s := Decimal(n);
      assert s[..|s| - 1] == Decimal(n / 10);
    }
  }

  /** `int()` reads back every decimal numeral, positive or negated. */
  lemma ParseDecimal(n: nat)
    ensures ParseInt(Decimal(n)) == Some(n)
    ensures ParseInt("-" + Decimal(n)) == Some(-(n as int))
  {
    DecimalValue(n);
    assert ("-" + Decimal(n))[1..] == Decimal(n);
  }

  lemma {:induction false} LeadingZeroValue(s: string)
    requires forall i :: 0 <= i < |s| ==> IsDigit(s[i]) || s[i] == '_'
    ensures DigitsValue("0" + s) == DigitsValue(s)
  {
    if s != [] {
      var t := "0" + s;
      assert t[..|t| - 1] == "0" + s[..|s| - 1];
      LeadingZeroValue(s[..|s| - 1]);
    }
  }

  /** A leading zero does not change the number: `int("01") == int("1")`. */
  lemma LeadingZero(s: string)
    requires IsDigitRun(s)
    ensures ParseInt("0" + s) == ParseInt(s)
  {
    LeadingZeroValue(s);
    var t := "0" + s;
    assert IsDigitRun(t) by {
      forall i | 0 <= i < |t| - 1 && t[i] == '_' ensures t[i + 1] != '_' {
        assert t[i + 1] == s[i];
      }
    }
  }
}

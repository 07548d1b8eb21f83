/** The string operations of Python that the service relies on: `sep.join`,
    `str.split` on one character, `str(int)` and `int(str)`. */
module Text {
  import opened Basics

  /** `sep.join(parts)`. */
  function Join(parts: seq<string>, sep: string): string
  {
    if parts == [] then ""
    else if |parts| == 1 then parts[0]
    else parts[0] + sep + Join(parts[1..], sep)
  }

  /** Joining one more part appends the separator and the part. */
  lemma {:induction false} JoinSnoc(parts: seq<string>, p: string, sep: string)
    requires parts != []
    ensures Join(parts + [p], sep) == Join(parts, sep) + sep + p
  {
    if |parts| == 1 {
      assert parts + [p] == [parts[0], p];
    } else {
      assert (parts + [p])[1..] == parts[1..] + [p];
      JoinSnoc(parts[1..], p, sep);
    }
  }

  /** Position of the first occurrence of `c` in `s`. */
  function IndexOf(s: string, c: char): (i: nat)
    requires c in s
    ensures i < |s| && s[i] == c && c !in s[..i]
  {
    if s[0] == c then 0
    else
      assert c in s[1..] by { assert s == [s[0]] + s[1..]; }
      var j := IndexOf(s[1..], c);
      assert s[..j + 1] == [s[0]] + s[1..][..j];
      j + 1
  }

  /** `s.split(c)`: the pieces between the occurrences of `c`; never empty, and no
      piece contains `c`. */
  function Split(s: string, c: char): (parts: seq<string>)
    ensures |parts| >= 1
    ensures forall i :: 0 <= i < |parts| ==> c !in parts[i]
    decreases |s|
  {
    if c !in s then [s]
    else
      var i := IndexOf(s, c);
      [s[..i]] + Split(s[i + 1..], c)
  }

  /** Joining a first part in front of other parts puts the separator between them. */
  lemma JoinCons(p: string, parts: seq<string>, sep: string)
    requires parts != []
    ensures Join([p] + parts, sep) == p + sep + Join(parts, sep)
  {
    assert ([p] + parts)[1..] == parts;
  }

  /** Joining the pieces of a split with the separator gives back the original text. */
  lemma {:induction false} JoinSplit(s: string, c: char)
    ensures Join(Split(s, c), [c]) == s
    decreases |s|
  {
    if c in s {
      var i := IndexOf(s, c);
      var rest := s[i + 1..];
      calc {
        Join(Split(s, c), [c]);
        Join([s[..i]] + Split(rest, c), [c]);
        { JoinCons(s[..i], Split(rest, c), [c]); }
        s[..i] + [c] + Join(Split(rest, c), [c]);
        { JoinSplit(rest, c); }
        s[..i] + [c] + rest;
        { Recompose(s, i); }
        s;
      }
    }
  }

  /** A text is the part before position `i`, the character there and the part after. */
  lemma Recompose(s: string, i: nat)
    requires i < |s|
    ensures s[..i] + [s[i]] + s[i + 1..] == s
  {
  }

  /** Splitting a join of separator-free pieces gives back the pieces. */
  lemma {:induction false} SplitJoin(parts: seq<string>, c: char)
    requires |parts| >= 1
    requires forall i :: 0 <= i < |parts| ==> c !in parts[i]
    ensures Split(Join(parts, [c]), c) == parts
  {
    if |parts| > 1 {
      var rest := parts[1..];
      var s := Join(parts, [c]);
      assert s == parts[0] + [c] + Join(rest, [c]);
      assert s[|parts[0]|] == c && s[..|parts[0]|] == parts[0];
      assert IndexOf(s, c) == |parts[0]|;
      assert s[|parts[0]| + 1..] == Join(rest, [c]);
      SplitJoin(rest, c);
      assert parts == [parts[0]] + rest;
    }
  }

  /** The two pieces of "a-b" when neither piece contains '-'. */
  lemma SplitPair(a: string, b: string, c: char)
    requires c !in a && c !in b
    ensures Split(a + [c] + b, c) == [a, b]
  {
    SplitJoin([a, b], c);
    assert Join([a, b], [c]) == a + [c] + b;
  }

  predicate IsDigit(ch: char) { '0' <= ch <= '9' }

  predicate IsDigits(s: string) { |s| >= 1 && forall i :: 0 <= i < |s| ==> IsDigit(s[i]) }

  function DigitChar(d: nat): (ch: char)
    requires d < 10
    ensures IsDigit(ch)
  {
    ('0' as int + d) as char
  }

  /** `str(n)` for a natural number: its decimal digits without leading zeros. */
  function NatToString(n: nat): (r: string)
    ensures IsDigits(r)
  {
    if n < 10 then [DigitChar(n)]
    else NatToString(n / 10) + [DigitChar(n % 10)]
  }

  /** `str(i)`: a minus sign for negative numbers, then the decimal digits. */
  function IntToString(i: int): string
  {
    if i < 0 then "-" + NatToString(-i) else NatToString(i)
  }

  /** The number a run of decimal digits denotes. */
  function DigitsValue(s: string): (v: int)
    requires forall i :: 0 <= i < |s| ==> IsDigit(s[i])
    ensures v >= 0
  {
    if s == [] then 0
    else
      var last := s[|s| - 1];
      assert IsDigit(last);
      DigitsValue(s[..|s| - 1]) * 10 + (last as int - '0' as int)
  }

  /** `int(s)` for text that is an optional sign followed by decimal digits; anything
      else is the `ValueError` that Python raises (as `None`). */
  function ParseInt(s: string): Option<int>
  {
    if |s| >= 1 && (s[0] == '-' || s[0] == '+') && IsDigits(s[1..]) then
      var v := DigitsValue(s[1..]);
      Some(if s[0] == '-' then -v else v)
    else if IsDigits(s) then Some(DigitsValue(s))
    else None
  }

  lemma {:induction false} DigitsValueOfNatToString(n: nat)
    ensures DigitsValue(NatToString(n)) == n
  {
    if n >= 10 {
      var s := NatToString(n);
      assert s[..|s| - 1] == NatToString(n / 10);
      DigitsValueOfNatToString(n / 10);
    } else {
      assert NatToString(n)[..0] == [];
    }
  }

  /** `int(str(i)) == i`: the text rendering of an integer parses back to it. */
  lemma ParseIntToString(i: int)
    ensures ParseInt(IntToString(i)) == Some(i)
  {
    var n: nat := if i < 0 then -i else i;
    var digits := NatToString(n);
    DigitsValueOfNatToString(n);
    if i < 0 {
      var s := "-" + digits;
      assert s[0] == '-' && s[1..] == digits;
    } else {
      assert digits[0] != '-' && digits[0] != '+';
    }
  }
}

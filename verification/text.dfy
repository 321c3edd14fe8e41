/**
 String operations the generator relies on, modelled after Go's `strings`
 package (`Join`, `Split`, `Replace`, `ToUpper`) and `fmt`'s `%d`, together
 with a reader for `key: value` lines used to state what generated YAML holds.
 */
module Text {
  import opened Results
  import Seqs

  /** Go's `strings.Join`: the elements in order, `sep` between neighbours. */
  function Join(xs: seq<string>, sep: string): (r: string)
    ensures |xs| == 0 ==> r == ""
    ensures |xs| == 1 ==> r == xs[0]
    decreases |xs|
  {
    if |xs| == 0 then ""
    else if |xs| == 1 then xs[0]
    else xs[0] + sep + Join(xs[1..], sep)
  }

  /** Where element `i` starts inside `Join(xs, sep)`. */
  function JoinOffset(xs: seq<string>, sep: string, i: nat): nat
    requires i <= |xs|
  {
    if i == 0 then 0 else JoinOffset(xs, sep, i - 1) + |xs[i - 1]| + |sep|
  }

  /** Element `i` of the list is found verbatim at its offset in the joined text. */
  lemma {:induction false} JoinContains(xs: seq<string>, sep: string, i: nat)
    requires i < |xs|
    ensures OccursAt(Join(xs, sep), xs[i], JoinOffset(xs, sep, i))
    decreases |xs|
  {
    if |xs| > 1 {
      var tail := xs[1..];
      assert Join(xs, sep) == (xs[0] + sep) + Join(tail, sep);
      if i == 0 {
        assert (xs[0] + (sep + Join(tail, sep)))[..|xs[0]|] == xs[0];
      } else {
        JoinContains(tail, sep, i - 1);
        JoinOffsetShift(xs, sep, i);
        OccursBehind(xs[0] + sep, Join(tail, sep), tail[i - 1], JoinOffset(tail, sep, i - 1));
      }
    }
  }

  lemma {:induction false} JoinOffsetShift(xs: seq<string>, sep: string, i: nat)
    requires 0 < i <= |xs|
    ensures JoinOffset(xs, sep, i) == |xs[0]| + |sep| + JoinOffset(xs[1..], sep, i - 1)
  {
    if i > 1 {
      JoinOffsetShift(xs, sep, i - 1);
    }
  }

  /** Elements appear in list order: element `i` ends before element `j` starts. */
  lemma {:induction false} JoinOffsetsIncrease(xs: seq<string>, sep: string, i: nat, j: nat)
    requires i < j <= |xs|
    ensures JoinOffset(xs, sep, i) + |xs[i]| + |sep| <= JoinOffset(xs, sep, j)
    decreases j
  {
    if j > i + 1 {
      JoinOffsetsIncrease(xs, sep, i, j - 1);
    }
  }

  /** Two elements of a list appear verbatim in its join, the earlier one ending before the later starts. */
  lemma {:induction false} JoinInOrder(xs: seq<string>, sep: string, i: nat, j: nat)
    requires i < j < |xs|
    ensures OccursAt(Join(xs, sep), xs[i], JoinOffset(xs, sep, i))
    ensures OccursAt(Join(xs, sep), xs[j], JoinOffset(xs, sep, j))
    ensures JoinOffset(xs, sep, i) + |xs[i]| + |sep| <= JoinOffset(xs, sep, j)
  {
    JoinContains(xs, sep, i);
    JoinContains(xs, sep, j);
    JoinOffsetsIncrease(xs, sep, i, j);
  }

  /** Joining two non-empty lists puts one separator between their joins. */
  lemma {:induction false} JoinAppend(xs: seq<string>, ys: seq<string>, sep: string)
    requires xs != [] && ys != []
    ensures Join(xs + ys, sep) == Join(xs, sep) + sep + Join(ys, sep)
    decreases |xs|
  {
    if |xs| > 1 {
      assert (xs + ys)[1..] == xs[1..] + ys;
      JoinAppend(xs[1..], ys, sep);
    } else {
      assert (xs + ys)[1..] == ys;
    }
  }

  /** The join of a non-empty list ends with its last element. */
  lemma {:induction false} JoinEndsWithLast(xs: seq<string>, sep: string)
    requires xs != []
    ensures |xs[|xs| - 1]| <= |Join(xs, sep)|
    ensures Join(xs, sep)[|Join(xs, sep)| - |xs[|xs| - 1]|..] == xs[|xs| - 1]
    decreases |xs|
  {
    if |xs| > 1 {
      JoinEndsWithLast(xs[1..], sep);
    }
  }

  /** The join of a non-empty list starts with its first element. */
  lemma {:induction false} JoinStartsWithFirst(xs: seq<string>, sep: string)
    requires xs != []
    ensures |xs[0]| <= |Join(xs, sep)|
    ensures Join(xs, sep)[..|xs[0]|] == xs[0]
  {
    JoinContains(xs, sep, 0);
  }

  /** `t` occurs in `s` starting at position `k`. */
  predicate OccursAt(s: string, t: string, k: nat) {
    k + |t| <= |s| && s[k..k + |t|] == t
  }

  /** `t` occurs somewhere in `s`. */
  ghost predicate Contains(s: string, t: string) {
    exists k: nat | k <= |s| :: OccursAt(s, t, k)
  }

  /** Every element of a list occurs in its join. */
  lemma {:induction false} JoinHasElement(xs: seq<string>, sep: string, i: nat)
    requires i < |xs|
    ensures Contains(Join(xs, sep), xs[i])
  {
    JoinContains(xs, sep, i);
    assert OccursAt(Join(xs, sep), xs[i], JoinOffset(xs, sep, i));
  }

  /** An occurrence moves by the length of the text added before it. */
  lemma {:induction false} OccursWithin(pre: string, s: string, post: string, t: string, k: nat)
    requires OccursAt(s, t, k)
    ensures OccursAt(pre + s + post, t, |pre| + k)
  {
    assert (pre + s + post)[|pre| + k..|pre| + k + |t|] == s[k..k + |t|];
  }

  /** An occurrence survives text added around it. */
  lemma {:induction false} ContainsWithin(pre: string, s: string, post: string, t: string)
    requires Contains(s, t)
    ensures Contains(pre + s + post, t)
  {
    var k: nat :| k <= |s| && OccursAt(s, t, k);
    assert k + |t| <= |s|;
    assert (pre + s + post)[|pre| + k..|pre| + k + |t|] == s[k..k + |t|];
    assert OccursAt(pre + s + post, t, |pre| + k);
  }

  /** Each element of a list of strings occurs in their concatenation. */
  lemma {:induction false} ConcatHasElement(xs: seq<string>, i: nat)
    requires i < |xs|
    ensures Contains(Seqs.Concat(xs), xs[i])
    decreases |xs|
  {
    if i == 0 {
      assert OccursAt(Seqs.Concat(xs), xs[0], 0);
    } else {
      ConcatHasElement(xs[1..], i - 1);
      ContainsWithin(xs[0], Seqs.Concat(xs[1..]), "", xs[i]);
      assert xs[0] + Seqs.Concat(xs[1..]) + "" == Seqs.Concat(xs);
    }
  }

  predicate HasPrefix(s: string, prefix: string) {
    |prefix| <= |s| && s[..|prefix|] == prefix
  }

  /** Text put in front keeps a prefix a prefix, behind the new text. */
  lemma {:induction false} PrefixBehind(head: string, body: string, prefix: string)
    requires HasPrefix(body, prefix)
    ensures HasPrefix(head + body, head + prefix)
  {
    assert (head + body)[..|head| + |prefix|] == head + body[..|prefix|];
  }

  /** Text put in front shifts an occurrence by its length. */
  lemma {:induction false} OccursBehind(head: string, body: string, t: string, k: nat)
    requires OccursAt(body, t, k)
    ensures OccursAt(head + body, t, |head| + k)
  {
    assert (head + body)[|head| + k..|head| + k + |t|] == body[k..k + |t|];
  }

  /** A text framed by `head` and `foot` starts with `head`, and cutting both off gives back the middle. */
  lemma {:induction false} Framed(head: string, body: string, foot: string)
    ensures HasPrefix(head + body + foot, head)
    ensures (head + body + foot)[|head|..|head| + |body|] == body
  {
    assert (head + body + foot)[..|head|] == head;
  }

  /** Go's `strings.Replace(s, from, to, -1)` for one-character `from` and `to`. */
  function ReplaceChar(s: string, from: char, to: char): (r: string)
    ensures |r| == |s|
    ensures forall i :: 0 <= i < |s| ==> r[i] == (if s[i] == from then to else s[i])
  {
    seq(|s|, i requires 0 <= i < |s| => if s[i] == from then to else s[i])
  }

  predicate IsLowerAscii(c: char) {
    'a' <= c <= 'z'
  }

  function UpperAscii(c: char): (u: char)
    ensures !IsLowerAscii(u)
    ensures IsLowerAscii(c) ==> u as int == c as int - 32
    ensures !IsLowerAscii(c) ==> u == c
  {
    if IsLowerAscii(c) then (c as int - 32) as char else c
  }

  /** Go's `strings.ToUpper` restricted to ASCII letters. */
  function ToUpperAscii(s: string): (r: string)
    ensures |r| == |s|
    ensures forall i :: 0 <= i < |s| ==> r[i] == UpperAscii(s[i])
  {
    seq(|s|, i requires 0 <= i < |s| => UpperAscii(s[i]))
  }

  /** Index of the first occurrence of `c`. */
  function FirstIndex(s: string, c: char): (k: nat)
    requires c in s
    ensures k < |s| && s[k] == c && c !in s[..k]
  {
    if s[0] == c then 0 else 1 + FirstIndex(s[1..], c)
  }

  /** The first `c` of `x + y` is the first character of `y` when `x` has none. */
  lemma {:induction false} FirstIndexAfter(x: string, y: string, c: char)
    requires c !in x && |y| > 0 && y[0] == c
    ensures c in x + y && FirstIndex(x + y, c) == |x|
  {
    var s := x + y;
    assert s[|x|] == c;
    assert s[..|x|] == x;
    var k := FirstIndex(s, c);
    assert k == |x|;
  }

  /** Go's `strings.Split(s, sep)` for a one-character separator. */
  function Split(s: string, c: char): (parts: seq<string>)
    ensures |parts| >= 1
    ensures forall i :: 0 <= i < |parts| ==> c !in parts[i]
    ensures Join(parts, [c]) == s
    decreases |s|
  {
    if c !in s then [s]
    else
      var k := FirstIndex(s, c);
      var rest := Split(s[k + 1..], c);
      assert s == s[..k] + [c] + s[k + 1..];
      [s[..k]] + rest
  }

  /** Splitting undoes joining when no element holds the separator. */
  lemma {:induction false} SplitJoin(xs: seq<string>, c: char)
    requires xs != []
    requires forall i :: 0 <= i < |xs| ==> c !in xs[i]
    ensures Split(Join(xs, [c]), c) == xs
    decreases |xs|
  {
    if |xs| > 1 {
      var s := Join(xs, [c]);
      var tail := Join(xs[1..], [c]);
      var rest := [c] + tail;
      assert s == xs[0] + rest;
      FirstIndexAfter(xs[0], rest, c);
      assert s[..|xs[0]|] == xs[0];
      assert s[|xs[0]| + 1..] == tail;
      assert forall i :: 0 <= i < |xs[1..]| ==> xs[1..][i] == xs[i + 1];
      SplitJoin(xs[1..], c);
      assert Split(s, c) == [xs[0]] + Split(tail, c);
    }
  }

  /** The value of the first `key: value` line of `lines`, if any. */
  function LookupLine(lines: seq<string>, key: string): Option<string>
    decreases |lines|
  {
    if lines == [] then None
    else if HasPrefix(lines[0], key + ": ") then Some(lines[0][|key| + 2..])
    else LookupLine(lines[1..], key)
  }

  /** The first line that holds `key` decides the lookup. */
  lemma {:induction false} LookupLineAt(lines: seq<string>, key: string, i: nat)
    requires i < |lines| && HasPrefix(lines[i], key + ": ")
    requires forall j :: 0 <= j < i ==> !HasPrefix(lines[j], key + ": ")
    ensures LookupLine(lines, key) == Some(lines[i][|key| + 2..])
    decreases i
  {
    if i > 0 {
      LookupLineAt(lines[1..], key, i - 1);
    }
  }

  /** Reads the value of `key` from newline-separated `key: value` text. */
  function Lookup(text: string, key: string): Option<string> {
    LookupLine(Split(text, '\n'), key)
  }

  function DigitChar(d: nat): (c: char)
    requires d < 10
    ensures '0' <= c <= '9' && DigitValue(c) == d
  {
    ('0' as int + d) as char
  }

  function DigitValue(c: char): nat {
    if '0' <= c <= '9' then c as int - '0' as int else 0
  }

  function NatDigits(n: nat): (r: string)
    ensures |r| >= 1
    ensures forall i :: 0 <= i < |r| ==> '0' <= r[i] <= '9'
  {
    if n < 10 then [DigitChar(n)] else NatDigits(n / 10) + [DigitChar(n % 10)]
  }

  /** Reads a run of decimal digits. */
  function ParseDigits(s: string): nat
    decreases |s|
  {
    if s == [] then 0 else 10 * ParseDigits(s[..|s| - 1]) + DigitValue(s[|s| - 1])
  }

  /** `fmt`'s `%d`: decimal digits, with a leading `-` for negatives. */
  function Decimal(n: int): (r: string)
    ensures '\n' !in r
  {
    if n < 0 then "-" + NatDigits(-n) else NatDigits(n)
  }

  /** Reads back what `Decimal` writes. */
  function ParseDecimal(s: string): int {
    if |s| > 0 && s[0] == '-' then -(ParseDigits(s[1..]) as int) else ParseDigits(s)
  }

  lemma {:induction false} NatDigitsRoundTrip(n: nat)
    ensures ParseDigits(NatDigits(n)) == n
  {
    if n >= 10 {
      var s := NatDigits(n);
      assert s[..|s| - 1] == NatDigits(n / 10);
      assert DigitValue(s[|s| - 1]) == n % 10;
      NatDigitsRoundTrip(n / 10);
    }
  }

  lemma {:induction false} DecimalRoundTrip(n: int)
    ensures ParseDecimal(Decimal(n)) == n
  {
    if n < 0 {
      var d := NatDigits(-n);
      assert Decimal(n) == "-" + d;
      assert ("-" + d)[0] == '-' && ("-" + d)[1..] == d;
      NatDigitsRoundTrip(-n);
    } else {
      var d := NatDigits(n);
      assert d[0] != '-';
      NatDigitsRoundTrip(n);
    }
  }
}

/** The string operations the delivery code relies on: `Integer#to_s`, `Array#join`,
    `String#split` (as the inverse used to read descriptions line by line) and `blank?`. */
module Text {

  predicate IsDigit(c: char) {
    '0' <= c <= '9'
  }

  predicate AllDigits(s: string) {
    forall i :: 0 <= i < |s| ==> IsDigit(s[i])
  }

  function DigitChar(d: nat): (c: char)
    requires d < 10
    ensures IsDigit(c) && c as int - '0' as int == d
  {
    ('0' as int + d) as char
  }

  function DigitValue(c: char): (d: nat) {
    if IsDigit(c) then c as int - '0' as int else 0
  }

  /** `Integer#to_s` for a non-negative integer: its decimal digits, most significant first. */
  function NatToString(n: nat): (s: string)
    ensures |s| >= 1 && AllDigits(s)
    decreases n
  {
    if n < 10 then [DigitChar(n)] else NatToString(n / 10) + [DigitChar(n % 10)]
  }

  /** `Integer#to_s` for any integer. */
  function IntToString(i: int): (s: string)
    ensures i >= 0 ==> s == NatToString(i)
    ensures i < 0 ==> s == "-" + NatToString(-i)
  {
    if i < 0 then "-" + NatToString(-i) else NatToString(i)
  }

  /** Reads a string of decimal digits back as a number. */
  function ParseNat(s: string): (n: nat) {
    if s == [] then 0 else 10 * ParseNat(s[..|s| - 1]) + DigitValue(s[|s| - 1])
  }

  /** `to_s` loses nothing: reading the digits back gives the number. */
  lemma {:induction false} ParseNatToString(n: nat)
    ensures ParseNat(NatToString(n)) == n
  {
    if n >= 10 {
      var s := NatToString(n);
      assert s[..|s| - 1] == NatToString(n / 10);
      ParseNatToString(n / 10);
    }
  }

  /** `Array#join(sep)`: the parts with `sep` between neighbours, `""` for no parts. */
  function Join(parts: seq<string>, sep: string): (s: string)
    ensures |parts| == 1 ==> s == parts[0]
  {
    if |parts| == 0 then ""
    else if |parts| == 1 then parts[0]
    else parts[0] + sep + Join(parts[1..], sep)
  }

  /** Splits a string at every occurrence of `c`; always at least one piece. */
  function Split(s: string, c: char): (pieces: seq<string>)
    ensures |pieces| >= 1
  {
    if s == [] then [""]
    else
      var rest := Split(s[1..], c);
      if s[0] == c then [""] + rest else [[s[0]] + rest[0]] + rest[1..]
  }

  predicate Free(s: string, c: char) {
    forall i :: 0 <= i < |s| ==> s[i] != c
  }

  lemma {:induction false} SplitFree(s: string, c: char)
    requires Free(s, c)
    ensures Split(s, c) == [s]
  {
    if s != [] {
      assert Free(s[1..], c) by {
        forall i | 0 <= i < |s[1..]| ensures s[1..][i] != c { assert s[1..][i] == s[i + 1]; }
      }
      SplitFree(s[1..], c);
      assert [s[0]] + s[1..] == s;
    }
  }

  /** Joins two piece lists by gluing the last piece of `a` to the first piece of `b`. */
  function Glue(a: seq<string>, b: seq<string>): (g: seq<string>)
    requires |a| >= 1 && |b| >= 1
    ensures |g| == |a| + |b| - 1
  {
    a[..|a| - 1] + [a[|a| - 1] + b[0]] + b[1..]
  }

  lemma GlueNewPiece(h: string, a: seq<string>, b: seq<string>)
    requires |a| >= 1 && |b| >= 1
    ensures Glue([h] + a, b) == [h] + Glue(a, b)
  {
    assert ([h] + a)[..|a|] == [h] + a[..|a| - 1];
  }

  lemma GlueExtendHead(ch: char, a: seq<string>, b: seq<string>)
    requires |a| >= 1 && |b| >= 1
    ensures Glue([[ch] + a[0]] + a[1..], b) == [[ch] + Glue(a, b)[0]] + Glue(a, b)[1..]
  {
    var a' := [[ch] + a[0]] + a[1..];
    var g := Glue(a, b);
    if |a| == 1 {
      assert a' == [[ch] + a[0]];
      assert g == [a[0] + b[0]] + b[1..];
      assert ([ch] + a[0]) + b[0] == [ch] + (a[0] + b[0]);
      assert Glue(a', b) == [([ch] + a[0]) + b[0]] + b[1..];
    } else {
      assert g[0] == a[0];
      assert g[1..] == a[1..|a| - 1] + [a[|a| - 1] + b[0]] + b[1..];
      assert a'[..|a'| - 1] == [[ch] + a[0]] + a[1..|a| - 1];
    }
  }

  /** A line ended by the separator splits into the line and an empty rest. */
  lemma SplitLineBreak(line: string, c: char)
    requires Free(line, c)
    ensures Split(line + [c], c) == [line, ""]
  {
    SplitFree(line, c);
    assert Split([c], c) == ["", ""] by {
      assert [c][1..] == "";
    }
    SplitAppend(line, [c], c);
    assert line + "" == line;
  }

  /** A piece list that ends right after a separator takes the next list's pieces as they are. */
  lemma GlueAfterBreak(head: string, b: seq<string>)
    requires |b| >= 1
    ensures Glue([head, ""], b) == [head] + b
  {
    assert [head, ""][..1] == [head];
    assert "" + b[0] == b[0];
    assert [b[0]] + b[1..] == b;
  }

  /** Gluing two blocks, each a head followed by lines, joins the last line of the first to
      the head of the second. */
  lemma GlueBlocks(h1: string, l1: seq<string>, h2: string, l2: seq<string>)
    requires |l1| >= 1
    ensures Glue([h1] + l1, [h2] + l2) == [h1] + l1[..|l1| - 1] + [l1[|l1| - 1] + h2] + l2
  {
    var a := [h1] + l1;
    assert a[..|a| - 1] == [h1] + l1[..|l1| - 1];
    assert ([h2] + l2)[1..] == l2;
  }

  /** Splitting a concatenation glues the last piece of the left part to the first piece
      of the right part. */
  lemma {:induction false} SplitAppend(x: string, y: string, c: char)
    ensures Split(x + y, c) == Glue(Split(x, c), Split(y, c))
  {
    if x == [] {
      assert x + y == y;
      var sy := Split(y, c);
      assert "" + sy[0] == sy[0];
      assert Glue([""], sy) == [sy[0]] + sy[1..] == sy;
    } else {
      assert (x + y)[1..] == x[1..] + y;
      assert (x + y)[0] == x[0];
      SplitAppend(x[1..], y, c);
      if x[0] == c {
        GlueNewPiece("", Split(x[1..], c), Split(y, c));
      } else {
        GlueExtendHead(x[0], Split(x[1..], c), Split(y, c));
      }
    }
  }

  /** Joining with a single character that none of the parts contains is undone by
      splitting at that character. */
  lemma {:induction false} SplitJoin(parts: seq<string>, c: char)
    requires |parts| >= 1
    requires forall i :: 0 <= i < |parts| ==> Free(parts[i], c)
    ensures Split(Join(parts, [c]), c) == parts
  {
    if |parts| == 1 {
      SplitFree(parts[0], c);
    } else {
      var tail := Join(parts[1..], [c]);
      SplitJoin(parts[1..], c);
      SplitFree(parts[0], c);
      assert Join(parts, [c]) == parts[0] + ([c] + tail);
      SplitAppend(parts[0], [c] + tail, c);
      assert ([c] + tail)[1..] == tail;
      assert Split([c] + tail, c) == [""] + parts[1..];
      assert parts[0] + "" == parts[0];
      assert Glue([parts[0]], [""] + parts[1..]) == [parts[0]] + parts[1..] == parts;
    }
  }

  /** ActiveSupport's `String#blank?`: empty or only whitespace. */
  predicate IsBlank(s: string) {
    forall i :: 0 <= i < |s| ==> s[i] in {' ', '\t', '\n', '\r', '\U{000B}', '\U{000C}'}
  }
}

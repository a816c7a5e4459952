/** Text rendering used by every serialiser: decimal rendering of naturals
    (what `operator<<` does for `std::size_t`), right-aligned padding (what
    `std::setw` does with the default fill), runs of spaces, and the line
    structure of an output text. */
module Text {

  predicate IsDigit(c: char) {
    '0' <= c <= '9'
  }

  predicate AllDigits(s: string) {
    forall i :: 0 <= i < |s| ==> IsDigit(s[i])
  }

  function DigitChar(d: nat): (c: char)
    requires d < 10
    ensures IsDigit(c) && c as int - '0' as int == d
  {
    ('0' as int + d) as char
  }

  function DigitValue(c: char): (d: nat)
    requires IsDigit(c)
    ensures d < 10 && DigitChar(d) == c
  {
    c as int - '0' as int
  }

  /** The shortest decimal rendering of `n`. */
  function NatToString(n: nat): (s: string)
    ensures 1 <= |s| && AllDigits(s)
    ensures (|s| == 1) == (n < 10)
    ensures s[0] == '0' ==> n == 0
    decreases n
  {
    if n < 10 then [DigitChar(n)] else NatToString(n / 10) + [DigitChar(n % 10)]
  }

  /** The value of a string of decimal digits, most significant first. */
  function DigitsValue(s: string): nat
    requires AllDigits(s)
    decreases |s|
  {
    if s == [] then 0 else 10 * DigitsValue(s[..|s| - 1]) + DigitValue(s[|s| - 1])
  }

  /** Reading back a rendered natural gives the natural. */
  lemma {:induction false} DecimalRoundTrip(n: nat)
    ensures DigitsValue(NatToString(n)) == n
  {
    if n >= 10 {
      var s := NatToString(n);
      assert s[..|s| - 1] == NatToString(n / 10);
      assert s[|s| - 1] == DigitChar(n % 10);
      DecimalRoundTrip(n / 10);
    }
  }

  /** Distinct naturals are rendered as distinct strings. */
  lemma NatToStringInjective(a: nat, b: nat)
    ensures NatToString(a) == NatToString(b) <==> a == b
  {
    DecimalRoundTrip(a);
    DecimalRoundTrip(b);
  }

  /** A string of `n` spaces, as `std::string(n, ' ')`. */
  function Spaces(n: nat): (s: string)
    ensures |s| == n
    ensures forall i :: 0 <= i < n ==> s[i] == ' '
  {
    seq(n, _ => ' ')
  }

  /** `s` right-aligned in a field of `width` characters filled with spaces;
      a longer `s` is left as it is (`std::setw` never truncates). */
  function PadLeft(s: string, width: nat): string {
    if |s| < width then Spaces(width - |s|) + s else s
  }

  lemma PadLeftShape(s: string, width: nat)
    ensures var r := PadLeft(s, width);
      && |r| == (if |s| < width then width else |s|)
      && r[|r| - |s|..] == s
      && forall i :: 0 <= i < |r| - |s| ==> r[i] == ' '
  {
    var r := PadLeft(s, width);
    if |s| < width {
      assert r[|r| - |s|..] == s;
    }
  }

  // ---------------------------------------------------------------------
  // Lines

  predicate NoNewline(l: string) {
    '\n' !in l
  }

  /** Checking a literal character by character is cheaper for the solver
      than deciding membership in it. */
  lemma NoNewlineByIndex(l: string)
    requires forall i :: 0 <= i < |l| ==> l[i] != '\n'
    ensures NoNewline(l)
  {}

  predicate NoNewlines(ls: seq<string>) {
    forall l :: l in ls ==> NoNewline(l)
  }

  /** The text made of the lines `ls`, each one terminated by a newline. */
  function Unlines(ls: seq<string>): string {
    if ls == [] then "" else Unlines(ls[..|ls| - 1]) + ls[|ls| - 1] + "\n"
  }

  lemma UnlinesSnoc(ls: seq<string>, l: string)
    ensures Unlines(ls + [l]) == Unlines(ls) + l + "\n"
  {
    assert (ls + [l])[..|ls|] == ls;
  }

  /** Writing one more line to a stream that holds `out` and then the
      text of `lines`. */
  lemma AppendLine(out: string, lines: seq<string>, line: string)
    ensures out + Unlines(lines) + line + "\n" == out + Unlines(lines + [line])
  {
    UnlinesSnoc(lines, line);
  }

  /** Writing two, three, four, five or eight lines in one statement. */
  lemma WriteLines2(out: string, a: string, b: string)
    ensures out + a + "\n" + b + "\n" == out + Unlines([a, b])
  {
    AppendLine(out, [], a);
    AppendLine(out, [a], b);
    assert [a] + [b] == [a, b];
  }

  lemma WriteLines3(out: string, a: string, b: string, c: string)
    ensures out + a + "\n" + b + "\n" + c + "\n" == out + Unlines([a, b, c])
  {
    var l0: seq<string> := [];
    var l1 := l0 + [a];
    var l2 := l1 + [b];
    var l3 := l2 + [c];
    AppendLine(out, l0, a);
    AppendLine(out, l1, b);
    AppendLine(out, l2, c);
    assert l3 == [a, b, c];
  }

  lemma WriteLines4(out: string, a: string, b: string, c: string, d: string)
    ensures out + a + "\n" + b + "\n" + c + "\n" + d + "\n" == out + Unlines([a, b, c, d])
  {
    WriteLines3(out, a, b, c);
    AppendLine(out, [a, b, c], d);
    assert [a, b, c] + [d] == [a, b, c, d];
  }

  lemma WriteLines5(out: string, a: string, b: string, c: string, d: string, e: string)
    ensures out + a + "\n" + b + "\n" + c + "\n" + d + "\n" + e + "\n" == out + Unlines([a, b, c, d, e])
  {
    WriteLines4(out, a, b, c, d);
    AppendLine(out, [a, b, c, d], e);
    assert [a, b, c, d] + [e] == [a, b, c, d, e];
  }

  lemma WriteLines8(out: string, a: string, b: string, c: string, d: string,
                    e: string, f: string, g: string, h: string)
    ensures out + a + "\n" + b + "\n" + c + "\n" + d + "\n" + e + "\n" + f + "\n" + g + "\n" + h + "\n"
         == out + Unlines([a, b, c, d, e, f, g, h])
  {
    var o5 := out + a + "\n" + b + "\n" + c + "\n" + d + "\n" + e + "\n";
    WriteLines5(out, a, b, c, d, e);
    WriteLines3(o5, f, g, h);
    UnlinesAppend([a, b, c, d, e], [f, g, h]);
    assert [a, b, c, d, e] + [f, g, h] == [a, b, c, d, e, f, g, h];
  }

  /** The text of one line, and of two lines and an empty one. */
  lemma UnlinesShort(a: string, b: string)
    ensures Unlines([a]) == a + "\n"
    ensures Unlines([a, b, ""]) == a + "\n" + b + "\n" + "\n"
  {
    WriteLines3("", a, b, "");
    assert "" + a == a;
    assert "" + a + "\n" + b + "\n" + "" == a + "\n" + b + "\n";
    assert [a][..0] == [];
  }

  lemma {:induction false} UnlinesAppend(a: seq<string>, b: seq<string>)
    ensures Unlines(a + b) == Unlines(a) + Unlines(b)
    decreases |b|
  {
    if b == [] {
      assert a + b == a;
    } else {
      var b' := b[..|b| - 1];
      assert (a + b)[..|a + b| - 1] == a + b';
      UnlinesAppend(a, b');
    }
  }

  /** Writing a block of lines to a stream that holds `out` and then the
      text of `lines`. */
  lemma AppendLines(out: string, lines: seq<string>, block: seq<string>)
    ensures out + Unlines(lines) + Unlines(block) == out + Unlines(lines + block)
  {
    UnlinesAppend(lines, block);
  }

  /** Index of the first newline of `s`, or `|s|` when there is none. */
  function LineEnd(s: string): (k: nat)
    ensures k <= |s| && NoNewline(s[..k])
    ensures k < |s| ==> s[k] == '\n'
  {
    if s == [] || s[0] == '\n' then 0
    else
      var k := 1 + LineEnd(s[1..]);
      assert s[..k] == [s[0]] + s[1..][..k - 1];
      k
  }

  /** The lines of a text: split at each newline; a last line without a
      newline is kept. */
  function SplitLines(s: string): seq<string>
    decreases |s|
  {
    if s == [] then []
    else
      var k := LineEnd(s);
      if k == |s| then [s] else [s[..k]] + SplitLines(s[k + 1..])
  }

  lemma {:induction false} LineEndAfter(l: string, t: string)
    requires NoNewline(l)
    ensures LineEnd(l + "\n" + t) == |l|
    decreases |l|
  {
    if l != [] {
      assert (l + "\n" + t)[1..] == l[1..] + "\n" + t;
      LineEndAfter(l[1..], t);
    }
  }

  /** Splitting the text of newline-free lines at its newlines gives back
      exactly those lines. */
  lemma {:induction false} SplitUnlines(ls: seq<string>)
    requires NoNewlines(ls)
    ensures SplitLines(Unlines(ls)) == ls
    decreases |ls|
  {
    if ls != [] {
      var l, rest := ls[0], ls[1..];
      assert ls == [l] + rest;
      UnlinesAppend([l], rest);
      assert [l][..0] == [];
      var s := Unlines(ls);
      assert s == l + "\n" + Unlines(rest);
      LineEndAfter(l, Unlines(rest));
      assert s[..|l|] == l;
      assert s[|l| + 1..] == Unlines(rest);
      SplitUnlines(rest);
    }
  }

  // ---------------------------------------------------------------------
  // Blocks of lines

  /** The blocks `bs` of lines, one after the other. */
  function Concat(bs: seq<seq<string>>): seq<string> {
    if bs == [] then [] else Concat(bs[..|bs| - 1]) + bs[|bs| - 1]
  }

  lemma ConcatSnoc(bs: seq<seq<string>>, k: nat)
    requires k < |bs|
    ensures Concat(bs[..k + 1]) == Concat(bs[..k]) + bs[k]
  {
    assert bs[..k + 1][..k] == bs[..k];
  }

  lemma {:induction false} ConcatAppend(a: seq<seq<string>>, b: seq<seq<string>>)
    ensures Concat(a + b) == Concat(a) + Concat(b)
    decreases |b|
  {
    if b == [] {
      assert a + b == a;
    } else {
      var b' := b[..|b| - 1];
      assert (a + b)[..|a + b| - 1] == a + b';
      ConcatAppend(a, b');
    }
  }

  /** Index of the first line of block `k`. */
  function BlockStart(bs: seq<seq<string>>, k: nat): nat
    requires k <= |bs|
  {
    |Concat(bs[..k])|
  }

  /** Block `k` follows the blocks before it, with nothing in between. */
  lemma ConcatBlock(bs: seq<seq<string>>, k: nat)
    requires k < |bs|
    ensures BlockStart(bs, k + 1) == BlockStart(bs, k) + |bs[k]|
    ensures BlockStart(bs, k + 1) <= |Concat(bs)|
    ensures Concat(bs)[BlockStart(bs, k)..BlockStart(bs, k + 1)] == bs[k]
  {
    ConcatSnoc(bs, k);
    assert bs == bs[..k + 1] + bs[k + 1..];
    ConcatAppend(bs[..k + 1], bs[k + 1..]);
  }

  /** The same with lines before and after the blocks. */
  lemma FramedBlock(pre: seq<string>, bs: seq<seq<string>>, post: seq<string>, k: nat)
    requires k < |bs|
    ensures var ls, p := pre + Concat(bs) + post, |pre|;
      && BlockStart(bs, k + 1) == BlockStart(bs, k) + |bs[k]|
      && p + BlockStart(bs, k + 1) <= |ls|
      && ls[p + BlockStart(bs, k)..p + BlockStart(bs, k + 1)] == bs[k]
  {
    ConcatBlock(bs, k);
    FramedSlice(pre, Concat(bs), post, BlockStart(bs, k), BlockStart(bs, k + 1));
  }

  /** The lines before and after come first and last. */
  lemma FramedEnds(pre: seq<string>, mid: seq<string>, post: seq<string>)
    ensures var ls := pre + mid + post;
      && ls[..|pre|] == pre
      && ls[|ls| - |post|..] == post
  {
  }

  lemma FramedSlice(pre: seq<string>, mid: seq<string>, post: seq<string>, i: nat, j: nat)
    requires i <= j <= |mid|
    ensures (pre + mid + post)[|pre| + i..|pre| + j] == mid[i..j]
  {
    assert pre + mid + post == pre + (mid + post);
    assert (mid + post)[i..j] == mid[i..j];
  }

  /** The text of framed lines starts with the text of the lines before
      and ends with the text of the lines after. */
  lemma UnlinesFramed(pre: seq<string>, body: seq<string>, post: seq<string>)
    ensures var t, h, e := Unlines(pre + body + post), Unlines(pre), Unlines(post);
      && |h| + |e| <= |t|
      && t[..|h|] == h
      && t[|t| - |e|..] == e
  {
    UnlinesAppend(pre + body, post);
    UnlinesAppend(pre, body);
  }

  /** How often a line occurs among framed lines. */
  lemma FramedCount(pre: seq<string>, body: seq<string>, post: seq<string>, l: string)
    ensures multiset(pre + body + post)[l] == multiset(pre)[l] + multiset(body)[l] + multiset(post)[l]
  {
  }

  /** A line of the concatenation is a line of one of the blocks. */
  lemma {:induction false} ConcatMember(bs: seq<seq<string>>, l: string)
    requires l in Concat(bs)
    ensures exists k :: 0 <= k < |bs| && l in bs[k]
  {
    var front := bs[..|bs| - 1];
    if l !in bs[|bs| - 1] {
      ConcatMember(front, l);
      var k :| 0 <= k < |front| && l in front[k];
      assert bs[k] == front[k];
    }
  }

  /** The text of lines ending with `l` ends with `l` and a newline. */
  lemma UnlinesLast(front: seq<string>, l: string)
    ensures var t := Unlines(front + [l]);
      |l| + 1 <= |t| && t[|t| - (|l| + 1)..] == l + "\n"
  {
    assert (front + [l])[..|front + [l]| - 1] == front;
  }

  /** The text of lines starting with `a`, `b` and an empty line starts
      with those three lines. */
  lemma UnlinesHead(a: string, b: string, rest: seq<string>)
    ensures var t, h := Unlines([a, b, ""] + rest), a + "\n" + b + "\n" + "\n";
      |h| <= |t| && t[..|h|] == h
  {
    UnlinesAppend([a, b, ""], rest);
    UnlinesShort(a, b);
  }

  lemma NoNewlinesAppend(a: seq<string>, b: seq<string>)
    requires NoNewlines(a) && NoNewlines(b)
    ensures NoNewlines(a + b)
  {
  }

  lemma ConcatNoNewlines(bs: seq<seq<string>>)
    requires forall k :: 0 <= k < |bs| ==> NoNewlines(bs[k])
    ensures NoNewlines(Concat(bs))
  {
    forall l | l in Concat(bs) ensures NoNewline(l) {
      ConcatMember(bs, l);
    }
  }
}


/** The pgvector literal serialiser of the database helper module. How a single number is
    written (`String(x)` in JavaScript) is the parameter `render`. */
module Db {

  /** `Array.prototype.join`: the parts with `sep` between neighbours ("" for no parts). */
  function Join(parts: seq<string>, sep: char): string
  {
    if |parts| == 0 then ""
    else if |parts| == 1 then parts[0]
    else parts[0] + [sep] + Join(parts[1..], sep)
  }

  /** `String.prototype.split` on one character: maximal runs between separators, so the
      result is never empty and "" splits into [""]. */
  function Split(s: string, sep: char): (parts: seq<string>)
    ensures |parts| >= 1
  {
    if s == [] then [""]
    else
      var rest := Split(s[1..], sep);
      if s[0] == sep then [""] + rest
      else [[s[0]] + rest[0]] + rest[1..]
  }

  /** Each number's rendering, in input order. */
  function Rendered(vec: seq<real>, render: real -> string): (parts: seq<string>)
    ensures |parts| == |vec|
  {
    seq(|vec|, i requires 0 <= i < |vec| => render(vec[i]))
  }

  /** `toPgVectorLiteral`: `[` then the renderings joined by commas, then `]`. */
  function ToPgVectorLiteral(vec: seq<real>, render: real -> string): (lit: string)
    ensures |lit| >= 2 && lit[0] == '[' && lit[|lit| - 1] == ']'
    ensures vec == [] ==> lit == "[]"
  {
    "[" + Join(Rendered(vec, render), ',') + "]"
  }

  /** No rendering of an element of `vec` contains a comma (true of JavaScript's number
      rendering). */
  predicate CommaFree(vec: seq<real>, render: real -> string) {
    forall i :: 0 <= i < |vec| ==> ',' !in render(vec[i])
  }

  /** Number of occurrences of `c` in `s`. */
  function Count(s: string, c: char): nat
  {
    if s == [] then 0 else (if s[0] == c then 1 else 0) + Count(s[1..], c)
  }

  /** Sum of the lengths of the parts. */
  function TotalLength(parts: seq<string>): nat
  {
    if parts == [] then 0 else |parts[0]| + TotalLength(parts[1..])
  }

  lemma {:induction false} SplitPrefix(p: string, rest: string, sep: char)
    requires sep !in p
    ensures Split(p + rest, sep) == [p + Split(rest, sep)[0]] + Split(rest, sep)[1..]
  {
    if p != [] {
      assert (p + rest)[1..] == p[1..] + rest;
      SplitPrefix(p[1..], rest, sep);
      assert [p[0]] + (p[1..] + Split(rest, sep)[0]) == p + Split(rest, sep)[0];
    } else {
      var r := Split(rest, sep);
      assert p + rest == rest && p + r[0] == r[0];
      assert r == [r[0]] + r[1..];
    }
  }

  /** Splitting the joined parts on the separator gives the parts back, as long as no part
      contains the separator. */
  lemma {:induction false} SplitJoin(parts: seq<string>, sep: char)
    requires |parts| >= 1
    requires forall i :: 0 <= i < |parts| ==> sep !in parts[i]
    ensures Split(Join(parts, sep), sep) == parts
  {
    if |parts| == 1 {
      SplitPrefix(parts[0], "", sep);
      assert parts[0] + "" == parts[0];
    } else {
      var tail := Join(parts[1..], sep);
      SplitJoin(parts[1..], sep);
      assert parts[0] + [sep] + tail == parts[0] + ([sep] + tail);
      SplitPrefix(parts[0], [sep] + tail, sep);
      assert ([sep] + tail)[1..] == tail;
      assert Split([sep] + tail, sep) == [""] + parts[1..];
      assert parts[0] + "" == parts[0];
      assert parts == [parts[0]] + parts[1..];
    }
  }

  lemma {:induction false} CountAppend(a: string, b: string, c: char)
    ensures Count(a + b, c) == Count(a, c) + Count(b, c)
  {
    if a != [] {
      assert (a + b)[1..] == a[1..] + b;
      CountAppend(a[1..], b, c);
    } else {
      assert a + b == b;
    }
  }

  lemma {:induction false} CountAbsent(s: string, c: char)
    requires c !in s
    ensures Count(s, c) == 0
  {
    if s != [] {
      assert s[0] != c;
      assert forall x :: x in s[1..] ==> x in s;
      CountAbsent(s[1..], c);
    }
  }

  lemma {:induction false} JoinShape(parts: seq<string>, sep: char)
    requires |parts| >= 1
    requires forall i :: 0 <= i < |parts| ==> sep !in parts[i]
    ensures Count(Join(parts, sep), sep) == |parts| - 1
    ensures |Join(parts, sep)| == TotalLength(parts) + |parts| - 1
  {
    if |parts| == 1 {
      CountAbsent(parts[0], sep);
      assert TotalLength(parts) == |parts[0]| + TotalLength([]);
    } else {
      var tail := Join(parts[1..], sep);
      JoinShape(parts[1..], sep);
      CountAbsent(parts[0], sep);
      CountAppend(parts[0] + [sep], tail, sep);
      CountAppend(parts[0], [sep], sep);
    }
  }

  /** The inside of the literal splits on commas into exactly the element renderings, in
      input order, one per element. */
  lemma LiteralRoundTrip(vec: seq<real>, render: real -> string)
    requires |vec| >= 1 && CommaFree(vec, render)
    ensures var lit := ToPgVectorLiteral(vec, render);
            Split(lit[1..|lit| - 1], ',') == Rendered(vec, render)
  {
    var lit := ToPgVectorLiteral(vec, render);
    assert lit[1..|lit| - 1] == Join(Rendered(vec, render), ',');
    SplitJoin(Rendered(vec, render), ',');
  }

  /** A literal of n >= 1 comma-free renderings has n - 1 commas and length
      2 + (total rendering length) + (n - 1). */
  lemma LiteralCommasAndLength(vec: seq<real>, render: real -> string)
    requires |vec| >= 1 && CommaFree(vec, render)
    ensures var lit := ToPgVectorLiteral(vec, render);
            && Count(lit, ',') == |vec| - 1
            && |lit| == 2 + TotalLength(Rendered(vec, render)) + (|vec| - 1)
  {
    var inner := Join(Rendered(vec, render), ',');
    JoinShape(Rendered(vec, render), ',');
    CountAppend("[" + inner, "]", ',');
    CountAppend("[", inner, ',');
  }
}

/** The pure steps of the finalization handler: ranking the rows `match_jobs` returns and
    the generic reasons used when the model's reasons cannot be had. */
module Ranking {
  import opened Services

  /** How many ranked rows are kept. */
  const TopCount: nat := 10

  /** The generic reason given to every kept title on the fallback path. */
  const GenericReason: string := "تناسب بالا با الگوی علایق/ارزش‌ها/سبک‌های کاری شما."

  /** One entry of `top_matches`. */
  datatype Reason = Reason(title: string, reason: string)

  // ---------------------------------------------------------------------------------------
  // Stable sort by similarity, highest first (`rows.sort((a, b) => b.similarity - a.similarity)`)
  // ---------------------------------------------------------------------------------------

  /** Put `m` before the first row of `sorted` that does not beat it, so that it stays ahead
      of the rows with the same similarity that came after it in the input. */
  function Insert(m: Match, sorted: seq<Match>): (r: seq<Match>)
    ensures |r| == |sorted| + 1
  {
    if sorted == [] || sorted[0].similarity <= m.similarity then [m] + sorted
    else [sorted[0]] + Insert(m, sorted[1..])
  }

  /** Stable insertion sort by similarity, highest first. */
  function SortBySimilarity(rows: seq<Match>): (r: seq<Match>)
    ensures |r| == |rows|
  {
    if rows == [] then [] else Insert(rows[0], SortBySimilarity(rows[1..]))
  }

  predicate NonIncreasing(s: seq<Match>) {
    forall i, j :: 0 <= i < j < |s| ==> s[i].similarity >= s[j].similarity
  }

  /** The rows with similarity exactly `v`, in their order in `s`. */
  function WithSimilarity(s: seq<Match>, v: real): seq<Match>
  {
    if s == [] then []
    else (if s[0].similarity == v then [s[0]] else []) + WithSimilarity(s[1..], v)
  }

  predicate IsPrefix(a: seq<Match>, b: seq<Match>) {
    |a| <= |b| && b[..|a|] == a
  }

  lemma {:induction false} InsertPermutes(m: Match, sorted: seq<Match>)
    ensures multiset(Insert(m, sorted)) == multiset{m} + multiset(sorted)
  {
    if sorted != [] && sorted[0].similarity > m.similarity {
      InsertPermutes(m, sorted[1..]);
      assert sorted == [sorted[0]] + sorted[1..];
    }
  }

  lemma {:induction false} InsertSorted(m: Match, sorted: seq<Match>)
    requires NonIncreasing(sorted)
    ensures NonIncreasing(Insert(m, sorted))
  {
    if sorted != [] && sorted[0].similarity > m.similarity {
      InsertSorted(m, sorted[1..]);
      InsertPermutes(m, sorted[1..]);
      var r := Insert(m, sorted[1..]);
      forall k | 0 <= k < |r| ensures sorted[0].similarity >= r[k].similarity {
        assert r[k] in multiset(r);
        if r[k] != m {
          assert r[k] in multiset(sorted[1..]);
          var q :| 0 <= q < |sorted[1..]| && sorted[1..][q] == r[k];
          assert sorted[q + 1] == r[k];
        }
      }
    }
  }

  lemma {:induction false} InsertStable(m: Match, sorted: seq<Match>, v: real)
    ensures WithSimilarity(Insert(m, sorted), v) ==
            (if m.similarity == v then [m] else []) + WithSimilarity(sorted, v)
  {
    if sorted != [] && sorted[0].similarity > m.similarity {
      var rest := Insert(m, sorted[1..]);
      InsertStable(m, sorted[1..], v);
      var ins := [sorted[0]] + rest;
      assert ins[0] == sorted[0] && ins[1..] == rest;
      var tail := WithSimilarity(sorted[1..], v);
      if m.similarity == v {
        assert sorted[0].similarity != v;
        assert WithSimilarity(ins, v) == WithSimilarity(rest, v) == [m] + tail;
        assert WithSimilarity(sorted, v) == tail;
      } else {
        assert WithSimilarity(rest, v) == tail;
      }
    } else {
      var ins := [m] + sorted;
      assert ins[0] == m && ins[1..] == sorted;
    }
  }

  lemma {:induction false} SortProperties(rows: seq<Match>)
    ensures NonIncreasing(SortBySimilarity(rows))
    ensures multiset(SortBySimilarity(rows)) == multiset(rows)
    ensures |SortBySimilarity(rows)| == |rows|
  {
    if rows != [] {
      SortProperties(rows[1..]);
      InsertSorted(rows[0], SortBySimilarity(rows[1..]));
      InsertPermutes(rows[0], SortBySimilarity(rows[1..]));
      assert rows == [rows[0]] + rows[1..];
      assert |SortBySimilarity(rows)| == |multiset(SortBySimilarity(rows))|;
    }
  }

  /** The sort is stable: rows of equal similarity keep their input order. */
  lemma {:induction false} SortStable(rows: seq<Match>, v: real)
    ensures WithSimilarity(SortBySimilarity(rows), v) == WithSimilarity(rows, v)
  {
    if rows != [] {
      SortStable(rows[1..], v);
      InsertStable(rows[0], SortBySimilarity(rows[1..]), v);
    }
  }

  lemma {:induction false} WithSimilarityOfPrefix(s: seq<Match>, n: nat, v: real)
    requires n <= |s|
    ensures IsPrefix(WithSimilarity(s[..n], v), WithSimilarity(s, v))
  {
    if n > 0 {
      assert s[..n][1..] == s[1..][..n - 1];
      WithSimilarityOfPrefix(s[1..], n - 1, v);
    } else {
      assert s[..n] == [];
    }
  }

  function Min(a: nat, b: nat): nat { if a <= b then a else b }

  /** `top10`: the rows sorted by similarity, highest first, cut to the first ten. */
  function Top10(rows: seq<Match>): seq<Match>
  {
    SortBySimilarity(rows)[..Min(TopCount, |rows|)]
  }

  /** The kept list has ten rows, or all of them when there are fewer, in order of
      similarity, highest first. */
  lemma Top10Shape(rows: seq<Match>)
    ensures |Top10(rows)| == Min(TopCount, |rows|)
    ensures NonIncreasing(Top10(rows))
  {
    SortProperties(rows);
  }

  /** In a sorted sequence nothing after position `n` beats the row just before it. */
  lemma SortedTailBelow(sorted: seq<Match>, n: nat)
    requires NonIncreasing(sorted) && 0 < n <= |sorted|
    ensures forall m :: m in sorted[n..] ==> m.similarity <= sorted[n - 1].similarity
  {
    forall m | m in sorted[n..] ensures m.similarity <= sorted[n - 1].similarity {
      var q :| 0 <= q < |sorted[n..]| && sorted[n..][q] == m;
      assert sorted[n + q] == m;
    }
  }

  /** Every kept row is a gateway row (counting repeats), and no dropped row beats the last
      kept one. */
  lemma Top10KeepsBest(rows: seq<Match>)
    ensures multiset(Top10(rows)) <= multiset(rows)
    ensures forall m :: m in multiset(rows) - multiset(Top10(rows)) ==>
              m.similarity <= Top10(rows)[|Top10(rows)| - 1].similarity
  {
    var sorted := SortBySimilarity(rows);
    SortProperties(rows);
    var n := Min(TopCount, |rows|);
    var top := sorted[..n];
    assert sorted == top + sorted[n..];
    assert multiset(rows) == multiset(top) + multiset(sorted[n..]);
    if n > 0 {
      SortedTailBelow(sorted, n);
      assert top[|top| - 1] == sorted[n - 1];
      forall m | m in multiset(rows) - multiset(top)
        ensures m.similarity <= top[|top| - 1].similarity
      {
        assert m in sorted[n..];
      }
    }
  }

  /** Kept rows of equal similarity are the first of the gateway's rows with that similarity,
      in gateway order. */
  lemma Top10Stable(rows: seq<Match>, v: real)
    ensures IsPrefix(WithSimilarity(Top10(rows), v), WithSimilarity(rows, v))
  {
    SortProperties(rows);
    WithSimilarityOfPrefix(SortBySimilarity(rows), Min(TopCount, |rows|), v);
    SortStable(rows, v);
  }

  // ---------------------------------------------------------------------------------------
  // Fallback reasons (`top10.map(r => ({ title: r.title, reason: ... }))`)
  // ---------------------------------------------------------------------------------------

  /** One generic reason per kept row, same titles, same order. */
  function FallbackReasons(top: seq<Match>): (reasons: seq<Reason>)
    ensures |reasons| == |top|
    ensures forall i :: 0 <= i < |top| ==>
              reasons[i].title == top[i].title && reasons[i].reason == GenericReason
  {
    if top == [] then []
    else [Reason(top[0].title, GenericReason)] + FallbackReasons(top[1..])
  }

  /** The generic reason is not empty, and with at least ten gateway rows the fallback list
      has exactly ten entries, each naming a title the gateway returned. */
  lemma FallbackCoversTopTen(rows: seq<Match>)
    ensures GenericReason != ""
    ensures |rows| >= TopCount ==> |FallbackReasons(Top10(rows))| == TopCount
    ensures forall i :: 0 <= i < |FallbackReasons(Top10(rows))| ==>
              exists m :: m in rows && m.title == FallbackReasons(Top10(rows))[i].title
  {
    assert |GenericReason| > 0;
    var top := Top10(rows);
    Top10KeepsBest(rows);
    forall i | 0 <= i < |top|
      ensures exists m :: m in rows && m.title == FallbackReasons(top)[i].title
    {
      assert top[i] in multiset(top);
      assert top[i] in multiset(rows);
      assert top[i] in rows && top[i].title == FallbackReasons(top)[i].title;
    }
  }
}

/** The language-model and embedding helpers: choosing a Gemini model name from the listed
    models, the one-retry text generation, and turning the embedding service's reply into a
    single vector. */
module Llm {
  import opened Wrappers
  import opened Json
  import opened Services

  // ---------------------------------------------------------------------------------------
  // Model-name selection
  // ---------------------------------------------------------------------------------------

  /** The preferred model names, best first. */
  const ModelCandidates: seq<string> := ["gemini-1.5-flash-002", "gemini-1.5-flash", "gemini-1.0-pro"]

  /** The name used when nothing listed matches, or listing fails. */
  const FallbackModel: string := "gemini-1.5-flash"

  predicate EndsWith(s: string, suffix: string) {
    |suffix| <= |s| && s[|s| - |suffix|..] == suffix
  }

  /** A listed name stands for the wanted model when it is that name, or a path ending in it. */
  predicate Matches(entry: string, want: string) {
    EndsWith(entry, "/" + want) || entry == want
  }

  /** Some listed name stands for `want`. */
  predicate AnyMatch(available: seq<string>, want: string) {
    exists x :: x in available && Matches(x, want)
  }

  /** `available.find(...)`: the first listed name that matches `want`. */
  function Find(available: seq<string>, want: string): Option<string>
  {
    if available == [] then None
    else if Matches(available[0], want) then Some(available[0])
    else Find(available[1..], want)
  }

  /** The hit is the first listed name that matches, and there is none exactly when no listed
      name matches. */
  lemma {:induction false} FindIsFirstMatch(available: seq<string>, want: string)
    ensures var hit := Find(available, want);
            && (hit.Some? ==> exists i :: 0 <= i < |available| && available[i] == hit.value
                                          && Matches(hit.value, want)
                                          && forall j :: 0 <= j < i ==> !Matches(available[j], want))
            && (hit.None? <==> !AnyMatch(available, want))
  {
    if available != [] && !Matches(available[0], want) {
      var rest := Find(available[1..], want);
      FindIsFirstMatch(available[1..], want);
      if rest.Some? {
        var i :| 0 <= i < |available[1..]| && available[1..][i] == rest.value
                 && Matches(rest.value, want)
                 && forall j :: 0 <= j < i ==> !Matches(available[1..][j], want);
        assert available[i + 1] == rest.value;
        forall j | 0 <= j < i + 1 ensures !Matches(available[j], want) {
          if j > 0 { assert available[j] == available[1..][j - 1]; }
        }
      }
      assert forall x :: x in available <==> x == available[0] || x in available[1..];
    } else if available != [] {
      assert available[0] in available;
    }
  }

  /** Where the last segment of `s` starts: just after its last slash, or 0 if it has none. */
  function AfterLastSlash(s: string): (k: nat)
    ensures k <= |s|
  {
    if s == [] then 0
    else if s[|s| - 1] == '/' then |s|
    else AfterLastSlash(s[..|s| - 1])
  }

  /** `s.split("/").pop()`: the part of `s` after its last slash (all of `s` if it has none). */
  function LastSegment(s: string): string
  {
    s[AfterLastSlash(s)..]
  }

  /** The start is just after a slash (or at 0), and no slash comes after it. */
  lemma {:induction false} AfterLastSlashIsLast(s: string)
    ensures var k := AfterLastSlash(s);
            && (k > 0 ==> s[k - 1] == '/')
            && forall i :: k <= i < |s| ==> s[i] != '/'
  {
    if s != [] && s[|s| - 1] != '/' {
      AfterLastSlashIsLast(s[..|s| - 1]);
    }
  }

  /** The last segment has no slash. */
  lemma LastSegmentHasNoSlash(s: string)
    ensures '/' !in LastSegment(s)
  {
    AfterLastSlashIsLast(s);
  }

  /** The last segment ends `s`, and unless it is all of `s` a slash stands just before it:
      with the lemma above, it is the longest slash-free suffix. */
  lemma LastSegmentIsLastPart(s: string)
    ensures EndsWith(s, LastSegment(s))
    ensures |LastSegment(s)| < |s| ==> s[|s| - |LastSegment(s)| - 1] == '/'
  {
    AfterLastSlashIsLast(s);
  }

  /** Appending slash-free text does not move the last slash. */
  lemma {:induction false} AfterLastSlashAppend(p: string, w: string)
    requires '/' !in w
    ensures AfterLastSlash(p + w) == AfterLastSlash(p)
  {
    if w == [] {
      assert p + w == p;
    } else {
      var w', c := w[..|w| - 1], w[|w| - 1];
      assert c != '/' by { assert c in w; }
      var s := p + w;
      assert s[|s| - 1] == c;
      assert s[..|s| - 1] == p + w';
      AfterLastSlashAppend(p, w');
    }
  }

  /** Appending slash-free text extends the last segment by that text. */
  lemma LastSegmentAppend(p: string, w: string)
    requires '/' !in w
    ensures LastSegment(p + w) == LastSegment(p) + w
  {
    AfterLastSlashAppend(p, w);
    assert (p + w)[AfterLastSlash(p)..] == p[AfterLastSlash(p)..] + w;
  }

  /** A hit for a slash-free candidate always ends in that candidate, so taking its last
      segment gives back exactly the candidate. */
  lemma LastSegmentOfMatch(entry: string, want: string)
    requires '/' !in want
    requires Matches(entry, want)
    ensures LastSegment(entry) == want
  {
    if entry == want {
      LastSegmentAppend("", want);
      assert "" + want == want;
    } else {
      var p := entry[..|entry| - |want| - 1] + "/";
      assert entry == p + want;
      LastSegmentAppend(p, want);
    }
  }

  /** The loop of `pickFlashName` over the given candidates, best first. */
  function PickFrom(candidates: seq<string>, available: seq<string>): string
  {
    if candidates == [] then FallbackModel
    else
      match Find(available, candidates[0])
      case Some(hit) => if hit != "" then LastSegment(hit) else PickFrom(candidates[1..], available)
      case None => PickFrom(candidates[1..], available)
  }

  /** Every candidate is a bare model name: non-empty and slash-free. */
  predicate BareNames(candidates: seq<string>) {
    forall i :: 0 <= i < |candidates| ==> candidates[i] != "" && '/' !in candidates[i]
  }

  lemma {:induction false} PickFromFirstMatch(candidates: seq<string>, available: seq<string>, k: nat)
    requires BareNames(candidates)
    requires k < |candidates| && AnyMatch(available, candidates[k])
    requires forall j :: 0 <= j < k ==> !AnyMatch(available, candidates[j])
    ensures PickFrom(candidates, available) == candidates[k]
  {
    var hit := Find(available, candidates[0]);
    FindIsFirstMatch(available, candidates[0]);
    if k == 0 {
      LastSegmentOfMatch(hit.value, candidates[0]);
    } else {
      assert hit.None?;
      assert BareNames(candidates[1..]);
      PickFromFirstMatch(candidates[1..], available, k - 1);
    }
  }

  lemma {:induction false} PickFromNoMatch(candidates: seq<string>, available: seq<string>)
    requires forall j :: 0 <= j < |candidates| ==> !AnyMatch(available, candidates[j])
    ensures PickFrom(candidates, available) == FallbackModel
  {
    if candidates != [] {
      FindIsFirstMatch(available, candidates[0]);
      PickFromNoMatch(candidates[1..], available);
    }
  }

  /** `pickFlashName`: the candidate chosen for the listed model names. */
  function PickFlashName(available: seq<string>): string
  {
    PickFrom(ModelCandidates, available)
  }

  /** The earliest candidate that any listed name stands for is the one chosen. */
  lemma PickFlashNamePrefersEarliest(available: seq<string>, k: nat)
    requires k < |ModelCandidates| && AnyMatch(available, ModelCandidates[k])
    requires forall j :: 0 <= j < k ==> !AnyMatch(available, ModelCandidates[j])
    ensures PickFlashName(available) == ModelCandidates[k]
  {
    PickFromFirstMatch(ModelCandidates, available, k);
  }

  /** When nothing listed stands for any candidate (in particular when nothing is listed),
      the fixed fallback is chosen. */
  lemma PickFlashNameFallback(available: seq<string>)
    requires forall k :: 0 <= k < |ModelCandidates| ==> !AnyMatch(available, ModelCandidates[k])
    ensures PickFlashName(available) == FallbackModel
  {
    PickFromNoMatch(ModelCandidates, available);
  }

  lemma PickFlashNameOfNothing()
    ensures PickFlashName([]) == FallbackModel
  {
    PickFlashNameFallback([]);
  }

  /** The chosen name is always one of the candidates (the fallback is one of them too). */
  lemma PickFlashNameIsCandidate(available: seq<string>)
    ensures PickFlashName(available) in ModelCandidates
  {
    if k :| 0 <= k < |ModelCandidates| && AnyMatch(available, ModelCandidates[k]) {
      var first := EarliestMatch(available, k);
      PickFlashNamePrefersEarliest(available, first);
    } else {
      PickFlashNameFallback(available);
    }
  }

  /** When an earlier candidate is available, a later one is never chosen. */
  lemma PickFlashNameNeverLater(available: seq<string>, j: nat, k: nat)
    requires j < k < |ModelCandidates| && AnyMatch(available, ModelCandidates[j])
    ensures PickFlashName(available) != ModelCandidates[k]
  {
    var first := EarliestMatch(available, j);
    PickFlashNamePrefersEarliest(available, first);
  }

  /** The index of the earliest candidate, at or before `k`, that some listed name stands for. */
  lemma EarliestMatch(available: seq<string>, k: nat) returns (first: nat)
    requires k < |ModelCandidates| && AnyMatch(available, ModelCandidates[k])
    ensures first <= k && AnyMatch(available, ModelCandidates[first])
    ensures forall j :: 0 <= j < first ==> !AnyMatch(available, ModelCandidates[j])
  {
    first := 0;
    while !AnyMatch(available, ModelCandidates[first])
      invariant first <= k
      invariant forall j :: 0 <= j < first ==> !AnyMatch(available, ModelCandidates[j])
      decreases k - first
    {
      first := first + 1;
    }
  }

  /** A name that merely ends in the candidate, without the slash before it, does not match. */
  lemma BareSuffixDoesNotMatch(entry: string, want: string)
    requires |want| < |entry| && EndsWith(entry, want)
    requires entry[|entry| - |want| - 1] != '/'
    ensures !Matches(entry, want)
  {
  }

  /** `initGemini`'s choice: the picked name, or the fallback when listing the models fails. */
  function SelectModel(listed: Option<seq<string>>): string
  {
    match listed
    case Some(names) => PickFlashName(names)
    case None => FallbackModel
  }

  /** The model in use is always one of the candidates, and it is the fallback when listing
      the models fails. */
  lemma SelectModelIsCandidate(listed: Option<seq<string>>)
    ensures SelectModel(listed) in ModelCandidates
    ensures listed.None? ==> SelectModel(listed) == FallbackModel
  {
    if listed.Some? {
      PickFlashNameIsCandidate(listed.value);
    }
  }

  // ---------------------------------------------------------------------------------------
  // Text generation with one retry
  // ---------------------------------------------------------------------------------------

  /** What `generateText` answers when `n` calls were logged before it, and the calls it
      issues: the listing, the first attempt, and the retry when the first attempt fails. */
  function GenerateOutcome(remote: Remote, n: nat, prompt: Prompt): Outcome<Option<string>>
  {
    var model := SelectModel(remote.listModels(n));
    var first := remote.generate(n + 1, model, prompt);
    if first.Some? then Outcome(first, [ListModels, Call.GenerateContent(model, prompt)])
    else Outcome(remote.generate(n + 2, model, prompt),
                 [ListModels, Call.GenerateContent(model, prompt), Call.GenerateContent(model, prompt)])
  }

  /** `generateText`: select the model (one listing call), then at most two attempts. The first
      success is returned; a first failure is retried once, and the second attempt's outcome,
      failure included, is what the caller sees. The fixed delay between attempts is not
      modelled. */
  method GenerateText(remote: Remote, prompt: Prompt) returns (reply: Option<string>)
    modifies remote
    ensures var n := |old(remote.log)|;
            var model := SelectModel(remote.listModels(n));
            var first := remote.generate(n + 1, model, prompt);
            if first.Some? then
              && reply == first
              && remote.log == old(remote.log) + [ListModels, Call.GenerateContent(model, prompt)]
            else
              && reply == remote.generate(n + 2, model, prompt)
              && remote.log == old(remote.log) + [ListModels, Call.GenerateContent(model, prompt),
                                                  Call.GenerateContent(model, prompt)]
    ensures var out := GenerateOutcome(remote, |old(remote.log)|, prompt);
            reply == out.result && remote.log == old(remote.log) + out.calls
    ensures |old(remote.log)| < |remote.log| && remote.log[..|old(remote.log)|] == old(remote.log)
    ensures forall i :: |old(remote.log)| <= i < |remote.log| ==>
              remote.log[i] == ListModels || (remote.log[i].GenerateContent? && remote.log[i].prompt == prompt)
  {
    var listed := remote.ListModelNames();
    var model := SelectModel(listed);
    reply := remote.GenerateContent(model, prompt);
    if reply.None? {
      reply := remote.GenerateContent(model, prompt);
    }
  }

  // ---------------------------------------------------------------------------------------
  // Embedding
  // ---------------------------------------------------------------------------------------

  datatype EmbedError =
    | FetchFailed
    | HttpError(status: int)
    | InvalidBody
    | UnexpectedShape
    | NonNumericVector
    | RaggedTokens

  /** Every token row has at least `dim` entries (entries past `dim` are never read). */
  predicate Rectangular(tokens: seq<seq<real>>, dim: nat) {
    forall k :: 0 <= k < |tokens| ==> dim <= |tokens[k]|
  }

  /** Sum of column `i` over the token rows. */
  function ColumnSum(tokens: seq<seq<real>>, i: nat): real
    requires Rectangular(tokens, i + 1)
  {
    if tokens == [] then 0.0
    else ColumnSum(tokens[..|tokens| - 1], i) + tokens[|tokens| - 1][i]
  }

  /** The column-wise mean of the first `dim` columns. */
  function ColumnMeans(tokens: seq<seq<real>>, dim: nat): (means: seq<real>)
    requires |tokens| > 0 && Rectangular(tokens, dim)
    ensures |means| == dim
  {
    seq(dim, i requires 0 <= i < dim => ColumnSum(tokens, i) / (|tokens| as real))
  }

  /** The 2-D branch of `embedText`: a zero-filled accumulator gets every token row added in
      place, then each entry is divided by the number of tokens. */
  method MeanOverTokens(tokens: seq<seq<real>>) returns (out: array<real>)
    requires |tokens| > 0 && Rectangular(tokens, |tokens[0]|)
    ensures out.Length == |tokens[0]|
    ensures forall i :: 0 <= i < out.Length ==>
              out[i] == ColumnSum(tokens, i) / (|tokens| as real)
  {
    var dim := |tokens[0]|;
    out := new real[dim](_ => 0.0);
    for k := 0 to |tokens|
      invariant forall i :: 0 <= i < dim ==> out[i] == ColumnSum(tokens[..k], i)
    {
      var t := tokens[k];
      assert tokens[..k + 1][..k] == tokens[..k];
      for i := 0 to dim
        invariant forall j :: 0 <= j < i ==> out[j] == ColumnSum(tokens[..k + 1], j)
        invariant forall j :: i <= j < dim ==> out[j] == ColumnSum(tokens[..k], j)
      {
        out[i] := out[i] + t[i];
      }
    }
    assert tokens[..|tokens|] == tokens;
    for i := 0 to dim
      invariant forall j :: 0 <= j < i ==> out[j] == ColumnSum(tokens, j) / (|tokens| as real)
      invariant forall j :: i <= j < dim ==> out[j] == ColumnSum(tokens, j)
    {
      out[i] := out[i] / (|tokens| as real);
    }
  }

  /** The entries of a JSON array as numbers, when every entry is one. */
  function Numbers(items: seq<JsonValue>): (r: Option<seq<real>>)
    ensures r.Some? ==> |r.value| == |items|
                        && forall i :: 0 <= i < |items| ==> items[i] == JNumber(r.value[i])
    ensures r.None? ==> exists i :: 0 <= i < |items| && !items[i].JNumber?
  {
    if items == [] then Some([])
    else if !items[0].JNumber? then None
    else
      match Numbers(items[1..])
      case Some(rest) => Some([items[0].n] + rest)
      case None => assert forall i :: 0 <= i < |items[1..]| ==> items[1..][i] == items[i + 1]; None
  }

  /** The token rows of a 2-D reply, each cut to its first `dim` entries, when every row is an
      array whose first `dim` entries are numbers. */
  function TokenRows(rows: seq<JsonValue>, dim: nat): (m: Option<seq<seq<real>>>)
    ensures m.Some? ==> |m.value| == |rows| && forall k :: 0 <= k < |m.value| ==> |m.value[k]| == dim
  {
    if rows == [] then Some([])
    else if !rows[0].JArray? || |rows[0].items| < dim then None
    else
      match (Numbers(rows[0].items[..dim]), TokenRows(rows[1..], dim))
      case (Some(first), Some(rest)) => Some([first] + rest)
      case _ => None
  }

  /** The reply is a non-empty array whose first entry is a number (the 1-D test). */
  predicate OneDimensional(data: JsonValue) {
    data.JArray? && |data.items| > 0 && data.items[0].JNumber?
  }

  /** The reply is a non-empty array whose first entry is a non-empty array starting with a
      number (the 2-D test). */
  predicate TwoDimensional(data: JsonValue) {
    && data.JArray? && |data.items| > 0 && data.items[0].JArray?
    && |data.items[0].items| > 0 && data.items[0].items[0].JNumber?
  }

  /** What `embedText` makes of a successfully parsed reply body. */
  function EmbeddingOf(data: JsonValue): (r: Result<seq<real>, EmbedError>)
    ensures !OneDimensional(data) && !TwoDimensional(data) ==> r == Failure(UnexpectedShape)
    ensures TwoDimensional(data) && r.Success? ==> |r.value| == |data.items[0].items|
  {
    if OneDimensional(data) then
      match Numbers(data.items)
      case Some(v) => Success(v)
      case None => Failure(NonNumericVector)
    else if TwoDimensional(data) then
      var dim := |data.items[0].items|;
      match TokenRows(data.items, dim)
      case Some(m) => Success(ColumnMeans(m, dim))
      case None => Failure(RaggedTokens)
    else Failure(UnexpectedShape)
  }

  /** What `embedText` makes of the whole HTTP exchange. */
  function EmbedOutcome(response: HfResponse): Result<seq<real>, EmbedError>
  {
    match response
    case HfNetworkError => Failure(FetchFailed)
    case HfReply(status, body) =>
      if !(200 <= status <= 299) then Failure(HttpError(status))
      else
        match body
        case None => Failure(InvalidBody)
        case Some(data) => EmbeddingOf(data)
  }

  /** The shape dispatch of `embedText`, with the 2-D branch done by `MeanOverTokens`. */
  method ReduceEmbedding(data: JsonValue) returns (r: Result<seq<real>, EmbedError>)
    ensures r == EmbeddingOf(data)
  {
    if OneDimensional(data) {
      var v := Numbers(data.items);
      if v.Some? {
        r := Success(v.value);
      } else {
        r := Failure(NonNumericVector);
      }
    } else if TwoDimensional(data) {
      var dim := |data.items[0].items|;
      var m := TokenRows(data.items, dim);
      if m.Some? {
        var out := MeanOverTokens(m.value);
        assert out[..] == ColumnMeans(m.value, dim);
        r := Success(out[..]);
      } else {
        r := Failure(RaggedTokens);
      }
    } else {
      r := Failure(UnexpectedShape);
    }
  }

  /** `embedText`: one request to the embedding service, then the dispatch on its reply. */
  method EmbedText(remote: Remote, text: string) returns (r: Result<seq<real>, EmbedError>)
    modifies remote
    ensures remote.log == old(remote.log) + [Embed(text)]
    ensures r == EmbedOutcome(remote.embed(|old(remote.log)|, text))
  {
    var response := remote.Fetch(text);
    match response
    case HfNetworkError =>
      r := Failure(FetchFailed);
    case HfReply(status, body) =>
      if !(200 <= status <= 299) {
        r := Failure(HttpError(status));
      } else if body.None? {
        r := Failure(InvalidBody);
      } else {
        r := ReduceEmbedding(body.value);
      }
  }

  /** A vector as the JSON array the service would send. */
  function NumberArray(v: seq<real>): (items: seq<JsonValue>)
    ensures |items| == |v|
  {
    seq(|v|, i requires 0 <= i < |v| => JNumber(v[i]))
  }

  /** A matrix as the JSON array of arrays the service would send. */
  function NumberMatrix(m: seq<seq<real>>): (rows: seq<JsonValue>)
    ensures |rows| == |m|
  {
    seq(|m|, k requires 0 <= k < |m| => JArray(NumberArray(m[k])))
  }

  lemma {:induction false} NumbersOfNumberArray(v: seq<real>)
    ensures Numbers(NumberArray(v)) == Some(v)
  {
    if v != [] {
      assert NumberArray(v)[1..] == NumberArray(v[1..]);
      NumbersOfNumberArray(v[1..]);
      assert [v[0]] + v[1..] == v;
    }
  }

  lemma {:induction false} TokenRowsOfNumberMatrix(m: seq<seq<real>>, dim: nat)
    requires forall k :: 0 <= k < |m| ==> |m[k]| == dim
    ensures TokenRows(NumberMatrix(m), dim) == Some(m)
  {
    if m != [] {
      assert NumberMatrix(m)[1..] == NumberMatrix(m[1..]);
      assert NumberArray(m[0])[..dim] == NumberArray(m[0]);
      NumbersOfNumberArray(m[0]);
      TokenRowsOfNumberMatrix(m[1..], dim);
      assert [m[0]] + m[1..] == m;
    }
  }

  /** A flat numeric vector is returned unchanged. */
  lemma OneDimensionalPassesThrough(v: seq<real>)
    requires |v| > 0
    ensures EmbeddingOf(JArray(NumberArray(v))) == Success(v)
  {
    NumbersOfNumberArray(v);
  }

  /** A per-token matrix whose rows all have row 0's length is reduced to its column means. */
  lemma TwoDimensionalIsAveraged(m: seq<seq<real>>)
    requires |m| > 0 && |m[0]| > 0
    requires forall k :: 0 <= k < |m| ==> |m[k]| == |m[0]|
    ensures EmbeddingOf(JArray(NumberMatrix(m))) == Success(ColumnMeans(m, |m[0]|))
  {
    TokenRowsOfNumberMatrix(m, |m[0]|);
  }

  /** `n` identical token rows. */
  function Repeat(v: seq<real>, n: nat): (rows: seq<seq<real>>)
    ensures |rows| == n && forall k :: 0 <= k < n ==> rows[k] == v
  {
    seq(n, k requires 0 <= k < n => v)
  }

  lemma {:induction false} ColumnSumOfRepeat(v: seq<real>, n: nat, i: nat)
    requires i < |v|
    ensures ColumnSum(Repeat(v, n), i) == (n as real) * v[i]
  {
    if n > 0 {
      assert Repeat(v, n)[..n - 1] == Repeat(v, n - 1);
      ColumnSumOfRepeat(v, n - 1, i);
    }
  }

  /** Averaging copies of one vector gives that vector back. */
  lemma MeanOfIdenticalRows(v: seq<real>, n: nat)
    requires n > 0
    ensures ColumnMeans(Repeat(v, n), |v|) == v
  {
    forall i | 0 <= i < |v| ensures ColumnMeans(Repeat(v, n), |v|)[i] == v[i] {
      ColumnSumOfRepeat(v, n, i);
    }
  }

  /** The worked case: the tokens [1,2,3] and [3,4,5] average to [2,3,4]. */
  lemma TwoByThreeExample()
    ensures EmbeddingOf(JArray(NumberMatrix([[1.0, 2.0, 3.0], [3.0, 4.0, 5.0]])))
            == Success([2.0, 3.0, 4.0])
  {
    var m: seq<seq<real>> := [[1.0, 2.0, 3.0], [3.0, 4.0, 5.0]];
    TwoDimensionalIsAveraged(m);
    assert |m[..1][..0]| == 0;
    assert m[..1] == [[1.0, 2.0, 3.0]];
    forall i | 0 <= i < 3 ensures ColumnSum(m, i) == m[0][i] + m[1][i] {
      assert ColumnSum(m[..1], i) == ColumnSum(m[..1][..0], i) + m[0][i];
    }
    assert ColumnMeans(m, 3) == [2.0, 3.0, 4.0];
  }
}

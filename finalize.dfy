/** The finalization handler: turn a user's stored conversation into a career profile, a
    persona paragraph, and ten ranked jobs with reasons, then record the run. */
module Finalize {
  import opened Wrappers
  import opened Json
  import opened Services
  import opened Llm
  import opened Db
  import opened Ranking
  import opened Store

  /** The similarity floor and the row cap passed to `match_jobs`. */
  const SimilarityFloor: real := 0.40
  const CandidateCap: int := 30

  datatype Failure =
    | MissingUserId
    | UserNotFound
    | ProfileGenerationFailed
    | InvalidAnalysis
    | PersonaGenerationFailed
    | EmbeddingFailed(cause: EmbedError)
    | MatchFailed

  /** The HTTP status of each failure: 400 for a missing id, 404 for an unknown user, 500 for
      everything raised later. */
  function Status(f: Failure): (code: int)
    ensures code in {400, 404, 500}
    ensures code == 400 <==> f == MissingUserId
    ensures code == 404 <==> f == UserNotFound
  {
    match f
    case MissingUserId => 400
    case UserNotFound => 404
    case _ => 500
  }

  datatype Response =
    | Ok(careerProfile: JsonValue, persona: string, topMatches: TopMatches)
    | Error(failure: Failure)

  /** `userId` as read from the request body (None when absent or null) passes `!userId`. */
  predicate ValidUserId(userId: Option<int>) {
    userId.Some? && userId.value != 0
  }

  /** `conv.rows[0]`. */
  function ConversationOf(conversations: map<int, Conversation>, id: int): Option<Conversation>
  {
    if id in conversations then Some(conversations[id]) else None
  }

  /** `conv.rows[0]?.conversation_history || []`. */
  function HistoryOf(conv: Option<Conversation>): (history: JsonValue)
    ensures Truthy(history)
  {
    if conv.Some? && Truthy(conv.value.history) then conv.value.history else JArray([])
  }

  /** A profile is stored and passes the `if (!careerProfile)` test, so it is reused. */
  predicate HasProfile(conv: Option<Conversation>) {
    conv.Some? && conv.value.careerProfile.Some? && Truthy(conv.value.careerProfile.value)
  }

  /** The model call that extracts a profile. */
  predicate IsProfileCall(c: Call) {
    c.GenerateContent? && c.prompt.ProfilePrompt?
  }

  /** No profile-extraction call was issued from position `from` on. */
  predicate NoProfileCallSince(log: seq<Call>, from: nat) {
    forall i :: from <= i < |log| ==> !IsProfileCall(log[i])
  }

  /** Two log extensions without profile calls make one. */
  lemma NoProfileCallChain(a: seq<Call>, b: seq<Call>, c: seq<Call>)
    requires |a| <= |b| && b[..|a|] == a && NoProfileCallSince(b, |a|)
    requires |b| <= |c| && c[..|b|] == b && NoProfileCallSince(c, |b|)
    ensures c[..|a|] == a && NoProfileCallSince(c, |a|)
  {
    assert c[..|a|] == c[..|b|][..|a|];
    forall i | |a| <= i < |c| ensures !IsProfileCall(c[i]) {
      if i < |b| { assert c[i] == c[..|b|][i]; }
    }
  }

  /** `after` is `before` followed by at most one profile write. */
  predicate AtMostProfileWrite(before: seq<Write>, after: seq<Write>) {
    && |before| <= |after| <= |before| + 1
    && after[..|before|] == before
    && forall i :: |before| <= i < |after| ==> after[i].SetProfile?
  }

  /** Stage 1 as the oracles answer it, for the conversation row `conv` and `n` calls logged
      before: the stored profile with no call, or `JSON.parse` of the model's reply to the
      profile prompt built from the history. */
  function ProfileOutcome(remote: Remote, n: nat, conv: Option<Conversation>,
                          parse: string -> Option<JsonValue>): Outcome<Result<JsonValue, Failure>>
  {
    if HasProfile(conv) then Outcome(Success(conv.value.careerProfile.value), [])
    else
      var g := GenerateOutcome(remote, n, ProfilePrompt(HistoryOf(conv)));
      if g.result.None? then Outcome(Failure(ProfileGenerationFailed), g.calls)
      else if parse(g.result.value).None? then Outcome(Failure(InvalidAnalysis), g.calls)
      else Outcome(Success(parse(g.result.value).value), g.calls)
  }

  /** The profile write stage 1 issues: one, exactly when a profile was generated and parsed. */
  function ProfileWrites(id: int, conv: Option<Conversation>, profile: Result<JsonValue, Failure>): seq<Write>
  {
    if !HasProfile(conv) && profile.Success? then [SetProfile(id, profile.value)] else []
  }

  /** The conversations table after stage 1. */
  function AfterProfileStage(conversations: map<int, Conversation>, id: int, conv: Option<Conversation>,
                             profile: Result<JsonValue, Failure>): map<int, Conversation>
  {
    if !HasProfile(conv) && profile.Success? then ProfileSet(conversations, id, profile.value)
    else conversations
  }

  /** Stage 1. A stored profile that passes the truthiness test is reused without any call
      or write. Otherwise the transcript goes to the model; a failed call or an unparseable
      reply is fatal and persists nothing; a parsed reply is persisted at once. */
  method ProfileStage(db: Database, remote: Remote, id: int, parse: string -> Option<JsonValue>)
    returns (profile: Result<JsonValue, Failure>)
    modifies db, remote
    ensures var conv := ConversationOf(old(db.conversations), id);
            var out := ProfileOutcome(remote, |old(remote.log)|, conv, parse);
            && profile == out.result
            && remote.log == old(remote.log) + out.calls
            && db.conversations == AfterProfileStage(old(db.conversations), id, conv, profile)
            && db.writes == old(db.writes) + ProfileWrites(id, conv, profile)
    ensures db.users == old(db.users) && db.audit == old(db.audit)
    ensures HasProfile(ConversationOf(old(db.conversations), id)) ==>
              && profile == Success(old(db.conversations)[id].careerProfile.value)
              && unchanged(db) && remote.log == old(remote.log)
    ensures profile.Failure? ==>
              && unchanged(db)
              && profile.error in {ProfileGenerationFailed, InvalidAnalysis}
  {
    var conv := ConversationOf(db.conversations, id);
    if HasProfile(conv) {
      return Success(conv.value.careerProfile.value);
    }
    var analysis := GenerateText(remote, ProfilePrompt(HistoryOf(conv)));
    if analysis.None? {
      return Failure(ProfileGenerationFailed);
    }
    var parsed := parse(analysis.value);
    if parsed.None? {
      return Failure(InvalidAnalysis);
    }
    db.UpdateProfile(id, parsed.value);
    profile := Success(parsed.value);
  }

  /** What stages 2 to 4 produce: the persona paragraph, the rows `match_jobs` returned, the
      ten kept and the reasons list. */
  datatype Recommendation = Recommendation(persona: string, rows: seq<Match>, top10: seq<Match>,
                                           topMatches: TopMatches)

  /** `after` extends `before` with no profile-extraction call. */
  predicate ExtendsWithoutProfileCall(before: seq<Call>, after: seq<Call>) {
    |before| <= |after| && after[..|before|] == before && NoProfileCallSince(after, |before|)
  }

  /** Appending three call lists one after the other is appending their concatenation. */
  lemma AppendCalls(log: seq<Call>, a: seq<Call>, b: seq<Call>, c: seq<Call>)
    ensures log + a + b + c == log + (a + b + c)
    ensures log + a + b == log + (a + b)
  {
  }

  /** Two logged steps in a row extend the log by both their calls. */
  lemma LogSteps(log0: seq<Call>, a: seq<Call>, log1: seq<Call>, b: seq<Call>, log2: seq<Call>)
    requires log1 == log0 + a && log2 == log1 + b
    ensures log2 == log0 + (a + b)
    ensures |log1| == |log0| + |a| && |log2| == |log0| + |a| + |b|
  {
  }

  /** Calls that are listings or carry a non-profile prompt are no profile calls. */
  lemma OtherPromptCalls(before: seq<Call>, after: seq<Call>, prompt: Prompt)
    requires !prompt.ProfilePrompt?
    requires |before| <= |after| && after[..|before|] == before
    requires forall i :: |before| <= i < |after| ==>
               after[i] == ListModels || (after[i].GenerateContent? && after[i].prompt == prompt)
    ensures ExtendsWithoutProfileCall(before, after)
  {
  }

  /** Stage 3 as the oracles answer it, with `n` calls logged before: the embedding request,
      then, when it yields a vector, `match_jobs` on its pgvector literal with floor 0.40 and
      cap 30. */
  function MatchOutcome(remote: Remote, n: nat, persona: string, render: real -> string)
    : Outcome<Result<seq<Match>, Failure>>
  {
    var e := EmbedOutcome(remote.embed(n, persona));
    if e.Failure? then Outcome(Failure(EmbeddingFailed(e.error)), [Embed(persona)])
    else
      var lit := ToPgVectorLiteral(e.value, render);
      var best := remote.matchJobs(n + 1, lit, SimilarityFloor, CandidateCap);
      Outcome(if best.Some? then Success(best.value) else Failure(MatchFailed),
              [Embed(persona), Call.MatchJobs(lit, SimilarityFloor, CandidateCap)])
  }

  /** Stage 3 fails exactly when the embedding or the query fails, and on success the rows are
      the query's answer at the position it was logged, asked with the persona's vector. */
  lemma MatchOutcomeExactly(remote: Remote, n: nat, persona: string, render: real -> string)
    ensures var out := MatchOutcome(remote, n, persona, render);
            var e := EmbedOutcome(remote.embed(n, persona));
            && out.calls[0] == Embed(persona)
            && (out.result.Success? <==>
                  e.Success? && remote.matchJobs(n + 1, ToPgVectorLiteral(e.value, render),
                                                 SimilarityFloor, CandidateCap).Some?)
            && (e.Failure? ==> out.result == Failure(EmbeddingFailed(e.error)) && |out.calls| == 1)
            && (e.Success? ==>
                  && out.calls == [Embed(persona), Call.MatchJobs(ToPgVectorLiteral(e.value, render),
                                                                  SimilarityFloor, CandidateCap)]
                  && (out.result.Success? ==>
                        Some(out.result.value) == remote.matchJobs(n + 1, out.calls[1].vector,
                                                                   out.calls[1].floor, out.calls[1].cap)))
  {
  }

  /** Stage 3: embed the persona paragraph, write the vector as a pgvector literal and ask
      `match_jobs` for at most 30 rows at similarity 0.40 or more. */
  method EmbedAndMatch(remote: Remote, persona: string, render: real -> string, ghost at: nat)
    returns (rows: Result<seq<Match>, Failure>)
    requires at == |remote.log|
    modifies remote
    ensures var out := MatchOutcome(remote, at, persona, render);
            rows == out.result && remote.log == old(remote.log) + out.calls
    ensures ExtendsWithoutProfileCall(old(remote.log), remote.log)
    ensures rows.Failure? ==> rows.error.EmbeddingFailed? || rows.error == MatchFailed
  {
    ghost var log0 := remote.log;
    var vec := EmbedText(remote, persona);
    if vec.Failure? {
      return Failure(EmbeddingFailed(vec.error));
    }
    var lit := ToPgVectorLiteral(vec.value, render);
    var best := remote.QueryMatchJobs(lit, SimilarityFloor, CandidateCap);
    assert remote.log == log0 + [Embed(persona), Call.MatchJobs(lit, SimilarityFloor, CandidateCap)];
    if best.None? {
      return Failure(MatchFailed);
    }
    rows := Success(best.value);
  }

  /** Stage 4 as the oracles answer it: the parsed reply to the reasons prompt, or the generic
      reasons for the kept rows when the call or the parse fails. */
  function ExplainOutcome(remote: Remote, n: nat, careerProfile: JsonValue, top10: seq<Match>,
                          parse: string -> Option<JsonValue>): Outcome<TopMatches>
  {
    var g := GenerateOutcome(remote, n, ReasonsPrompt(careerProfile, top10));
    Outcome(if g.result.Some? && parse(g.result.value).Some? then FromModel(parse(g.result.value).value)
            else Generic(FallbackReasons(top10)),
            g.calls)
  }

  /** Stage 4: ask the model why each kept job fits. A failed call or an unparseable reply is
      not an error: every kept title then gets the generic reason. */
  method Explain(remote: Remote, careerProfile: JsonValue, top10: seq<Match>,
                 parse: string -> Option<JsonValue>, ghost at: nat)
    returns (reasons: TopMatches)
    requires at == |remote.log|
    modifies remote
    ensures var out := ExplainOutcome(remote, at, careerProfile, top10, parse);
            reasons == out.result && remote.log == old(remote.log) + out.calls
    ensures ExtendsWithoutProfileCall(old(remote.log), remote.log)
    ensures reasons.Generic? ==> reasons.reasons == FallbackReasons(top10)
  {
    ghost var log0 := remote.log;
    var reasonsText := GenerateText(remote, ReasonsPrompt(careerProfile, top10));
    OtherPromptCalls(log0, remote.log, ReasonsPrompt(careerProfile, top10));
    if reasonsText.Some? && parse(reasonsText.value).Some? {
      reasons := FromModel(parse(reasonsText.value).value);
    } else {
      reasons := Generic(FallbackReasons(top10));
    }
  }

  /** Stages 2 to 4 as the oracles answer them, for the profile at hand and `n` calls logged
      before: the persona paragraph, stage 3 on it, the top ten of its rows, and stage 4 on
      them. */
  function RecommendOutcome(remote: Remote, n: nat, careerProfile: JsonValue,
                            parse: string -> Option<JsonValue>, render: real -> string)
    : Outcome<Result<Recommendation, Failure>>
  {
    var g := GenerateOutcome(remote, n, PersonaPrompt(careerProfile));
    if g.result.None? then Outcome(Failure(PersonaGenerationFailed), g.calls)
    else
      var m := MatchOutcome(remote, n + |g.calls|, g.result.value, render);
      if m.result.Failure? then Outcome(Failure(m.result.error), g.calls + m.calls)
      else
        var top10 := Top10(m.result.value);
        var e := ExplainOutcome(remote, n + |g.calls| + |m.calls|, careerProfile, top10, parse);
        Outcome(Success(Recommendation(g.result.value, m.result.value, top10, e.result)),
                g.calls + m.calls + e.calls)
  }

  /** The three ways a run of stages 2 to 4 ends, in terms of its steps' outcomes. */
  lemma RecommendOutcomeSteps(remote: Remote, n: nat, careerProfile: JsonValue,
                              parse: string -> Option<JsonValue>, render: real -> string,
                              g: Outcome<Option<string>>, m: Outcome<Result<seq<Match>, Failure>>,
                              e: Outcome<TopMatches>)
    requires g == GenerateOutcome(remote, n, PersonaPrompt(careerProfile))
    requires g.result.Some? ==> m == MatchOutcome(remote, n + |g.calls|, g.result.value, render)
    requires g.result.Some? && m.result.Success? ==>
               e == ExplainOutcome(remote, n + |g.calls| + |m.calls|, careerProfile, Top10(m.result.value), parse)
    ensures var out := RecommendOutcome(remote, n, careerProfile, parse, render);
            if g.result.None? then out == Outcome(Failure(PersonaGenerationFailed), g.calls)
            else if m.result.Failure? then out == Outcome(Failure(m.result.error), g.calls + m.calls)
            else out == Outcome(Success(Recommendation(g.result.value, m.result.value, Top10(m.result.value), e.result)),
                                g.calls + m.calls + e.calls)
  {
    var out := RecommendOutcome(remote, n, careerProfile, parse, render);
    if g.result.None? {
      assert out == Outcome(Failure(PersonaGenerationFailed), g.calls);
    } else if m.result.Failure? {
      assert out == Outcome(Failure(m.result.error), g.calls + m.calls);
    }
  }

  /** Stages 2 to 4 fail exactly when the persona call or stage 3 fails; the reasons stage
      never makes them fail. */
  lemma RecommendFailsOnlyUpstream(remote: Remote, n: nat, careerProfile: JsonValue,
                                   parse: string -> Option<JsonValue>, render: real -> string)
    ensures var g := GenerateOutcome(remote, n, PersonaPrompt(careerProfile));
            var out := RecommendOutcome(remote, n, careerProfile, parse, render);
            out.result.Success? <==>
              g.result.Some? && MatchOutcome(remote, n + |g.calls|, g.result.value, render).result.Success?
  {
  }

  /** Stages 2 and 3 are wired as the handler wires them: the persona is the model's reply,
      it is what gets embedded, the rows are stage 3's answer and the ten kept are their top
      ten. */
  lemma RecommendWiring(remote: Remote, n: nat, careerProfile: JsonValue,
                        parse: string -> Option<JsonValue>, render: real -> string)
    ensures var g := GenerateOutcome(remote, n, PersonaPrompt(careerProfile));
            var out := RecommendOutcome(remote, n, careerProfile, parse, render);
            out.result.Success? ==>
              var rec := out.result.value;
              && g.result == Some(rec.persona)
              && out.calls[..|g.calls|] == g.calls
              && out.calls[|g.calls|] == Embed(rec.persona)
              && MatchOutcome(remote, n + |g.calls|, rec.persona, render).result == Success(rec.rows)
              && rec.top10 == Top10(rec.rows)
  {
    var g := GenerateOutcome(remote, n, PersonaPrompt(careerProfile));
    var none: Outcome<TopMatches> := Outcome(Generic([]), []);
    if g.result.None? {
      RecommendOutcomeSteps(remote, n, careerProfile, parse, render, g, Outcome(Failure(MatchFailed), []), none);
    } else {
      var m := MatchOutcome(remote, n + |g.calls|, g.result.value, render);
      if m.result.Failure? {
        RecommendOutcomeSteps(remote, n, careerProfile, parse, render, g, m, none);
      } else {
        MatchOutcomeExactly(remote, n + |g.calls|, g.result.value, render);
        var e := ExplainOutcome(remote, n + |g.calls| + |m.calls|, careerProfile, Top10(m.result.value), parse);
        RecommendOutcomeSteps(remote, n, careerProfile, parse, render, g, m, e);
        var out := RecommendOutcome(remote, n, careerProfile, parse, render);
        assert out.calls == g.calls + (m.calls + e.calls);
      }
    }
  }

  /** Stage 4 is wired as the handler wires it: after the persona calls, the embedding and the
      query, the reasons prompt carries the profile and exactly the ten kept rows, and the
      fallback explains exactly them. */
  lemma RecommendExplainsTopTen(remote: Remote, n: nat, careerProfile: JsonValue,
                                parse: string -> Option<JsonValue>, render: real -> string)
    ensures var g := GenerateOutcome(remote, n, PersonaPrompt(careerProfile));
            var out := RecommendOutcome(remote, n, careerProfile, parse, render);
            out.result.Success? ==>
              var rec := out.result.value;
              var k := |g.calls| + 2;
              && out.calls[k] == ListModels
              && out.calls[k + 1] == Call.GenerateContent(out.calls[k + 1].model, ReasonsPrompt(careerProfile, rec.top10))
              && (rec.topMatches.Generic? ==> rec.topMatches.reasons == FallbackReasons(rec.top10))
  {
    var g := GenerateOutcome(remote, n, PersonaPrompt(careerProfile));
    var none: Outcome<TopMatches> := Outcome(Generic([]), []);
    if g.result.None? {
      RecommendOutcomeSteps(remote, n, careerProfile, parse, render, g, Outcome(Failure(MatchFailed), []), none);
    } else {
      var m := MatchOutcome(remote, n + |g.calls|, g.result.value, render);
      if m.result.Failure? {
        RecommendOutcomeSteps(remote, n, careerProfile, parse, render, g, m, none);
      } else {
        MatchOutcomeExactly(remote, n + |g.calls|, g.result.value, render);
        var e := ExplainOutcome(remote, n + |g.calls| + |m.calls|, careerProfile, Top10(m.result.value), parse);
        RecommendOutcomeSteps(remote, n, careerProfile, parse, render, g, m, e);
        var out := RecommendOutcome(remote, n, careerProfile, parse, render);
        assert out.calls == (g.calls + m.calls) + e.calls;
        assert out.calls[|g.calls| + 2] == e.calls[0];
        assert out.calls[|g.calls| + 3] == e.calls[1];
      }
    }
  }

  /** Stages 2 to 4, once a profile is at hand: persona paragraph, embedding and match,
      ranking, reasons. Only remote calls happen here. */
  method Recommend(remote: Remote, careerProfile: JsonValue,
                   parse: string -> Option<JsonValue>, render: real -> string, ghost at: nat)
    returns (r: Result<Recommendation, Failure>)
    requires at == |remote.log|
    modifies remote
    ensures var out := RecommendOutcome(remote, at, careerProfile, parse, render);
            r == out.result && remote.log == old(remote.log) + out.calls
    ensures ExtendsWithoutProfileCall(old(remote.log), remote.log)
    ensures r.Failure? ==> r.error !in {MissingUserId, UserNotFound, ProfileGenerationFailed, InvalidAnalysis}
    ensures r.Success? ==> r.value.top10 == Top10(r.value.rows)
    ensures r.Success? && r.value.topMatches.Generic? ==> r.value.topMatches.reasons == FallbackReasons(r.value.top10)
  {
    ghost var log0 := remote.log;
    ghost var n := at;

    // 2) persona paragraph
    var persona := GenerateText(remote, PersonaPrompt(careerProfile));
    ghost var g := GenerateOutcome(remote, n, PersonaPrompt(careerProfile));
    ghost var log1 := remote.log;
    OtherPromptCalls(log0, log1, PersonaPrompt(careerProfile));
    if persona.None? {
      RecommendOutcomeSteps(remote, n, careerProfile, parse, render, g, Outcome(Failure(MatchFailed), []), Outcome(Generic([]), []));
      return Failure(PersonaGenerationFailed);
    }

    // 3) embedding and match, then the top ten
    var rows := EmbedAndMatch(remote, persona.value, render, n + |g.calls|);
    ghost var m := MatchOutcome(remote, n + |g.calls|, persona.value, render);
    ghost var log2 := remote.log;
    LogSteps(log0, g.calls, log1, m.calls, log2);
    NoProfileCallChain(log0, log1, log2);
    if rows.Failure? {
      RecommendOutcomeSteps(remote, n, careerProfile, parse, render, g, m, Outcome(Generic([]), []));
      return Failure(rows.error);
    }
    var top10 := Top10(rows.value);

    // 4) reasons
    var reasons := Explain(remote, careerProfile, top10, parse, n + |g.calls| + |m.calls|);
    ghost var e := ExplainOutcome(remote, n + |g.calls| + |m.calls|, careerProfile, top10, parse);
    LogSteps(log0, g.calls + m.calls, log2, e.calls, remote.log);
    NoProfileCallChain(log0, log2, remote.log);
    r := Success(Recommendation(persona.value, rows.value, top10, reasons));
    RecommendOutcomeSteps(remote, n, careerProfile, parse, render, g, m, e);
  }

  /** The remote part of a run for a known user: stage 1 on the user's conversation row, then
      stages 2 to 4 on its profile. */
  function RunOutcome(remote: Remote, n: nat, conv: Option<Conversation>,
                      parse: string -> Option<JsonValue>, render: real -> string)
    : Outcome<Result<(JsonValue, Recommendation), Failure>>
  {
    var p := ProfileOutcome(remote, n, conv, parse);
    if p.result.Failure? then Outcome(Failure(p.result.error), p.calls)
    else
      var r := RecommendOutcome(remote, n + |p.calls|, p.result.value, parse, render);
      Outcome(if r.result.Success? then Success((p.result.value, r.result.value)) else Failure(r.result.error),
              p.calls + r.calls)
  }

  /** A run whose stage 1 fails ends there, with stage 1's calls. */
  lemma RunStopsAtProfile(remote: Remote, n: nat, conv: Option<Conversation>,
                          parse: string -> Option<JsonValue>, render: real -> string,
                          p: Outcome<Result<JsonValue, Failure>>)
    requires p == ProfileOutcome(remote, n, conv, parse) && p.result.Failure?
    ensures RunOutcome(remote, n, conv, parse, render) == Outcome(Failure(p.result.error), p.calls)
  {
  }

  /** A run whose stage 1 yields a profile is stages 2 to 4 on that profile, after stage 1's
      calls. */
  lemma RunGoesOn(remote: Remote, n: nat, conv: Option<Conversation>,
                  parse: string -> Option<JsonValue>, render: real -> string,
                  p: Outcome<Result<JsonValue, Failure>>, r: Outcome<Result<Recommendation, Failure>>)
    requires p == ProfileOutcome(remote, n, conv, parse) && p.result.Success?
    requires r == RecommendOutcome(remote, n + |p.calls|, p.result.value, parse, render)
    ensures var run := RunOutcome(remote, n, conv, parse, render);
            && run.calls == p.calls + r.calls
            && run.result == (if r.result.Success? then Success((p.result.value, r.result.value))
                              else Failure(r.result.error))
  {
  }

  /** The same, with the log before the run, after stage 1 and after stages 2 to 4: the run's
      calls are what the two steps appended. */
  lemma RunContinues(remote: Remote, n: nat, conv: Option<Conversation>,
                     parse: string -> Option<JsonValue>, render: real -> string,
                     p: Outcome<Result<JsonValue, Failure>>, r: Outcome<Result<Recommendation, Failure>>,
                     log0: seq<Call>, log1: seq<Call>, log2: seq<Call>)
    requires p == ProfileOutcome(remote, n, conv, parse) && p.result.Success?
    requires r == RecommendOutcome(remote, n + |p.calls|, p.result.value, parse, render)
    requires log1 == log0 + p.calls && log2 == log1 + r.calls
    ensures var run := RunOutcome(remote, n, conv, parse, render);
            && log2 == log0 + run.calls
            && run.result == (if r.result.Success? then Success((p.result.value, r.result.value))
                              else Failure(r.result.error))
  {
    RunGoesOn(remote, n, conv, parse, render, p, r);
    LogSteps(log0, p.calls, log1, r.calls, log2);
  }

  /** What a successful run reports: a stored profile comes back as is, the ten kept rows are
      the ranked gateway rows, and the fallback explains exactly them. */
  lemma RunResponseFacts(remote: Remote, n: nat, conv: Option<Conversation>,
                         parse: string -> Option<JsonValue>, render: real -> string)
    ensures var run := RunOutcome(remote, n, conv, parse, render);
            run.result.Success? ==>
              var rec := run.result.value.1;
              && rec.top10 == Top10(rec.rows)
              && (rec.topMatches.Generic? ==> rec.topMatches.reasons == FallbackReasons(rec.top10))
              && (HasProfile(conv) ==> run.result.value.0 == conv.value.careerProfile.value)
  {
    var p := ProfileOutcome(remote, n, conv, parse);
    if p.result.Success? {
      var r := RecommendOutcome(remote, n + |p.calls|, p.result.value, parse, render);
      RecommendExplainsTopTen(remote, n + |p.calls|, p.result.value, parse, render);
      RecommendWiring(remote, n + |p.calls|, p.result.value, parse, render);
      RunGoesOn(remote, n, conv, parse, render, p, r);
    }
  }

  /** The response for a known user's run. */
  function ResponseOf(run: Result<(JsonValue, Recommendation), Failure>): Response
  {
    match run
    case Success((profile, rec)) => Ok(profile, rec.persona, rec.topMatches)
    case Failure(f) => Error(f)
  }

  /** Stages 2 to 5 once the profile is at hand: the recommendation, then the report
      timestamp and the audit row. A failure writes nothing. */
  method Complete(db: Database, remote: Remote, id: int, now: int, careerProfile: JsonValue,
                  parse: string -> Option<JsonValue>, render: real -> string, ghost at: nat)
    returns (resp: Response, ghost gatewayRows: seq<Match>, ghost top: seq<Match>)
    requires at == |remote.log|
    modifies db, remote
    ensures var out := RecommendOutcome(remote, at, careerProfile, parse, render);
            && remote.log == old(remote.log) + out.calls
            && resp == ResponseOf(if out.result.Success? then Success((careerProfile, out.result.value))
                                  else Failure(out.result.error))
            && (resp.Ok? ==> gatewayRows == out.result.value.rows && top == out.result.value.top10)
    ensures ExtendsWithoutProfileCall(old(remote.log), remote.log)
    ensures db.users == old(db.users)
    ensures resp.Error? ==>
              && unchanged(db)
              && resp.failure !in {MissingUserId, UserNotFound, ProfileGenerationFailed, InvalidAnalysis}
    ensures resp.Ok? ==>
              var row := AuditRow(id, careerProfile, resp.persona, resp.topMatches);
              && resp.careerProfile == careerProfile
              && db.conversations == ReportStamped(old(db.conversations), id, now)
              && db.audit == old(db.audit) + [row]
              && db.writes == old(db.writes) + [SetReportGenerated(id, now), InsertAudit(row)]
  {
    gatewayRows, top := [], [];
    var recommendation := Recommend(remote, careerProfile, parse, render, at);
    if recommendation.Failure? {
      return Error(recommendation.error), gatewayRows, top;
    }
    gatewayRows, top := recommendation.value.rows, recommendation.value.top10;

    // 5) report timestamp and audit row
    var persona, reasons := recommendation.value.persona, recommendation.value.topMatches;
    db.StampReport(id, now);
    db.AppendAudit(AuditRow(id, careerProfile, persona, reasons));
    resp := Ok(careerProfile, persona, reasons);
  }

  /** The handler once the user is known to have internal id `id`: stages 1 to 5. */
  method RunForUser(db: Database, remote: Remote, id: int, now: int,
                    parse: string -> Option<JsonValue>, render: real -> string)
    returns (resp: Response, ghost gatewayRows: seq<Match>, ghost top: seq<Match>)
    modifies db, remote
    ensures db.users == old(db.users)
    // the response and the calls are what the services answer; the tables change only by the
    // optional profile write and, on success, the timestamp
    ensures var conv := ConversationOf(old(db.conversations), id);
            var n := |old(remote.log)|;
            var run := RunOutcome(remote, n, conv, parse, render);
            var profile := ProfileOutcome(remote, n, conv, parse).result;
            var afterProfile := AfterProfileStage(old(db.conversations), id, conv, profile);
            && resp == ResponseOf(run.result)
            && remote.log == old(remote.log) + run.calls
            && (resp.Error? ==> db.conversations == afterProfile
                                && db.writes == old(db.writes) + ProfileWrites(id, conv, profile)
                                && db.audit == old(db.audit))
            && (resp.Ok? ==> db.conversations == ReportStamped(afterProfile, id, now)
                             && gatewayRows == run.result.value.1.rows
                             && top == run.result.value.1.top10)
    ensures resp.Error? && resp.failure in {ProfileGenerationFailed, InvalidAnalysis} ==> unchanged(db)
    // a successful run stamps the report and appends exactly one audit row holding the response
    ensures resp.Ok? ==>
              var row := AuditRow(id, resp.careerProfile, resp.persona, resp.topMatches);
              var stored := HasProfile(ConversationOf(old(db.conversations), id));
              && db.audit == old(db.audit) + [row]
              && db.writes == old(db.writes)
                              + (if stored then [] else [SetProfile(id, resp.careerProfile)])
                              + [SetReportGenerated(id, now), InsertAudit(row)]
    // a stored profile is never regenerated
    ensures HasProfile(ConversationOf(old(db.conversations), id)) ==>
              NoProfileCallSince(remote.log, |old(remote.log)|)
  {
    gatewayRows, top := [], [];
    ghost var log0 := remote.log;
    ghost var n := |log0|;
    ghost var conv := ConversationOf(db.conversations, id);
    ghost var p := ProfileOutcome(remote, n, conv, parse);
    var profile := ProfileStage(db, remote, id, parse);
    if profile.Failure? {
      RunStopsAtProfile(remote, n, conv, parse, render, p);
      return Error(profile.error), gatewayRows, top;
    }
    ghost var log1 := remote.log;
    ghost var r := RecommendOutcome(remote, n + |p.calls|, p.result.value, parse, render);
    resp, gatewayRows, top := Complete(db, remote, id, now, profile.value, parse, render, n + |p.calls|);
    RunContinues(remote, n, conv, parse, render, p, r, log0, log1, remote.log);
  }

  /** A stored profile survives the tables' changes of a run: neither update touches it. */
  lemma StoredProfileSurvives(conversations: map<int, Conversation>, id: int, conv: Option<Conversation>,
                              profile: Result<JsonValue, Failure>, now: int)
    requires conv == ConversationOf(conversations, id) && HasProfile(conv)
    ensures AfterProfileStage(conversations, id, conv, profile) == conversations
    ensures ProfileWrites(id, conv, profile) == []
    ensures id in ReportStamped(conversations, id, now)
    ensures ReportStamped(conversations, id, now)[id].careerProfile == conversations[id].careerProfile
  {
  }

  /** The `POST` handler. `now` is the database clock read by `now()`, `parse` is
      `JSON.parse` (None when it throws) and `render` writes one number. The rows the gateway
      returned and the ten kept are reported as ghost outputs. */
  method Finalize(db: Database, remote: Remote, userId: Option<int>, now: int,
                  parse: string -> Option<JsonValue>, render: real -> string)
    returns (resp: Response, ghost gatewayRows: seq<Match>, ghost top: seq<Match>)
    modifies db, remote
    ensures db.users == old(db.users)
    ensures |old(remote.log)| <= |remote.log| && remote.log[..|old(remote.log)|] == old(remote.log)
    // validation first, then the user lookup, both before any remote call or write
    ensures !ValidUserId(userId) ==>
              resp == Error(MissingUserId) && unchanged(db) && remote.log == old(remote.log)
    ensures ValidUserId(userId) && userId.value !in old(db.users) ==>
              resp == Error(UserNotFound) && unchanged(db) && remote.log == old(remote.log)
    // a known user's run: the response and the calls are what the services answer, and the
    // tables change only by the optional profile write and, on success, the timestamp
    ensures ValidUserId(userId) && userId.value in old(db.users) ==>
              var id := old(db.users)[userId.value];
              var conv := ConversationOf(old(db.conversations), id);
              var n := |old(remote.log)|;
              var run := RunOutcome(remote, n, conv, parse, render);
              var profile := ProfileOutcome(remote, n, conv, parse).result;
              var afterProfile := AfterProfileStage(old(db.conversations), id, conv, profile);
              && resp == ResponseOf(run.result)
              && remote.log == old(remote.log) + run.calls
              && (resp.Error? ==> db.conversations == afterProfile
                                  && db.writes == old(db.writes) + ProfileWrites(id, conv, profile))
              && (resp.Ok? ==> db.conversations == ReportStamped(afterProfile, id, now)
                               && gatewayRows == run.result.value.1.rows
                               && top == run.result.value.1.top10)
    // a failed run leaves no timestamp and no audit row; only a freshly made profile stays
    ensures resp.Error? ==> db.audit == old(db.audit) && AtMostProfileWrite(old(db.writes), db.writes)
    ensures resp.Error? && resp.failure in {ProfileGenerationFailed, InvalidAnalysis} ==> unchanged(db)
    // a stored profile is never regenerated, rewritten or replaced
    ensures ValidUserId(userId) && userId.value in old(db.users) ==>
              var id := old(db.users)[userId.value];
              HasProfile(ConversationOf(old(db.conversations), id)) ==>
                && NoProfileCallSince(remote.log, |old(remote.log)|)
                && (forall i :: |old(db.writes)| <= i < |db.writes| ==> !db.writes[i].SetProfile?)
                && id in db.conversations
                && db.conversations[id].careerProfile == old(db.conversations)[id].careerProfile
                && (resp.Ok? ==> resp.careerProfile == old(db.conversations)[id].careerProfile.value)
    // a successful run stamps the report and appends exactly one audit row holding the response
    ensures resp.Ok? ==>
              && ValidUserId(userId) && userId.value in old(db.users)
              && var id := old(db.users)[userId.value];
                 var row := AuditRow(id, resp.careerProfile, resp.persona, resp.topMatches);
                 var stored := HasProfile(ConversationOf(old(db.conversations), id));
                 && db.audit == old(db.audit) + [row]
                 && db.writes == old(db.writes)
                                 + (if stored then [] else [SetProfile(id, resp.careerProfile)])
                                 + [SetReportGenerated(id, now), InsertAudit(row)]
                 && (id in old(db.conversations) ==>
                       id in db.conversations && db.conversations[id].reportGenerated == Some(now))
    // the ten kept rows are the ranked gateway rows, and the fallback explains exactly them
    ensures resp.Ok? ==> top == Top10(gatewayRows)
    ensures resp.Ok? && resp.topMatches.Generic? ==> resp.topMatches.reasons == FallbackReasons(top)
  {
    gatewayRows, top := [], [];
    if !ValidUserId(userId) {
      return Error(MissingUserId), gatewayRows, top;
    }
    if userId.value !in db.users {
      return Error(UserNotFound), gatewayRows, top;
    }
    var id := db.users[userId.value];
    ghost var conv := ConversationOf(db.conversations, id);
    ghost var conversations0 := db.conversations;
    ghost var profile := ProfileOutcome(remote, |remote.log|, conv, parse).result;
    ghost var n := |remote.log|;
    resp, gatewayRows, top := RunForUser(db, remote, id, now, parse, render);
    RunResponseFacts(remote, n, conv, parse, render);
    if HasProfile(conv) {
      StoredProfileSurvives(conversations0, id, conv, profile, now);
    }
  }
}

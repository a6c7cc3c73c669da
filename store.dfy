/** The three tables the finalization handler reads and writes, with the ordered log of the
    statements it issues against them. Connection handling is not modelled. */
module Store {
  import opened Wrappers
  import opened Json
  import opened Ranking

  /** A `public.conversations` row. `careerProfile` is the jsonb column (None is SQL NULL);
      `reportGenerated` is the timestamp column. */
  datatype Conversation = Conversation(history: JsonValue, careerProfile: Option<JsonValue>,
                                       reportGenerated: Option<int>)

  /** What `top_matches` holds: the model's parsed reply, whatever JSON it is, or the
      generic reasons built by the handler. */
  datatype TopMatches = FromModel(json: JsonValue) | Generic(reasons: seq<Reason>)

  /** A `public.analysis_audit` row. */
  datatype AuditRow = AuditRow(userId: int, careerProfile: JsonValue, persona: string,
                               topMatches: TopMatches)

  /** One write statement, as issued (an UPDATE that matches no row is still issued). */
  datatype Write =
    | SetProfile(userId: int, profile: JsonValue)
    | SetReportGenerated(userId: int, at: int)
    | InsertAudit(row: AuditRow)

  /** The conversations table after `UPDATE ... SET career_profile = p WHERE user_id = id`:
      the row of `id`, when there is one, gets the profile; every other row is untouched. */
  function ProfileSet(conversations: map<int, Conversation>, id: int, p: JsonValue): (after: map<int, Conversation>)
    ensures after.Keys == conversations.Keys
    ensures forall k :: k in after && k != id ==> after[k] == conversations[k]
    ensures id in after ==> after[id].careerProfile == Some(p)
                            && after[id].history == conversations[id].history
                            && after[id].reportGenerated == conversations[id].reportGenerated
  {
    if id in conversations then conversations[id := conversations[id].(careerProfile := Some(p))]
    else conversations
  }

  /** The conversations table after `UPDATE ... SET report_generated = at WHERE user_id = id`. */
  function ReportStamped(conversations: map<int, Conversation>, id: int, at: int): (after: map<int, Conversation>)
    ensures after.Keys == conversations.Keys
    ensures forall k :: k in after && k != id ==> after[k] == conversations[k]
    ensures id in after ==> after[id].reportGenerated == Some(at)
                            && after[id].history == conversations[id].history
                            && after[id].careerProfile == conversations[id].careerProfile
  {
    if id in conversations then conversations[id := conversations[id].(reportGenerated := Some(at))]
    else conversations
  }

  class Database {
    /** `public.users`: telegram user id to internal id. */
    var users: map<int, int>
    /** `public.conversations`, keyed by internal user id. */
    var conversations: map<int, Conversation>
    /** `public.analysis_audit`, oldest first. */
    var audit: seq<AuditRow>
    /** Every write statement issued, oldest first. */
    var writes: seq<Write>

    constructor (users: map<int, int>, conversations: map<int, Conversation>)
      ensures this.users == users && this.conversations == conversations
      ensures audit == [] && writes == []
    {
      this.users := users;
      this.conversations := conversations;
      audit := [];
      writes := [];
    }

    /** `UPDATE public.conversations SET career_profile = $1 WHERE user_id = $2`. */
    method UpdateProfile(id: int, profile: JsonValue)
      modifies this
      ensures writes == old(writes) + [SetProfile(id, profile)]
      ensures conversations == ProfileSet(old(conversations), id, profile)
      ensures users == old(users) && audit == old(audit)
    {
      if id in conversations {
        conversations := conversations[id := conversations[id].(careerProfile := Some(profile))];
      }
      writes := writes + [SetProfile(id, profile)];
    }

    /** `UPDATE public.conversations SET report_generated = now() WHERE user_id = $1`. */
    method StampReport(id: int, now: int)
      modifies this
      ensures writes == old(writes) + [SetReportGenerated(id, now)]
      ensures conversations == ReportStamped(old(conversations), id, now)
      ensures users == old(users) && audit == old(audit)
    {
      if id in conversations {
        conversations := conversations[id := conversations[id].(reportGenerated := Some(now))];
      }
      writes := writes + [SetReportGenerated(id, now)];
    }

    /** `INSERT INTO public.analysis_audit ...`: always a new row, never an update. */
    method AppendAudit(row: AuditRow)
      modifies this
      ensures writes == old(writes) + [InsertAudit(row)]
      ensures audit == old(audit) + [row]
      ensures users == old(users) && conversations == old(conversations)
    {
      audit := audit + [row];
      writes := writes + [InsertAudit(row)];
    }
  }
}

/**
 * The memory stage (agents/memory_agent.py): reads the session's recent
 * working messages and the five newest episodic and semantic records of any
 * session.  The memory table the stage reads is the `table` of the services.
 */
module MemoryStage {
  import opened Common
  import opened JsonValue
  import opened MemoryTable
  import opened WorkingMemory
  import opened PipelineState

  const DefaultSession: string := "default"
  const WorkingLimit: nat := 20
  const RecentLimit: nat := 5

  /** `state.get("session_id") or "default"`. */
  function SessionOf(s: State): (id: string)
    ensures id != ""
    ensures Truthy(s.sessionId) ==> id == s.sessionId.value
    ensures !Truthy(s.sessionId) ==> id == DefaultSession
  {
    if Truthy(s.sessionId) then s.sessionId.value else DefaultSession
  }

  /** The two `memory_read_tool` calls, in order. */
  const RecentReads: seq<Call> := [MemoryRead(None, Episodic, RecentLimit, 0), MemoryRead(None, Semantic, RecentLimit, 0)]

  /** `memory_agent`. */
  function MemoryAgent(s: State, sv: Services): (r: StageResult)
    ensures Escalated(s) ==> r == Nothing
    ensures !Escalated(s) ==> r.calls == RecentReads && r.update.memoryResult.Some?
  {
    if Escalated(s) then Nothing
    else
      var session := SessionOf(s);
      var working := GetWorking(sv.table, sv.codec, session, WorkingLimit);
      var episodic := Newest(sv.table, Some(Episodic), None, RecentLimit, 0);
      var semantic := Newest(sv.table, Some(Semantic), None, RecentLimit, 0);
      StageResult(Empty.(memoryResult := Some(MemoryResult(working, episodic, semantic))), RecentReads)
  }

  /** The recent records of one type: at most five, all of that type and from the table, newest first. */
  lemma {:induction false} RecentSpec(table: seq<Record>, kind: MemoryType, clock: nat)
    requires WellFormed(table, clock)
    ensures var out := Newest(table, Some(kind), None, RecentLimit, 0);
            && |out| <= RecentLimit
            && (forall x :: x in out ==> x in table && x.kind == kind)
            && (forall i, j :: 0 <= i < j < |out| ==> out[i].createdAt > out[j].createdAt)
  {
    NewestMembers(table, Some(kind), None, RecentLimit, 0);
    NewestOrdered(table, Some(kind), None, RecentLimit, 0, clock);
  }

  /**
   * A non-escalated run writes `memory_result` only: the session's working
   * messages (the newest window of `GetWorkingIsNewestWindow`) and the recent
   * episodic and semantic records (see `RecentSpec`).
   */
  lemma {:induction false} MemoryAgentUpdate(s: State, sv: Services)
    requires !Escalated(s)
    ensures var m := MemoryAgent(s, sv).update.memoryResult.value;
            && MemoryAgent(s, sv).update == Empty.(memoryResult := Some(m))
            && m.working == GetWorking(sv.table, sv.codec, SessionOf(s), WorkingLimit)
            && m.episodic == Newest(sv.table, Some(Episodic), None, RecentLimit, 0)
            && m.semantic == Newest(sv.table, Some(Semantic), None, RecentLimit, 0)
  {
  }

  /** States that agree on the session (after defaulting) read the same memory. */
  lemma {:induction false} MemoryAgentSessionDefault(s1: State, s2: State, sv: Services)
    requires !Escalated(s1) && !Escalated(s2)
    requires !Truthy(s1.sessionId) && s2.sessionId == Some(DefaultSession)
    ensures MemoryAgent(s1, sv) == MemoryAgent(s2, sv)
  {
  }
}

/** The agent slice: the agents seen so far, the agent shown on a detail
    view, and the loading/error status of the last request. */
module AgentSlice {
  import opened Nullable
  import opened Entities
  import opened Thunk

  datatype AgentState = AgentState(
    agents: seq<Agent>,
    selectedAgent: Option<Agent>,
    isLoading: bool,
    error: Option<string>)

  const InitialState := AgentState([], None, false, None)

  datatype AgentAction =
    | ClearAgentError
    | ClearSelectedAgent
    | CreateAgent(create: AsyncAction<Json>)
    | FetchAgentByUsername(fetch: AsyncAction<Agent>)
  {
    predicate IsPending()
    {
      (CreateAgent? && create.Pending?) || (FetchAgentByUsername? && fetch.Pending?)
    }

    predicate IsRejectedWith(msg: string)
    {
      (CreateAgent? && create == Rejected(msg)) || (FetchAgentByUsername? && fetch == Rejected(msg))
    }
  }

  const CreateAgentFailed := "Failed to create agent"
  const FetchAgentFailed := "Failed to fetch agent"

  /** `createAgent`: POST /agent/onboard, message from the `message` field. */
  function CreateAgentThunk(resp: Response<Json>): (a: AgentAction)
    ensures a.CreateAgent? && !a.create.Pending?
    ensures a.create.Fulfilled? <==> resp.Ok?
    ensures a.create.Fulfilled? ==> a.create.payload == resp.data
    ensures a.create.Rejected? ==> a.create.message == RejectionMessage(resp.body, MessageKey, "Failed to create agent")
    ensures a.create.Rejected? ==> a.create.message != ""
  {
    CreateAgent(Settle(resp, MessageKey, CreateAgentFailed))
  }

  /** `fetchAgentByUsername`: GET /agent/username/{username}. */
  function FetchAgentThunk(resp: Response<Agent>): (a: AgentAction)
    ensures a.FetchAgentByUsername? && !a.fetch.Pending?
    ensures a.fetch.Fulfilled? <==> resp.Ok?
    ensures a.fetch.Fulfilled? ==> a.fetch.payload == resp.data
    ensures a.fetch.Rejected? ==> a.fetch.message == RejectionMessage(resp.body, MessageKey, "Failed to fetch agent")
    ensures a.fetch.Rejected? ==> a.fetch.message != ""
  {
    FetchAgentByUsername(Settle(resp, MessageKey, FetchAgentFailed))
  }

  /** Some agent in the list has this id. */
  predicate HasId(agents: seq<Agent>, id: string)
  {
    exists i :: 0 <= i < |agents| && agents[i].id == id
  }

  /** No two agents in the list share an id. */
  predicate DistinctIds(agents: seq<Agent>)
  {
    forall i, j :: 0 <= i < j < |agents| ==> agents[i].id != agents[j].id
  }

  /** `agents.find((a) => a.id === id)`: the first agent with this id. */
  function Find(agents: seq<Agent>, id: string): (r: Option<Agent>)
    ensures r.Some? <==> HasId(agents, id)
    ensures r.Some? ==> exists i :: 0 <= i < |agents| && agents[i] == r.value && r.value.id == id
                                    && forall j :: 0 <= j < i ==> agents[j].id != id
    decreases |agents|
  {
    if |agents| == 0 then None
    else if agents[0].id == id then Some(agents[0])
    else
      var r := Find(agents[1..], id);
      assert forall k :: 0 < k < |agents| ==> agents[k] == agents[1..][k - 1];
      r
  }

  /** The list after a fetched agent: unchanged when an agent with the same
      id is already present, otherwise the agent appended at the end. */
  function InsertIfAbsent(agents: seq<Agent>, a: Agent): (r: seq<Agent>)
    ensures HasId(r, a.id)
    ensures agents <= r
    ensures |r| == |agents| + 1 <==> !HasId(agents, a.id)
    ensures |r| == |agents| <==> HasId(agents, a.id)
    ensures |r| == |agents| + 1 ==> r[|agents|] == a
  {
    if Find(agents, a.id).Some? then agents
    else
      var r := agents + [a];
      assert r[|agents|].id == a.id;
      r
  }

  /** The slice reducer. */
  function Reduce(s: AgentState, a: AgentAction): (s': AgentState)
    // loading and a recorded error are never both set, once they start apart
    ensures !(s.isLoading && s.error.Some?) ==> !(s'.isLoading && s'.error.Some?)
    ensures s'.isLoading <==> a.IsPending() || (!a.CreateAgent? && !a.FetchAgentByUsername? && s.isLoading)
    ensures s'.error.Some? ==> s'.error == s.error || a.IsRejectedWith(s'.error.value)
    // the list only grows, by at most one agent, and only on a fetched agent
    ensures s.agents <= s'.agents && |s'.agents| <= |s.agents| + 1
    ensures s'.agents != s.agents ==> a.FetchAgentByUsername? && a.fetch.Fulfilled?
    // the selected agent changes only when cleared or freshly fetched
    ensures s'.selectedAgent != s.selectedAgent ==>
              a.ClearSelectedAgent? || (a.FetchAgentByUsername? && a.fetch.Fulfilled?)
  {
    match a
    case ClearAgentError => s.(error := None)
    case ClearSelectedAgent => s.(selectedAgent := None)
    case CreateAgent(r) =>
      (match r
         case Pending => s.(isLoading := true, error := None)
         case Fulfilled(_) => s.(isLoading := false)
         case Rejected(msg) => s.(isLoading := false, error := Some(msg)))
    case FetchAgentByUsername(r) =>
      (match r
         case Pending => s.(isLoading := true, error := None)
         case Fulfilled(agent) =>
           s.(isLoading := false, selectedAgent := Some(agent), agents := InsertIfAbsent(s.agents, agent))
         case Rejected(msg) => s.(isLoading := false, error := Some(msg)))
  }

  /** The list invariant: ids are distinct and the selected agent, if any,
      has an entry in the list. */
  predicate Valid(s: AgentState)
  {
    && DistinctIds(s.agents)
    && (s.selectedAgent.Some? ==> HasId(s.agents, s.selectedAgent.value.id))
  }

  /** Both `pending` actions start loading and clear the error, and leave the
      list and the selection alone. */
  lemma PendingStartsRequest(s: AgentState, a: AgentAction)
    requires a.IsPending()
    ensures Reduce(s, a) == s.(isLoading := true, error := None)
  {
  }

  /** A fetched agent is selected; the list gains it at the end only when no
      entry has its id, and existing entries keep their order and values, so
      an entry with that id is never overwritten. */
  lemma FetchFulfilledSelectsAndInserts(s: AgentState, agent: Agent)
    ensures var s' := Reduce(s, FetchAgentByUsername(Fulfilled(agent)));
            && s'.selectedAgent == Some(agent)
            && !s'.isLoading && s'.error == s.error
            && (HasId(s.agents, agent.id) ==> s'.agents == s.agents)
            && (!HasId(s.agents, agent.id) ==> s'.agents == s.agents + [agent])
  {
  }

  /** Applying the same fetched agent twice is the same as applying it once. */
  lemma FetchFulfilledIdempotent(s: AgentState, agent: Agent)
    ensures var once := Reduce(s, FetchAgentByUsername(Fulfilled(agent)));
            Reduce(once, FetchAgentByUsername(Fulfilled(agent))) == once
  {
  }

  /** Inserting keeps ids pairwise distinct. */
  lemma InsertIfAbsentKeepsIdsDistinct(agents: seq<Agent>, a: Agent)
    requires DistinctIds(agents)
    ensures DistinctIds(InsertIfAbsent(agents, a))
  {
  }

  /** A successful onboarding only stops loading: the list and the selection
      are untouched (the new agent is not added locally). */
  lemma CreateFulfilledOnlyStopsLoading(s: AgentState, body: Json)
    ensures Reduce(s, CreateAgent(Fulfilled(body))) == s.(isLoading := false)
  {
  }

  /** Either failure records the message and keeps the list and selection. */
  lemma RejectedRecordsError(s: AgentState, a: AgentAction, msg: string)
    requires a == CreateAgent(Rejected(msg)) || a == FetchAgentByUsername(Rejected(msg))
    ensures Reduce(s, a) == s.(isLoading := false, error := Some(msg))
  {
  }

  /** Each clear action changes only its own field. */
  lemma ClearActionsTouchOwnField(s: AgentState)
    ensures Reduce(s, ClearAgentError) == s.(error := None)
    ensures Reduce(s, ClearSelectedAgent) == s.(selectedAgent := None)
  {
  }

  /** Every action preserves the list invariant. */
  lemma ReducePreservesValid(s: AgentState, a: AgentAction)
    requires Valid(s)
    ensures Valid(Reduce(s, a))
  {
  }

  /** From the initial state, after any sequence of actions, ids are
      distinct and the selected agent is listed. */
  lemma {:induction false} ReplayKeepsValid(acts: seq<AgentAction>)
    ensures Valid(Replay(Reduce, InitialState, acts))
  {
    if |acts| > 0 {
      ReplayKeepsValid(acts[..|acts| - 1]);
      ReducePreservesValid(Replay(Reduce, InitialState, acts[..|acts| - 1]), acts[|acts| - 1]);
    }
  }

  /** Each thunk rejects with the server's non-empty `message`, otherwise
      with its own fallback string. */
  lemma ThunkRejectionMessages(raw: Response<Json>, resp: Response<Agent>)
    requires raw.Failed? && resp.Failed?
    ensures CreateAgentThunk(raw) == CreateAgent(Rejected(RejectionMessage(raw.body, MessageKey, "Failed to create agent")))
    ensures FetchAgentThunk(resp) == FetchAgentByUsername(Rejected(RejectionMessage(resp.body, MessageKey, "Failed to fetch agent")))
  {
  }
}

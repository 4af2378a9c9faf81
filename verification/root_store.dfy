/** The root state: one sub-state per slice, each owned by its own reducer.
    Every dispatched action reaches every slice reducer, and a slice ignores
    the actions of the others. */
module RootStore {
  import AuthSlice
  import FeedSlice
  import AgentSlice
  import opened Thunk

  datatype RootState = RootState(
    auth: AuthSlice.AuthState,
    feed: FeedSlice.FeedState,
    agent: AgentSlice.AgentState)

  const InitialState := RootState(AuthSlice.InitialState, FeedSlice.InitialState, AgentSlice.InitialState)

  datatype RootAction =
    | Auth(authAction: AuthSlice.AuthAction)
    | Feed(feedAction: FeedSlice.FeedAction)
    | Agent(agentAction: AgentSlice.AgentAction)

  /** The combined reducer. */
  function Dispatch(s: RootState, a: RootAction): (s': RootState)
    // no slice sees another slice's actions
    ensures !a.Auth? ==> s'.auth == s.auth
    ensures !a.Feed? ==> s'.feed == s.feed
    ensures !a.Agent? ==> s'.agent == s.agent
    ensures a.Auth? ==> s'.auth == AuthSlice.Reduce(s.auth, a.authAction)
    ensures a.Feed? ==> s'.feed == FeedSlice.Reduce(s.feed, a.feedAction)
    ensures a.Agent? ==> s'.agent == AgentSlice.Reduce(s.agent, a.agentAction)
  {
    match a
    case Auth(x) => s.(auth := AuthSlice.Reduce(s.auth, x))
    case Feed(x) => s.(feed := FeedSlice.Reduce(s.feed, x))
    case Agent(x) => s.(agent := AgentSlice.Reduce(s.agent, x))
  }

  /** Only the agent actions of a root action sequence, in order. */
  function AgentActions(acts: seq<RootAction>): (r: seq<AgentSlice.AgentAction>)
    ensures |r| <= |acts|
    decreases |acts|
  {
    if |acts| == 0 then []
    else
      var a := acts[|acts| - 1];
      AgentActions(acts[..|acts| - 1]) + (if a.Agent? then [a.agentAction] else [])
  }

  /** Interleaving actions of other slices does not affect the agent slice:
      it ends up as if it had seen only its own actions, whatever order the
      other slices' actions came in. */
  lemma {:induction false} ReplayAgentIgnoresOthers(s: RootState, acts: seq<RootAction>)
    ensures Replay(Dispatch, s, acts).agent == Replay(AgentSlice.Reduce, s.agent, AgentActions(acts))
  {
    if |acts| > 0 {
      var init := acts[..|acts| - 1];
      ReplayAgentIgnoresOthers(s, init);
      var a := acts[|acts| - 1];
      if a.Agent? {
        var own := AgentActions(init) + [a.agentAction];
        assert own[..|own| - 1] == AgentActions(init);
      } else {
        assert AgentActions(acts) == AgentActions(init);
      }
    }
  }

  /** Hence the agent invariant holds in the root state whatever the other
      slices do. */
  lemma {:induction false} ReplayAgentStaysValid(acts: seq<RootAction>)
    ensures AgentSlice.Valid(Replay(Dispatch, InitialState, acts).agent)
  {
    ReplayAgentIgnoresOthers(InitialState, acts);
    AgentSlice.ReplayKeepsValid(AgentActions(acts));
  }
}

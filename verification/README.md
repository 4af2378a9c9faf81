# Client state of the agent social network, in Dafny

This project models the client-side state layer of a web application for a
social network whose posts come from automated agents. The layer is three
Redux slices, each a pure function `(state, action) -> state`:

- **auth** holds the signed-in `user`, `isAuthenticated`, `isLoading` and
  `error`, driven by `logout`, `clearError` and the register, login,
  get-user and update-user requests;
- **agent** holds the `agents` seen so far, the `selectedAgent`, `isLoading`
  and `error`, driven by the clear actions and the create-agent and
  fetch-agent-by-username requests; a fetched agent is appended to the list
  only when no entry has its id;
- **feed** holds `posts`, `selectedPost`, `isLoading` and `error`, driven by
  the clear actions and the fetch-all and fetch-one requests.

Every request (a "thunk") dispatches `pending`, then `fulfilled` with the
response body or `rejected` with the server's message, or a fixed
per-request fallback string when that message is absent or empty. The model
also covers the pure parts of the post card: the relative-age label
`timeAgo` and the fallbacks for the author handle, avatar initials and
kudos count.

Modules: one per slice (`AuthSlice`, `AgentSlice`, `FeedSlice`), one for
the combined store (`RootStore`) and one for the post card (`PostCard`),
plus shared helpers: `Nullable` (optional values and JavaScript
`||` on strings), `Entities` (the User, Agent and Post records), `Thunk`
(the request lifecycle and replay of an action sequence) and `Decimal`
(decimal text of a count).

The HTTP call of each thunk is a parameter: a `Response` that is either the
body or a failure carrying the error body, when there is one. The wall clock,
date parsing and `toLocaleDateString` in `timeAgo` are parameters too: the
label is a function of the difference in milliseconds, and the long date is
an opaque string.

Three behaviours of the code differ from what a reader of the slice
pattern might expect; the model follows the code:

- A new request does not reset the selected item or the collection:
  `pending` resets only `error` and sets `isLoading`.
- `isLoading` does not mean "exactly one request is outstanding".
  Overlapping requests are not tracked: the first completion clears
  `isLoading` while another request is still outstanding
  (`AuthSlice.OverlappingRequestsClearLoading`).
- Error bodies are not read uniformly. The auth and agent requests read the
  body's `message` field, but the feed requests read its `error` field. A
  feed error body with only `message` therefore shows the fallback string.

## Model

| member | source | states |
|---|---|---|
| Nullable.OrElse | store/slices/authSlice.ts:32 | the JavaScript or-fallback of a message yields the message exactly when it is present and non-empty, otherwise the fallback; it is empty only if the fallback is |
| Thunk.Settle | store/slices/authSlice.ts:24-36 | a completed request is never `pending`; it is `fulfilled` exactly when the call succeeded, carrying the body; a rejection carries the server's non-empty message, or else the fallback; with a non-empty fallback a rejection's message is never empty |
| AuthSlice.Reduce | store/slices/authSlice.ts:78-154 | after any action, loading and an error are never both set; loading is on exactly after a `pending` (or kept by logout/clearError); a new error is always a rejection's message; `user` changes only on logout, get-user fulfilled or update-user fulfilled |
| AuthSlice.PendingStartsRequest | store/slices/authSlice.ts:94-97 | each of the four `pending` cases (also lines 109-112, 124-127, 141-144) sets loading, clears the error and changes nothing else, so `user` and `isAuthenticated` are kept |
| AuthSlice.SessionFulfilledAuthenticates | store/slices/authSlice.ts:98-116 | register and login success stop loading and set `isAuthenticated`, whatever the body, and leave `user` and `error` as they were |
| AuthSlice.GetUserSettles | store/slices/authSlice.ts:128-137 | get-user success stores the user and authenticates; get-user failure records the message and de-authenticates but keeps the old `user` |
| AuthSlice.RejectedRecordsError | store/slices/authSlice.ts:102-152 | register, login and update failures (lines 102-105, 117-120, 149-152) stop loading and record the message, leaving `user` and `isAuthenticated` as they were |
| AuthSlice.UpdateUserFulfilled | store/slices/authSlice.ts:145-148 | update success replaces `user` and leaves `isAuthenticated` and `error` unchanged |
| AuthSlice.LogoutEndsSession | store/slices/authSlice.ts:82-86 | logout yields no user, not authenticated, no error, and keeps the loading flag |
| AuthSlice.ClearErrorOnlyError | store/slices/authSlice.ts:87-89 | `clearError` changes only `error`, and applying it twice equals applying it once |
| AuthSlice.ThunkRejectionMessages | store/slices/authSlice.ts:24-76 | each auth request rejects with the body's `message` when non-empty, otherwise with its own fallback ("Registration failed", "Login failed", "Failed to fetch user", "Failed to update user"), so every rejection it dispatches is non-empty |
| AuthSlice.ReplayKeepsStatusConsistent | store/slices/authSlice.ts:17-153 | from the initial state, after any sequence of dispatched actions in any order, the stored error is non-empty when present and never coexists with the loading flag |
| AuthSlice.OverlappingRequestsClearLoading | store/slices/authSlice.ts:108-132 | a login pending, then a get-user pending and its success leave `isLoading` false although the login is still outstanding |
| AgentSlice.Find | store/slices/agentSlice.ts:80 | `find` by id returns an agent exactly when some entry has that id, and then the first such entry |
| AgentSlice.InsertIfAbsent | store/slices/agentSlice.ts:80-83 | afterwards the id is present; the old list is a prefix; the list grows by one exactly when the id was absent, and then the new agent is last |
| AgentSlice.Reduce | store/slices/agentSlice.ts:47-90 | loading and an error do not start coexisting; loading is on exactly after a `pending`; the list only grows, by at most one, and only on fetch-agent success; the selection changes only when cleared or on fetch-agent success |
| AgentSlice.PendingStartsRequest | store/slices/agentSlice.ts:60-76 | both `pending` cases (lines 60-63, 73-76) set loading and clear the error, keeping `agents` and `selectedAgent` |
| AgentSlice.FetchFulfilledSelectsAndInserts | store/slices/agentSlice.ts:77-84 | fetch success selects the agent; an existing entry with its id is kept unchanged (not overwritten); otherwise the agent is appended at the end |
| AgentSlice.FetchFulfilledIdempotent | store/slices/agentSlice.ts:77-84 | applying the same fetch success twice gives the same state as applying it once |
| AgentSlice.InsertIfAbsentKeepsIdsDistinct | store/slices/agentSlice.ts:80-83 | if the ids in the list are pairwise distinct before insertion, they still are afterwards |
| AgentSlice.CreateFulfilledOnlyStopsLoading | store/slices/agentSlice.ts:64-66 | create success only clears `isLoading`; the created agent is not added to `agents` and the selection is kept |
| AgentSlice.RejectedRecordsError | store/slices/agentSlice.ts:67-88 | both failures (lines 67-70, 85-88) stop loading and record the message, keeping `agents` and `selectedAgent` |
| AgentSlice.ClearActionsTouchOwnField | store/slices/agentSlice.ts:51-56 | `clearAgentError` changes only `error`; `clearSelectedAgent` changes only `selectedAgent` |
| AgentSlice.ReducePreservesValid | store/slices/agentSlice.ts:47-90 | every action keeps ids distinct and keeps the selected agent's id in the list |
| AgentSlice.ReplayKeepsValid | store/slices/agentSlice.ts:12-17 | from the initial empty state, after any sequence of actions, ids are distinct and the selected agent is listed |
| AgentSlice.ThunkRejectionMessages | store/slices/agentSlice.ts:19-45 | each agent request rejects with the body's `message` when non-empty, otherwise with "Failed to create agent" / "Failed to fetch agent" |
| FeedSlice.Reduce | store/slices/feedSlice.ts:47-89 | loading and an error do not start coexisting; loading is on exactly after a `pending`; `posts` changes only to a fetched list; the selection changes only when cleared or to a fetched post |
| FeedSlice.PendingStartsRequest | store/slices/feedSlice.ts:61-79 | both `pending` cases (lines 61-64, 76-79) set loading and clear the error, keeping `posts` and `selectedPost` |
| FeedSlice.FetchPostsFulfilledReplaces | store/slices/feedSlice.ts:65-68 | fetch-all success replaces `posts` with exactly the fetched sequence, in order, and stops loading |
| FeedSlice.RejectedRecordsError | store/slices/feedSlice.ts:69-87 | both failures (lines 69-72, 84-87) record the message and keep `posts` and `selectedPost` |
| FeedSlice.FetchPostByIdFulfilledSelects | store/slices/feedSlice.ts:80-83 | fetch-one success sets `selectedPost` and does not merge the post into `posts` |
| FeedSlice.ClearActionsTouchOwnField | store/slices/feedSlice.ts:51-56 | each clear action changes only its own field and is idempotent |
| FeedSlice.ReplayPostsAreLastFetched | store/slices/feedSlice.ts:61-72 | after any action sequence, `posts` is the list of the last successful fetch-all, or the starting list if none; failures never clear it |
| FeedSlice.ThunkRejectionMessages | store/slices/feedSlice.ts:19-45 | feed requests reject with the body's `error` field when non-empty, otherwise "Failed to fetch posts" / "Failed to fetch post"; a body with no `error` field gives the fallback |
| RootStore.Dispatch | store/store.ts:7-13 | the root state is the product of the three slices; an action changes only its own slice, by that slice's reducer |
| RootStore.ReplayAgentIgnoresOthers | store/store.ts:7-13 | the agent slice after any interleaving equals replaying only its own actions |
| RootStore.ReplayAgentStaysValid | store/store.ts:7-13 | the agent list invariant holds in the root state after any action sequence |
| PostCard.FloorDiv | components/PostCard.tsx:14 | `Math.floor(a / b)` is the integer `q` with `b*q <= a < b*(q+1)` |
| PostCard.TimeAgo | components/PostCard.tsx:10-22 | the minutes shown lie in 1..59, the hours in 1..23, the days in 1..29 |
| PostCard.FloorDivNested | components/PostCard.tsx:14-19 | flooring by minutes then by 60 (then by 24) equals flooring once by the hour (day) length |
| PostCard.TimeAgoBuckets | components/PostCard.tsx:13-21 | exactly one bucket applies to each difference: under 60000 ms (including negative, future timestamps) "just now"; under one hour minutes; under one day hours; under 30 days days; else the locale date; each count is the difference floored to its unit |
| PostCard.TimeAgoMonotone | components/PostCard.tsx:14-21 | a larger difference never gives an earlier bucket or a smaller count in the same bucket |
| PostCard.TimeAgoTextReadsBack | components/PostCard.tsx:15-20 | a short label is 2 or 3 characters: decimal digits that read back as the count, then `m`, `h` or `d` according to the range |
| Decimal.Show | components/PostCard.tsx:16 | a count renders as non-empty digits with no leading zero, one digit exactly below 10 and at most two below 100 |
| Decimal.ParseShow | components/PostCard.tsx:16 | reading the rendered digits gives back the count |
| Thunk.ServerMessage | store/slices/authSlice.ts:32 | `error.response?.data?.message` (or `?.error`, feedSlice.ts:27): absent when the server sent no body, otherwise exactly the chosen field of the body |
| Thunk.ReplayConcat | store/store.ts:7-13 | the store applies dispatched actions one at a time (`Thunk.Replay`): replaying two sequences in turn equals replaying their concatenation |
| AuthSlice.RegisterUserThunk | store/slices/authSlice.ts:24-36 | `registerUser` dispatches `fulfilled` with the body exactly when the call succeeds, otherwise `rejected` with the body's non-empty `message` or "Registration failed"; never an empty message |
| AuthSlice.LoginUserThunk | store/slices/authSlice.ts:38-48 | `loginUser` settles the same way, with fallback "Login failed" |
| AuthSlice.GetUserThunk | store/slices/authSlice.ts:50-62 | `getUser` fulfils with the fetched user, or rejects with `message` or "Failed to fetch user" |
| AuthSlice.UpdateUserThunk | store/slices/authSlice.ts:64-76 | `updateUser` fulfils with the updated user, or rejects with `message` or "Failed to update user" |
| AgentSlice.CreateAgentThunk | store/slices/agentSlice.ts:19-31 | `createAgent` fulfils with the body, or rejects with `message` or "Failed to create agent" |
| AgentSlice.FetchAgentThunk | store/slices/agentSlice.ts:33-45 | `fetchAgentByUsername` fulfils with the agent, or rejects with `message` or "Failed to fetch agent" |
| FeedSlice.FetchPostsThunk | store/slices/feedSlice.ts:19-31 | `fetchPosts` fulfils with the post list, or rejects with the body's `error` field or "Failed to fetch posts" |
| FeedSlice.FetchPostByIdThunk | store/slices/feedSlice.ts:33-45 | `fetchPostById` fulfils with the post, or rejects with the body's `error` field or "Failed to fetch post" |
| PostCard.TimeAgoText | components/PostCard.tsx:15-21 | the label is "just now" below one minute (future timestamps included), the locale date from 30 days on, and otherwise two or three characters ending in `m`, `h` or `d` |
| PostCard.Handle | components/PostCard.tsx:43 | the handle is `agent_username` when non-empty, else the first `min(8, length)` characters of `agent_id` |
| PostCard.Initials | components/PostCard.tsx:37 | initials are the upper-cased first one or two characters of a non-empty username, else "AG" |
| PostCard.KudosShown | components/PostCard.tsx:94 | the kudos shown are the count when present (a zero count shows 0) and 0 when absent |

## Left out

- The HTTP calls (`@/utils/api` is not part of this model) and credentials: each thunk's call is a `Response` parameter.
- Event-loop scheduling of concurrent thunks: actions are applied one at a time in any order (`Thunk.Replay`), with no model of which orders the network produces.
- Error-body fields that are not strings (a number or an object in `message`): the model has a string or nothing. A failure without a response body (a network error, or any other exception inside the request) is `Failed(None)` and rejects with the fallback.
- The register/login and onboarding response bodies are opaque (`Entities.Json`): no reducer reads them.
- `Agent.runAfterEveryHours` is a JSON number; the model keeps an integer. Field contents other than ids are carried unread.
- PostCard.TimeAgo: a difference of NaN (an unparseable date) is not modelled; the difference is an integer. The long date text is an opaque parameter.
- PostCard.Initials: `slice(0, 2)` counts UTF-16 code units, the model counts code points; for the username "😀ab" the source shows the emoji alone and the model the emoji followed by "A"; for "a😀" the source shows "A" followed by a lone surrogate and the model "A" followed by the emoji.
- PostCard.Initials: upper-casing covers ASCII letters only; Unicode case mapping (which can change the length) is not modelled.
- PostCard.Handle: `slice(0, 8)` counts UTF-16 code units, the model counts code points; the two differ for characters outside the Basic Multilingual Plane (an emoji counts as two units in the source, one character here).
- PostCard.Handle: `agent_id` is taken as always present, as its declaration says; the `?.` guard against it being absent is not modelled.
- `store.ts` hooks and `configureStore` wiring, `Sidebar.tsx`, JSX rendering, routing, icons and styling.
- Client-side form validation of the pages: no validation code is part of the slices.

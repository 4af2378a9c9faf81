/** The records the server sends back, as the client's type declarations
    describe them. Only identifiers matter for behaviour; every other field
    is carried along unread. */
module Entities {
  import opened Nullable

  /** A registered human user (types/user.ts). */
  datatype User = User(
    id: string,
    email: string,
    firstName: string,
    lastName: string,
    username: string,
    createdAt: string)

  /** An automated poster (types/agent.ts). The run interval is a JSON
      number; the model keeps whole hours. */
  datatype Agent = Agent(
    id: string,
    name: string,
    desc: Option<string>,
    agentUsername: string,
    isActive: bool,
    version: string,
    baseUrl: string,
    userId: string,
    runAfterEveryHours: int,
    lastRunAt: Option<string>,
    createdAt: string,
    updatedAt: Option<string>)

  /** A feed item (types/post.ts). `agentUsername` is optional in the
      declaration; `kudosCount` is declared as a number, but the views guard
      against the server leaving it out, so the model allows its absence. */
  datatype Post = Post(
    id: string,
    title: string,
    body: string,
    tags: seq<string>,
    agentId: string,
    agentUsername: Option<string>,
    kudosCount: Option<int>,
    createdAt: string)

  /** A response body that no reducer reads (the register and login
      responses, and the agent onboarding response). */
  datatype Json = Json(raw: string)
}

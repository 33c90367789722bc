/**
 The rows that the actors of the conversation-execution protocol share
 (packages/database/prisma/schema.prisma).

 A table is a sequence: a row's id is its position, so creation appends, ids are
 fresh and the order of ids is the order of creation. The columns of an
 AgentSession that are fixed at creation are an `Execution`; the columns that
 workers write are its `Life`, at the same position of another sequence. In the
 same way a ProviderSession is split into its pinned columns and its status.
 */
module Tables {
  import opened Wrappers
  import opened Capability

  type Id = nat

  datatype Conversation = Conversation(projectId: Id, sequence: nat, handoffSequence: nat)

  datatype Task = Task(projectId: Id)

  /** A ConversationMessage with role USER. */
  datatype UserMessage = UserMessage(conversationId: Id, mode: Mode, idempotencyKey: string)

  datatype Execution = Execution(
    projectId: Id,
    taskId: Id,
    providerId: string,
    conversationId: Id,
    providerSessionId: Id,
    userMessageId: Id,
    capability: ExecutionCapability,
    requestedModel: Option<string>,
    reasoningEffort: Option<string>,
    modelSource: ModelSource)

  datatype ProviderSession = ProviderSession(conversationId: Id, providerId: string, resolvedModel: Option<string>)

  datatype RoutingDecision = RoutingDecision(conversationId: Id, userMessageId: Id, selectedProviderId: string)

  datatype Handoff = Handoff(
    conversationId: Id,
    fromProviderId: string,
    toProviderId: string,
    fromModel: Option<string>,
    toModel: Option<string>,
    version: nat)

  datatype Catalog = Catalog(
    conversations: seq<Conversation>,
    tasks: seq<Task>,
    userMessages: seq<UserMessage>,
    executions: seq<Execution>,
    providerSessions: seq<ProviderSession>,
    routing: seq<RoutingDecision>,
    handoffs: seq<Handoff>)

  datatype State = Queued | Starting | Running | Succeeded | Failed | Cancelled | TimedOut

  predicate Terminal(s: State) {
    s == Succeeded || s == Failed || s == Cancelled || s == TimedOut
  }

  predicate InProgress(s: State) {
    s == Starting || s == Running
  }

  predicate Active(s: State) {
    s == Queued || InProgress(s)
  }

  type WorkerId = nat
  type SweepId = nat
  type Time = int

  datatype Life = Life(state: State, worker: Option<WorkerId>, lease: Option<Time>)

  const QUEUED := Life(Queued, None, None)

  /** A terminal write together with the source's `releasedLeaseFields`. */
  function Released(s: State): Life {
    Life(s, None, None)
  }

  datatype SessionStatus = SessionRunning | SessionCompleted | SessionFailed

  /** A ConversationMessage with role ASSISTANT; `completed` says COMPLETED rather than FAILED. */
  datatype Reply = Reply(executionId: Id, conversationId: Id, providerId: string, completed: bool)

  /** The job payload: ids only. */
  datatype Job = Job(
    sessionId: Id,
    taskId: Id,
    conversationId: Id,
    messageId: Id,
    providerId: string,
    routingDecisionId: Id,
    providerSessionId: Id,
    handoffCapsuleId: Option<Id>)

  datatype TimeoutCode = Inactivity | Absolute

  /** How one provider turn ended, as the exception or value that left `executeProviderTurn`. */
  datatype Outcome = Answered | TimeoutRaised(code: TimeoutCode) | CancelRaised | ErrorRaised

  /** The promise that `terminate` stores once: pending, past its first write, or rejected before that write. */
  datatype Termination = NotRequested | Requested(target: State) | Written(target: State) | Lost(target: State)

  datatype Stage = Validating | InTurn | Ended(outcome: Outcome) | Abandoned

  /** The locals of one worker processing one job. */
  datatype Turn = Turn(
    worker: WorkerId,
    job: Job,
    timeoutCode: Option<TimeoutCode>,
    cancellationRequested: bool,
    termination: Termination,
    stage: Stage,
    /** Readings of the cancellation timer that have been sent and have not come back. */
    readings: nat,
    /** The turn ended while its stream loop still ran, which then re-arms the inactivity timer. */
    draining: bool)

  /** The provider process recorded on an AgentSession row. */
  datatype OwnedProcess = OwnedProcess(rootPid: int, startIdentity: string)

  datatype Runtime = Runtime(
    life: seq<Life>,
    sessionStatus: seq<SessionStatus>,
    replies: seq<Reply>,
    turns: map<Id, Turn>,
    /** Executions whose cancel route has cancelled the row but not yet deleted outbox rows. */
    purging: set<Id>,
    /** Executions that a sweep has failed: by which sweep they are still being recorded, if by any. */
    reaped: map<Id, Option<SweepId>>,
    processes: map<Id, OwnedProcess>)

  datatype OutboxStatus = Pending | Dispatching | Published | PublishFailed | DeadLetter

  datatype OutboxRow = OutboxRow(job: Job, status: OutboxStatus, attempts: nat, nextAttemptAt: Time, updatedAt: Time)

  /** One dispatcher between its claim of a row and the recorded outcome. */
  datatype Dispatch = Dispatch(dispatcher: nat, jobId: Id, job: Job, attemptsRead: nat)

  datatype Mail = Mail(
    outbox: map<Id, OutboxRow>,
    /** Every job that was ever added to the queue. */
    jobs: set<Job>,
    /** Those that the queue can still deliver, and those whose one attempt is over but whose id it still keeps. */
    waiting: set<Job>,
    spent: set<Job>,
    inFlight: set<Dispatch>)

  datatype World = World(catalog: Catalog, runtime: Runtime, mail: Mail)

  const EMPTY := World(
    Catalog([], [], [], [], [], [], []),
    Runtime([], [], [], map[], {}, map[], map[]),
    Mail(map[], {}, {}, {}, {}))

  // ---------- queries ----------

  /** `findFirst` ordered by creation, newest first. */
  function Newest<T>(rows: seq<T>, matches: T -> bool): (r: Option<Id>)
    ensures r.Some? ==> r.value < |rows| && matches(rows[r.value])
    ensures r.Some? ==> forall i :: r.value < i < |rows| ==> !matches(rows[i])
    ensures r.None? ==> forall i :: 0 <= i < |rows| ==> !matches(rows[i])
  {
    if rows == [] then None
    else if matches(rows[|rows| - 1]) then Some(|rows| - 1)
    else Newest(rows[..|rows| - 1], matches)
  }

  /** `findFirst` with no order: some row that matches. */
  function Oldest<T>(rows: seq<T>, matches: T -> bool, from: nat := 0): (r: Option<Id>)
    requires from <= |rows|
    ensures r.Some? ==> from <= r.value < |rows| && matches(rows[r.value])
    ensures r.Some? ==> forall i :: from <= i < r.value ==> !matches(rows[i])
    ensures r.None? ==> forall i :: from <= i < |rows| ==> !matches(rows[i])
    decreases |rows| - from
  {
    if from == |rows| then None
    else if matches(rows[from]) then Some(from)
    else Oldest(rows, matches, from + 1)
  }

  predicate SamePair(a: ProviderSession, conversationId: Id, providerId: string) {
    a.conversationId == conversationId && a.providerId == providerId
  }

  function LatestProviderSession(c: Catalog, conversationId: Id, providerId: string): (r: Option<Id>)
    ensures r.Some? ==> r.value < |c.providerSessions| && SamePair(c.providerSessions[r.value], conversationId, providerId)
    ensures r.Some? ==> forall i :: r.value < i < |c.providerSessions| ==> !SamePair(c.providerSessions[i], conversationId, providerId)
    ensures r.None? ==> forall i :: 0 <= i < |c.providerSessions| ==> !SamePair(c.providerSessions[i], conversationId, providerId)
  {
    Newest(c.providerSessions, (p: ProviderSession) => SamePair(p, conversationId, providerId))
  }

  predicate SameLine(e: Execution, conversationId: Id, providerId: string) {
    e.conversationId == conversationId && e.providerId == providerId
  }

  function LatestExecution(c: Catalog, conversationId: Id, providerId: string): (r: Option<Id>)
    ensures r.Some? ==> r.value < |c.executions| && SameLine(c.executions[r.value], conversationId, providerId)
    ensures r.Some? ==> forall i :: r.value < i < |c.executions| ==> !SameLine(c.executions[i], conversationId, providerId)
    ensures r.None? ==> forall i :: 0 <= i < |c.executions| ==> !SameLine(c.executions[i], conversationId, providerId)
  {
    Newest(c.executions, (e: Execution) => SameLine(e, conversationId, providerId))
  }

  function LatestReply(replies: seq<Reply>, conversationId: Id): (r: Option<Id>)
    ensures r.Some? ==> r.value < |replies| && replies[r.value].conversationId == conversationId
  {
    Newest(replies, (m: Reply) => m.conversationId == conversationId)
  }

  predicate SameKey(m: UserMessage, conversationId: Id, key: string) {
    m.conversationId == conversationId && m.idempotencyKey == key
  }

  function FindMessage(c: Catalog, conversationId: Id, key: string): (r: Option<Id>)
    ensures r.Some? ==> r.value < |c.userMessages| && SameKey(c.userMessages[r.value], conversationId, key)
    ensures r.None? ==> forall i :: 0 <= i < |c.userMessages| ==> !SameKey(c.userMessages[i], conversationId, key)
  {
    Oldest(c.userMessages, (m: UserMessage) => SameKey(m, conversationId, key))
  }

  function ExecutionOf(c: Catalog, userMessageId: Id): (r: Option<Id>)
    ensures r.Some? ==> r.value < |c.executions| && c.executions[r.value].userMessageId == userMessageId
    ensures r.None? ==> forall i :: 0 <= i < |c.executions| ==> c.executions[i].userMessageId != userMessageId
  {
    Oldest(c.executions, (e: Execution) => e.userMessageId == userMessageId)
  }

  predicate ActiveFor(c: Catalog, life: seq<Life>, i: Id, userMessageId: Id, providerId: string)
    requires i < |c.executions| && i < |life|
  {
    c.executions[i].userMessageId == userMessageId && c.executions[i].providerId == providerId && Active(life[i].state)
  }

  /** The active execution of this message by this provider, if there is one. */
  function FindActive(c: Catalog, life: seq<Life>, userMessageId: Id, providerId: string, from: nat := 0): (r: Option<Id>)
    requires from <= |c.executions| == |life|
    ensures r.Some? ==> from <= r.value < |life| && ActiveFor(c, life, r.value, userMessageId, providerId)
    ensures r.None? ==> forall i :: from <= i < |life| ==> !ActiveFor(c, life, i, userMessageId, providerId)
    decreases |life| - from
  {
    if from == |life| then None
    else if ActiveFor(c, life, from, userMessageId, providerId) then Some(from)
    else FindActive(c, life, userMessageId, providerId, from + 1)
  }

  /** Some provider session of the pair, other than `except`, is RUNNING: what the partial unique index forbids. */
  predicate OtherRunning(c: Catalog, status: seq<SessionStatus>, conversationId: Id, providerId: string, except: int)
    requires |status| == |c.providerSessions|
  {
    exists i :: 0 <= i < |status| && i != except && status[i] == SessionRunning
      && SamePair(c.providerSessions[i], conversationId, providerId)
  }

  predicate HasReply(replies: seq<Reply>, executionId: Id) {
    exists i :: 0 <= i < |replies| && replies[i].executionId == executionId
  }

  /** Rows are only ever added: every row keeps its id and its pinned columns. */
  predicate Extends(c: Catalog, c': Catalog) {
    && |c.conversations| <= |c'.conversations|
    && (forall i :: 0 <= i < |c.conversations| ==> c.conversations[i].projectId == c'.conversations[i].projectId)
    && c.tasks <= c'.tasks
    && c.userMessages <= c'.userMessages
    && c.executions <= c'.executions
    && c.providerSessions <= c'.providerSessions
    && c.routing <= c'.routing
    && c.handoffs <= c'.handoffs
  }
}

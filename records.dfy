/** The persistent records of the helpdesk and the database that holds them. Every table
    is a field of `Db`; a service operation names in its `modifies` clause exactly the
    tables it writes. Timestamps are integer milliseconds since the epoch. */
module Records {
  import opened Wrappers
  import opened Json

  type Id = string

  /** The HTTP exceptions the services raise, and `Internal` for a plain `Error`. */
  datatype ErrorKind =
    | BadRequest | Unauthorized | Forbidden | NotFound | Conflict
    | PayloadTooLarge | RequestTimeout | ServiceUnavailable | Internal

  datatype Exception = Exception(kind: ErrorKind, message: string)

  datatype Role = OWNER | ADMIN | AGENT | VIEWER

  predicate IsAdmin(r: Role) { r == OWNER || r == ADMIN }

  datatype SourceStatus = Queued | Indexing | Ready | Failed

  datatype JobStatus = JobQueued | JobRunning | JobSucceeded | JobFailed

  datatype TicketStatus = Open | InProgress | Resolved | Closed

  datatype Priority = Low | Medium | High | Urgent

  datatype UsageType = AiAssistCall | KbEmbedding

  datatype Rating = Up | Down

  /** A user row; the table is keyed by the unique e-mail address. */
  datatype User = User(id: Id, passwordHash: string)

  datatype Limits = Limits(maxAgents: int, maxKbSources: int, maxAiMsgsPerMonth: int)

  datatype Invite = Invite(
    tenantId: Id, createdBy: Id, email: Option<string>, role: Role,
    tokenHash: string, expiresAt: int, usedAt: Option<int>, createdAt: int)

  datatype AuditEntry = AuditEntry(
    tenantId: Id, actorId: Id, action: string, entity: string, entityId: Id, meta: Json)

  datatype Ticket = Ticket(
    tenantId: Id, requesterId: Id, title: string, description: string,
    status: TicketStatus, priority: Priority, assigneeId: Option<Id>, createdAt: int)

  datatype Comment = Comment(
    id: Id, tenantId: Id, ticketId: Id, authorId: Id, body: string, createdAt: int)

  /** A knowledge source: one uploaded or pasted document. */
  datatype Source = Source(
    tenantId: Id, filename: string, mimeType: string, sizeBytes: int,
    status: SourceStatus, storagePath: Option<string>, error: Option<string>,
    indexedAt: Option<int>, createdAt: int)

  /** The payload recorded on a job row. */
  datatype JobPayload = JobPayload(sourceId: Id, requestedByUserId: Id)

  /** The message a worker receives from the queue; `userId` is an older spelling of
      `requestedByUserId` that the worker still accepts. */
  datatype QueuePayload = QueuePayload(
    tenantId: Id, sourceId: Id, requestedByUserId: Option<Id>, userId: Option<Id>, mode: Option<string>)

  datatype Job = Job(
    tenantId: Id, jobType: string, status: JobStatus, sourceId: Id,
    lastError: Option<string>, payload: JobPayload)

  /** Embedding vectors are opaque to the model. */
  type Vector = seq<int>

  datatype Chunk = Chunk(
    id: Id, tenantId: Id, sourceId: Id, idx: int, content: string,
    meta: Option<Json>, embedding: Option<Vector>)

  datatype UsageEvent = UsageEvent(
    tenantId: Id, userId: Option<Id>, eventType: UsageType, amount: int, createdAt: int, meta: Json)

  datatype Feedback = Feedback(
    id: Id, tenantId: Id, userId: Id, ticketId: Id, rating: Rating, comment: Option<string>)

  /** The relational store. Membership rows are keyed by (tenant, user), entitlement rows
      by tenant; rows whose order matters to a query are kept in insertion order. */
  class Db {
    var users: map<string, User>
    var tenants: map<Id, string>
    var memberships: map<(Id, Id), Role>
    var entitlements: map<Id, Limits>
    var invites: map<Id, Invite>
    var audit: seq<AuditEntry>
    var tickets: map<Id, Ticket>
    var comments: seq<Comment>
    var sources: map<Id, Source>
    var jobs: map<Id, Job>
    var chunks: seq<Chunk>
    var usage: seq<UsageEvent>
    var feedback: seq<Feedback>

    /** The limits an entitlement row gets from the schema when created without values. */
    const schemaLimits: Limits

    constructor(schemaLimits: Limits)
      ensures this.schemaLimits == schemaLimits
      ensures users == map[] && tenants == map[] && memberships == map[]
      ensures entitlements == map[] && invites == map[] && audit == []
      ensures tickets == map[] && comments == [] && sources == map[] && jobs == map[]
      ensures chunks == [] && usage == [] && feedback == []
    {
      this.schemaLimits := schemaLimits;
      users, tenants, memberships := map[], map[], map[];
      entitlements, invites, audit := map[], map[], [];
      tickets, comments, sources, jobs := map[], [], map[], map[];
      chunks, usage, feedback := [], [], [];
    }
  }

  /** `Math.min(Math.max(n, lo), hi)`. */
  function Clamp(n: int, lo: int, hi: int): (r: int)
    requires lo <= hi
    ensures lo <= r <= hi
    ensures lo <= n <= hi ==> r == n
    ensures n < lo ==> r == lo
    ensures n > hi ==> r == hi
  {
    if n < lo then lo else if n > hi then hi else n
  }

  /** The number of membership rows of a tenant. */
  function MemberCount(memberships: map<(Id, Id), Role>, tenantId: Id): nat {
    |set k | k in memberships && k.0 == tenantId|
  }

  /** The number of knowledge sources of a tenant. */
  function SourceCount(sources: map<Id, Source>, tenantId: Id): nat {
    |set id | id in sources && sources[id].tenantId == tenantId|
  }
}

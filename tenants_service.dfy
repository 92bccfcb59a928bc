/** `TenantsService`: creating a workspace, inviting people into it by a one-time token
    whose hash alone is stored, accepting an invite, and reading the audit log. */
module TenantsService {
  import opened Wrappers
  import opened Records
  import opened Json
  import Text
  import Seqs
  import Entitlements

  const HourMs := 3600000
  const DefaultInviteTtlHours := 72

  /** The limits a new tenant starts with. */
  const NewTenantLimits := Limits(3, 10, 200)

  /** The error the store raises when a token hash is already taken. */
  const TokenHashTaken := "Unique constraint failed on the fields: (`tokenHash`)"

  const InvalidInviteToken := "Invalid invite token"
  const InviteAlreadyUsed := "Invite already used"
  const InviteExpired := "Invite expired"

  function RoleName(r: Role): string {
    match r
    case OWNER => "OWNER"
    case ADMIN => "ADMIN"
    case AGENT => "AGENT"
    case VIEWER => "VIEWER"
  }

  function OrNull(v: Option<string>): Json {
    if v.Some? then JStr(v.value) else JNull
  }

  // ---------------------------------------------------------------------------------
  // Tenants

  /** No row of any table refers to the tenant yet: what a freshly generated tenant id
      guarantees. */
  predicate Unused(db: Db, tenantId: Id)
    reads db
  {
    && tenantId !in db.tenants
    && tenantId !in db.entitlements
    && forall k :: k in db.memberships ==> k.0 != tenantId
  }

  /** `createTenant`: in one transaction, the tenant, the creator as its OWNER, its
      entitlement row of 3 agents, 10 sources and 200 AI messages a month, and a
      TENANT_CREATED entry. `tenantId` is the identifier the database assigns. */
  method CreateTenant(db: Db, userId: Id, name: string, tenantId: Id)
    requires Unused(db, tenantId)
    modifies db`tenants, db`memberships, db`entitlements, db`audit
    ensures db.tenants == old(db.tenants)[tenantId := name]
    ensures db.memberships == old(db.memberships)[(tenantId, userId) := OWNER]
    ensures db.entitlements == old(db.entitlements)[tenantId := NewTenantLimits]
    ensures db.audit == old(db.audit) + [AuditEntry(tenantId, userId, "TENANT_CREATED", "Tenant", tenantId, JObj(map["name" := JStr(name)]))]
  {
    db.tenants := db.tenants[tenantId := name];
    db.memberships := db.memberships[(tenantId, userId) := OWNER];
    db.entitlements := db.entitlements[tenantId := NewTenantLimits];
    db.audit := db.audit + [AuditEntry(tenantId, userId, "TENANT_CREATED", "Tenant", tenantId, JObj(map["name" := JStr(name)]))];
  }

  /** A new tenant has exactly one member, its creator. */
  lemma NewTenantHasOneMember(memberships: map<(Id, Id), Role>, tenantId: Id, userId: Id)
    requires forall k :: k in memberships ==> k.0 != tenantId
    ensures MemberCount(memberships[(tenantId, userId) := OWNER], tenantId) == 1
  {
    var m := memberships[(tenantId, userId) := OWNER];
    assert (set k | k in m && k.0 == tenantId) == {(tenantId, userId)};
  }

  /** Changing the role of an existing member takes no new seat; adding a member takes
      exactly one. */
  lemma MembershipUpsertSeats(memberships: map<(Id, Id), Role>, tenantId: Id, userId: Id, role: Role)
    ensures (tenantId, userId) in memberships ==>
      MemberCount(memberships[(tenantId, userId) := role], tenantId) == MemberCount(memberships, tenantId)
    ensures (tenantId, userId) !in memberships ==>
      MemberCount(memberships[(tenantId, userId) := role], tenantId) == MemberCount(memberships, tenantId) + 1
  {
    var before := set k | k in memberships && k.0 == tenantId;
    var after := set k | k in memberships[(tenantId, userId) := role] && k.0 == tenantId;
    if (tenantId, userId) in memberships {
      assert after == before;
    } else {
      assert after == before + {(tenantId, userId)};
    }
  }

  // ---------------------------------------------------------------------------------
  // Invites

  /** The token hash column is unique. */
  ghost predicate UniqueTokens(invites: map<Id, Invite>) {
    forall a, b :: a in invites && b in invites && invites[a].tokenHash == invites[b].tokenHash ==> a == b
  }

  predicate TokenTaken(invites: map<Id, Invite>, h: string) {
    exists id :: id in invites && invites[id].tokenHash == h
  }

  datatype InviteCreated = InviteCreated(inviteId: Id, token: string, expiresAt: int)

  /** The inviter's address, lower-cased (`email?.toLowerCase()`). */
  function InviteEmail(email: Option<string>): (r: Option<string>)
    ensures r.Some? <==> email.Some?
    ensures r.Some? ==> r.value == Text.ToLower(email.value)
  {
    if email.Some? then Some(Text.ToLower(email.value)) else None
  }

  /** The row `createInvite` inserts: unused, expiring `ttlHours` (72 by default) after
      now, with the lower-cased address and the token's hash. */
  function NewInvite(tenantId: Id, createdBy: Id, email: Option<string>, role: Role, ttlHours: Option<int>,
                     tokenHash: string, now: int): (inv: Invite)
    ensures inv.tenantId == tenantId && inv.createdBy == createdBy && inv.role == role && inv.createdAt == now
    ensures inv.usedAt.None? && inv.tokenHash == tokenHash && inv.email == InviteEmail(email)
    ensures ttlHours.None? ==> inv.expiresAt == now + 72 * 3600000
    ensures ttlHours.Some? ==> inv.expiresAt == now + ttlHours.value * 3600000
  {
    Invite(tenantId, createdBy, InviteEmail(email), role, tokenHash, now + ttlHours.GetOr(DefaultInviteTtlHours) * HourMs, None, now)
  }

  /** Whether the seat check refuses a role: VIEWER seats are free. */
  predicate SeatRefused(memberships: map<(Id, Id), Role>, ents: map<Id, Limits>, tenantId: Id, role: Role) {
    role != VIEWER && tenantId in ents && MemberCount(memberships, tenantId) >= ents[tenantId].maxAgents
  }

  function SeatError(memberships: map<(Id, Id), Role>, ents: map<Id, Limits>, tenantId: Id): Exception
    requires tenantId in ents
  {
    var count, max := MemberCount(memberships, tenantId), ents[tenantId].maxAgents;
    Exception(Forbidden, "Member/seat limit reached " + Entitlements.Ratio(count, max))
  }

  /** `createInvite`: the seat check for roles other than VIEWER, then an invite valid
      for `ttlHours` (72 by default) holding the hash of `rawToken` and the lower-cased
      address, an INVITE_CREATED entry, and the raw token handed back to the caller.
      `rawToken` is the random token and `inviteId` the identifier the database
      assigns; a token whose hash is already stored makes the insert fail. */
  method CreateInvite(db: Db, tenantId: Id, createdBy: Id, email: Option<string>, role: Role, ttlHours: Option<int>,
                      rawToken: string, hash: string -> string, inviteId: Id, now: int)
    returns (r: Result<InviteCreated, Exception>)
    requires inviteId !in db.invites
    modifies db`entitlements, db`invites, db`audit
    ensures db.entitlements == if role != VIEWER then Entitlements.Upserted(old(db.entitlements), tenantId, db.schemaLimits)
                               else old(db.entitlements)
    ensures SeatRefused(db.memberships, db.entitlements, tenantId, role) ==>
      r == Err(SeatError(db.memberships, db.entitlements, tenantId)) && db.invites == old(db.invites) && db.audit == old(db.audit)
    ensures !SeatRefused(db.memberships, db.entitlements, tenantId, role) && TokenTaken(old(db.invites), hash(rawToken)) ==>
      r == Err(Exception(Internal, TokenHashTaken)) && db.invites == old(db.invites) && db.audit == old(db.audit)
    ensures !SeatRefused(db.memberships, db.entitlements, tenantId, role) && !TokenTaken(old(db.invites), hash(rawToken)) ==>
      var inv := NewInvite(tenantId, createdBy, email, role, ttlHours, hash(rawToken), now);
      && r == Ok(InviteCreated(inviteId, rawToken, inv.expiresAt))
      && db.invites == old(db.invites)[inviteId := inv]
      && db.audit == old(db.audit) + [AuditEntry(tenantId, createdBy, "INVITE_CREATED", "Invite", inviteId,
           JObj(map["email" := OrNull(inv.email), "role" := JStr(RoleName(role)), "expiresAt" := JNum(inv.expiresAt)]))]
    ensures UniqueTokens(old(db.invites)) ==> UniqueTokens(db.invites)
  {
    if role != VIEWER {
      var seat := Entitlements.AssertCanAddMember(db, tenantId);
      if seat.Err? {
        return Err(seat.error);
      }
    }
    var h := hash(rawToken);
    if TokenTaken(db.invites, h) {
      return Err(Exception(Internal, TokenHashTaken));
    }
    var inv := NewInvite(tenantId, createdBy, email, role, ttlHours, h, now);
    db.invites := db.invites[inviteId := inv];
    db.audit := db.audit + [AuditEntry(tenantId, createdBy, "INVITE_CREATED", "Invite", inviteId,
      JObj(map["email" := OrNull(inv.email), "role" := JStr(RoleName(role)), "expiresAt" := JNum(inv.expiresAt)]))];
    r := Ok(InviteCreated(inviteId, rawToken, inv.expiresAt));
  }

  /** The invite stored under a token hash. */
  ghost function InviteByHash(invites: map<Id, Invite>, h: string): (r: Option<Id>)
    ensures r.Some? ==> r.value in invites && invites[r.value].tokenHash == h
    ensures r.None? <==> !TokenTaken(invites, h)
  {
    if TokenTaken(invites, h) then Some(var id :| id in invites && invites[id].tokenHash == h; id) else None
  }

  ghost function InviteOf(invites: map<Id, Invite>, h: string): Option<Invite> {
    var found := InviteByHash(invites, h);
    if found.Some? then Some(invites[found.value]) else None
  }

  /** `findUnique` by token hash. */
  method FindInvite(invites: map<Id, Invite>, h: string) returns (found: Option<Id>)
    requires UniqueTokens(invites)
    ensures found == InviteByHash(invites, h)
  {
    if !TokenTaken(invites, h) {
      return None;
    }
    var id :| id in invites && invites[id].tokenHash == h;
    found := Some(id);
  }

  /** Why an invite cannot be accepted, checked in this order: no invite has the token,
      it was used, or it expired before now. */
  function Rejection(inv: Option<Invite>, now: int): (r: Option<Exception>)
    ensures r.None? <==> inv.Some? && inv.value.usedAt.None? && inv.value.expiresAt >= now
    ensures inv.None? ==> r == Some(Exception(BadRequest, InvalidInviteToken))
    ensures inv.Some? && inv.value.usedAt.Some? ==> r == Some(Exception(BadRequest, InviteAlreadyUsed))
    ensures inv.Some? && inv.value.usedAt.None? && inv.value.expiresAt < now ==> r == Some(Exception(BadRequest, InviteExpired))
  {
    if inv.None? then Some(Exception(BadRequest, InvalidInviteToken))
    else if inv.value.usedAt.Some? then Some(Exception(BadRequest, InviteAlreadyUsed))
    else if inv.value.expiresAt < now then Some(Exception(BadRequest, InviteExpired))
    else None
  }

  /** An accepted invite is refused from then on as used. */
  lemma AcceptedInviteIsUsed(inv: Invite, acceptedAt: int, now: int)
    ensures Rejection(Some(inv.(usedAt := Some(acceptedAt))), now) == Some(Exception(BadRequest, InviteAlreadyUsed))
  {
  }

  /** The seat check applies on acceptance only to a role other than VIEWER for a user
      who is not yet a member. */
  predicate NeedsSeat(memberships: map<(Id, Id), Role>, inv: Invite, userId: Id) {
    inv.role != VIEWER && (inv.tenantId, userId) !in memberships
  }

  /** Marking an invite used keeps token hashes unique. */
  lemma MarkUsedKeepsUnique(invites: map<Id, Invite>, id: Id, usedAt: int)
    requires UniqueTokens(invites) && id in invites
    ensures UniqueTokens(invites[id := invites[id].(usedAt := Some(usedAt))])
  {
  }

  /** The transaction of `acceptInvite`: membership upsert, invite marked used, audit entry. */
  method CommitAcceptance(db: Db, userId: Id, id: Id, now: int)
    requires id in db.invites
    modifies db`memberships, db`invites, db`audit
    ensures var i := old(db.invites)[id];
      && db.memberships == old(db.memberships)[(i.tenantId, userId) := i.role]
      && db.invites == old(db.invites)[id := i.(usedAt := Some(now))]
      && db.audit == old(db.audit) + [AuditEntry(i.tenantId, userId, "INVITE_ACCEPTED", "Invite", id,
                                                 JObj(map["role" := JStr(RoleName(i.role))]))]
  {
    var inv := db.invites[id];
    db.memberships := db.memberships[(inv.tenantId, userId) := inv.role];
    db.invites := db.invites[id := inv.(usedAt := Some(now))];
    db.audit := db.audit + [AuditEntry(inv.tenantId, userId, "INVITE_ACCEPTED", "Invite", id,
                                       JObj(map["role" := JStr(RoleName(inv.role))]))];
  }

  /** `acceptInvite`: the invite is found by the hash of the token and refused as
      unknown, used or expired; a user taking a new paid seat passes the seat check;
      then, in one transaction, the membership gets the invite's role, the invite is
      marked used and an INVITE_ACCEPTED entry is written; finally the tenant's
      entitlement row is made to exist. */
  method AcceptInvite(db: Db, userId: Id, token: string, hash: string -> string, now: int)
    returns (r: Result<(Id, Role), Exception>)
    requires UniqueTokens(db.invites)
    modifies db`memberships, db`invites, db`audit, db`entitlements
    ensures var inv := InviteOf(old(db.invites), hash(token));
      Rejection(inv, now).Some? ==>
        && r == Err(Rejection(inv, now).value)
        && db.memberships == old(db.memberships) && db.invites == old(db.invites)
        && db.audit == old(db.audit) && db.entitlements == old(db.entitlements)
    ensures var inv := InviteOf(old(db.invites), hash(token));
      Rejection(inv, now).None? ==>
        db.entitlements == Entitlements.Upserted(old(db.entitlements), inv.value.tenantId, db.schemaLimits)
    ensures var inv := InviteOf(old(db.invites), hash(token));
      Rejection(inv, now).None? && NeedsSeat(old(db.memberships), inv.value, userId)
        && SeatRefused(old(db.memberships), db.entitlements, inv.value.tenantId, inv.value.role) ==>
        && r == Err(SeatError(old(db.memberships), db.entitlements, inv.value.tenantId))
        && db.memberships == old(db.memberships) && db.invites == old(db.invites) && db.audit == old(db.audit)
    ensures var found := InviteByHash(old(db.invites), hash(token));
      var inv := InviteOf(old(db.invites), hash(token));
      Rejection(inv, now).None?
        && !(NeedsSeat(old(db.memberships), inv.value, userId) && SeatRefused(old(db.memberships), db.entitlements, inv.value.tenantId, inv.value.role)) ==>
        var i := inv.value;
        && r == Ok((i.tenantId, i.role))
        && db.memberships == old(db.memberships)[(i.tenantId, userId) := i.role]
        && db.invites == old(db.invites)[found.value := i.(usedAt := Some(now))]
        && db.audit == old(db.audit) + [AuditEntry(i.tenantId, userId, "INVITE_ACCEPTED", "Invite", found.value,
                                                   JObj(map["role" := JStr(RoleName(i.role))]))]
    ensures UniqueTokens(db.invites)
  {
    var found := FindInvite(db.invites, hash(token));
    var inv := if found.Some? then Some(db.invites[found.value]) else None;
    var rejection := Rejection(inv, now);
    if rejection.Some? {
      return Err(rejection.value);
    }
    var id, i := found.value, inv.value;
    if NeedsSeat(db.memberships, i, userId) {
      var seat := Entitlements.AssertCanAddMember(db, i.tenantId);
      if seat.Err? {
        return Err(seat.error);
      }
    }
    MarkUsedKeepsUnique(db.invites, id, now);
    CommitAcceptance(db, userId, id, now);
    var _ := Entitlements.GetOrCreateEntitlement(db, i.tenantId);
    r := Ok((i.tenantId, i.role));
  }

  // ---------------------------------------------------------------------------------
  // Audit log

  /** `take` of `listAuditLogs`: the limit clamped to 1..200. */
  function AuditTake(limit: int): (take: int)
    ensures 1 <= take <= 200
    ensures 1 <= limit <= 200 ==> take == limit
  {
    Clamp(limit, 1, 200)
  }

  /** The tenant's entries, newest first; entries are stored in creation order. */
  function NewestFirst(audit: seq<AuditEntry>, tenantId: Id): (r: seq<AuditEntry>)
    ensures forall i :: 0 <= i < |r| ==> r[i].tenantId == tenantId
    ensures forall e :: e in r <==> e in audit && e.tenantId == tenantId
  {
    if audit == [] then []
    else
      var last := audit[|audit| - 1];
      assert forall e :: e in audit <==> e in audit[..|audit| - 1] || e == last;
      (if last.tenantId == tenantId then [last] else []) + NewestFirst(audit[..|audit| - 1], tenantId)
  }

  /** `listAuditLogs` */
  function ListAuditLogs(audit: seq<AuditEntry>, tenantId: Id, limit: int): (r: seq<AuditEntry>)
    ensures |r| <= AuditTake(limit)
    ensures forall i :: 0 <= i < |r| ==> r[i].tenantId == tenantId
  {
    Seqs.Take(NewestFirst(audit, tenantId), AuditTake(limit))
  }

  /** A new entry of the tenant is the first one listed; one of another tenant changes
      nothing. */
  lemma NewEntryListedFirst(audit: seq<AuditEntry>, e: AuditEntry, tenantId: Id, limit: int)
    ensures e.tenantId == tenantId ==> ListAuditLogs(audit + [e], tenantId, limit)[0] == e
    ensures e.tenantId != tenantId ==> ListAuditLogs(audit + [e], tenantId, limit) == ListAuditLogs(audit, tenantId, limit)
  {
    assert (audit + [e])[..|audit|] == audit;
  }
}

/** `TenantsController`: the invite endpoints' own rules, around `TenantsService`: the
    member limit applied before any invite is created, the list of pending invites,
    revoking an invite, and reissuing its token. */
module TenantsController {
  import opened Wrappers
  import opened Records
  import Seqs
  import Sorting
  import Entitlements
  import TenantsService

  const InviteNotFound := "Invite not found"
  const ReissueTtlHours := 168

  // ---------------------------------------------------------------------------------
  // createInvite

  /** The controller's own limit: a positive `maxAgents` that the member count reaches,
      whatever the role. */
  predicate MemberLimitReached(count: int, max: int) {
    max > 0 && count >= max
  }

  function MemberLimitMessage(count: int, max: int): string {
    "Member limit reached " + Entitlements.Ratio(count, max) + " Remove a member or upgrade your plan."
  }

  /** An invite gets past both the controller's limit and the service's seat check
      exactly when a seat is left, or when it is a VIEWER invite and the limit is not
      positive. */
  predicate InviteAllowed(count: int, max: int, role: Role): (b: bool)
    ensures b <==> count < max || (role == VIEWER && max <= 0)
  {
    !MemberLimitReached(count, max) && !(role != VIEWER && count >= max)
  }

  /** `createInvite` of the controller: the entitlement row is made to exist, the member
      limit is applied to every role, then the service creates the invite. */
  method CreateInvite(db: Db, tenantId: Id, createdBy: Id, email: Option<string>, role: Role, ttlHours: Option<int>,
                      rawToken: string, hash: string -> string, inviteId: Id, now: int)
    returns (r: Result<TenantsService.InviteCreated, Exception>)
    requires inviteId !in db.invites
    modifies db`entitlements, db`invites, db`audit
    ensures db.entitlements == Entitlements.Upserted(old(db.entitlements), tenantId, db.schemaLimits)
    ensures var count, max := MemberCount(db.memberships, tenantId), db.entitlements[tenantId].maxAgents;
      MemberLimitReached(count, max) ==>
        r == Err(Exception(BadRequest, MemberLimitMessage(count, max)))
        && db.invites == old(db.invites) && db.audit == old(db.audit)
    ensures var count, max := MemberCount(db.memberships, tenantId), db.entitlements[tenantId].maxAgents;
      !MemberLimitReached(count, max) && TenantsService.SeatRefused(db.memberships, db.entitlements, tenantId, role) ==>
        r == Err(TenantsService.SeatError(db.memberships, db.entitlements, tenantId))
        && db.invites == old(db.invites) && db.audit == old(db.audit)
    ensures var count, max := MemberCount(db.memberships, tenantId), db.entitlements[tenantId].maxAgents;
      r.Ok? <==> InviteAllowed(count, max, role) && !TenantsService.TokenTaken(old(db.invites), hash(rawToken))
    ensures r.Ok? ==>
      var inv := TenantsService.NewInvite(tenantId, createdBy, email, role, ttlHours, hash(rawToken), now);
      r.value == TenantsService.InviteCreated(inviteId, rawToken, inv.expiresAt)
      && db.invites == old(db.invites)[inviteId := inv]
    ensures r.Err? ==> db.invites == old(db.invites)
    ensures TenantsService.UniqueTokens(old(db.invites)) ==> TenantsService.UniqueTokens(db.invites)
  {
    var ent := Entitlements.GetOrCreateEntitlement(db, tenantId);
    var count := MemberCount(db.memberships, tenantId);
    if MemberLimitReached(count, ent.maxAgents) {
      return Err(Exception(BadRequest, MemberLimitMessage(count, ent.maxAgents)));
    }
    r := TenantsService.CreateInvite(db, tenantId, createdBy, email, role, ttlHours, rawToken, hash, inviteId, now);
  }

  // ---------------------------------------------------------------------------------
  // listInvites

  /** An invite still waiting to be accepted. */
  predicate Pending(inv: Invite, tenantId: Id, now: int) {
    inv.tenantId == tenantId && inv.usedAt.None? && inv.expiresAt > now
  }

  ghost function SelectPending(rows: seq<(Id, Invite)>, tenantId: Id, now: int): (r: seq<(Id, Invite)>)
    ensures forall p :: p in r <==> p in rows && Pending(p.1, tenantId, now)
  {
    if rows == [] then []
    else (if Pending(rows[0].1, tenantId, now) then [rows[0]] else []) + SelectPending(rows[1..], tenantId, now)
  }

  function Age(p: (Id, Invite)): int {
    -p.1.createdAt
  }

  /** `listInvites`: the tenant's pending invites, newest first, `limit` (50 by default)
      of them. Invites created at the same instant come in an order the model does not
      fix. */
  ghost function ListInvites(invites: map<Id, Invite>, tenantId: Id, limit: Option<nat>, now: int): seq<(Id, Invite)> {
    Seqs.Take(Sorting.SortBy(SelectPending(Seqs.MapRows(invites), tenantId, now), Age), limit.GetOr(50))
  }

  /** The list holds only pending invites of the tenant, as stored, and as many of
      them as the limit allows. */
  lemma ListInvitesPending(invites: map<Id, Invite>, tenantId: Id, limit: Option<nat>, now: int)
    ensures var r := ListInvites(invites, tenantId, limit, now);
      var pending := SelectPending(Seqs.MapRows(invites), tenantId, now);
      && |r| == (if limit.GetOr(50) < |pending| then limit.GetOr(50) else |pending|)
      && forall i :: 0 <= i < |r| ==> r[i].0 in invites && invites[r[i].0] == r[i].1 && Pending(r[i].1, tenantId, now)
  {
    var pending := SelectPending(Seqs.MapRows(invites), tenantId, now);
    var sorted := Sorting.SortBy(pending, Age);
    var r := ListInvites(invites, tenantId, limit, now);
    assert |sorted| == |multiset(sorted)| == |multiset(pending)| == |pending|;
    forall i | 0 <= i < |r| ensures r[i] in pending {
      assert r[i] == sorted[i];
      assert r[i] in multiset(sorted);
    }
  }

  /** The list is newest first. */
  lemma ListInvitesNewestFirst(invites: map<Id, Invite>, tenantId: Id, limit: Option<nat>, now: int)
    ensures var r := ListInvites(invites, tenantId, limit, now);
      forall i, j :: 0 <= i < j < |r| ==> r[i].1.createdAt >= r[j].1.createdAt
  {
    var pending := SelectPending(Seqs.MapRows(invites), tenantId, now);
    Sorting.SortBySorted(pending, Age);
    var sorted := Sorting.SortBy(pending, Age);
    var r := ListInvites(invites, tenantId, limit, now);
    forall i, j | 0 <= i < j < |r| ensures r[i].1.createdAt >= r[j].1.createdAt {
      assert r[i] == sorted[i] && r[j] == sorted[j];
      assert Age(sorted[i]) <= Age(sorted[j]);
    }
  }

  // ---------------------------------------------------------------------------------
  // revokeInvite and reissueInvite

  /** The refusal shared by revoke and reissue: no invite with this id in the tenant, or
      an invite already used. */
  function InviteRefusal(invites: map<Id, Invite>, tenantId: Id, id: Id): (r: Option<Exception>)
    ensures r.None? <==> id in invites && invites[id].tenantId == tenantId && invites[id].usedAt.None?
    ensures !(id in invites && invites[id].tenantId == tenantId) ==> r == Some(Exception(BadRequest, InviteNotFound))
    ensures id in invites && invites[id].tenantId == tenantId && invites[id].usedAt.Some? ==>
      r == Some(Exception(BadRequest, TenantsService.InviteAlreadyUsed))
  {
    if !(id in invites && invites[id].tenantId == tenantId) then Some(Exception(BadRequest, InviteNotFound))
    else if invites[id].usedAt.Some? then Some(Exception(BadRequest, TenantsService.InviteAlreadyUsed))
    else None
  }

  /** `revokeInvite`: deletes that invite and no other. */
  method RevokeInvite(db: Db, tenantId: Id, id: Id) returns (r: Result<(), Exception>)
    modifies db`invites
    ensures InviteRefusal(old(db.invites), tenantId, id).Some? ==>
      r == Err(InviteRefusal(old(db.invites), tenantId, id).value) && db.invites == old(db.invites)
    ensures InviteRefusal(old(db.invites), tenantId, id).None? ==>
      r == Ok(()) && db.invites == old(db.invites) - {id}
  {
    var refusal := InviteRefusal(db.invites, tenantId, id);
    if refusal.Some? {
      return Err(refusal.value);
    }
    db.invites := db.invites - {id};
    r := Ok(());
  }

  /** A revoked invite's token is then rejected as unknown, and every other invite is
      kept as it was. */
  lemma RevokedTokenIsInvalid(invites: map<Id, Invite>, id: Id, now: int)
    requires TenantsService.UniqueTokens(invites) && id in invites
    ensures TenantsService.Rejection(TenantsService.InviteOf(invites - {id}, invites[id].tokenHash), now)
            == Some(Exception(BadRequest, TenantsService.InvalidInviteToken))
    ensures forall o :: o in invites && o != id ==> o in invites - {id} && (invites - {id})[o] == invites[o]
  {
    assert !TenantsService.TokenTaken(invites - {id}, invites[id].tokenHash);
  }

  /** Another invite holds the hash already: the update fails on the unique column. */
  predicate Collides(invites: map<Id, Invite>, id: Id, h: string) {
    exists o :: o in invites && o != id && invites[o].tokenHash == h
  }

  /** The first of the attempts `from`..2 whose freshly drawn token's hash is free. */
  function FirstFreeAttempt(invites: map<Id, Invite>, id: Id, tokens: nat -> string, hash: string -> string, from: nat): (k: Option<nat>)
    ensures k.Some? ==> from <= k.value < 3 && !Collides(invites, id, hash(tokens(k.value)))
    ensures k.Some? ==> forall j :: from <= j < k.value ==> Collides(invites, id, hash(tokens(j)))
    ensures k.None? ==> forall j :: from <= j < 3 ==> Collides(invites, id, hash(tokens(j)))
    decreases 3 - from
  {
    if from >= 3 then None
    else if !Collides(invites, id, hash(tokens(from))) then Some(from)
    else FirstFreeAttempt(invites, id, tokens, hash, from + 1)
  }

  /** The invite after a successful reissue: a new hash, unused again, a new expiry. */
  function Reissued(inv: Invite, tokenHash: string, ttlHours: int, now: int): Invite {
    inv.(tokenHash := tokenHash, usedAt := None, expiresAt := now + ttlHours * TenantsService.HourMs)
  }

  /** `reissueInvite`: after the same refusals as revoke, up to three attempts each draw
      a token (`tokens(attempt)`) and store its hash with a fresh expiry of `ttlHours`
      (168 by default); the first attempt that does not collide wins, and the failure
      of the third is passed on. */
  method ReissueInvite(db: Db, tenantId: Id, id: Id, ttlHours: Option<int>, tokens: nat -> string,
                       hash: string -> string, now: int)
    returns (r: Result<string, Exception>, attempts: nat)
    modifies db`invites
    ensures InviteRefusal(old(db.invites), tenantId, id).Some? ==>
      r == Err(InviteRefusal(old(db.invites), tenantId, id).value) && attempts == 0 && db.invites == old(db.invites)
    ensures InviteRefusal(old(db.invites), tenantId, id).None? ==>
      match FirstFreeAttempt(old(db.invites), id, tokens, hash, 0)
      case Some(k) =>
        && r == Ok(tokens(k)) && attempts == k + 1
        && db.invites == old(db.invites)[id := Reissued(old(db.invites)[id], hash(tokens(k)), ttlHours.GetOr(ReissueTtlHours), now)]
      case None =>
        r == Err(Exception(Internal, TenantsService.TokenHashTaken)) && attempts == 3 && db.invites == old(db.invites)
    ensures TenantsService.UniqueTokens(old(db.invites)) ==> TenantsService.UniqueTokens(db.invites)
  {
    var refusal := InviteRefusal(db.invites, tenantId, id);
    if refusal.Some? {
      return Err(refusal.value), 0;
    }
    var ttl := ttlHours.GetOr(ReissueTtlHours);
    attempts := 0;
    while attempts < 3
      invariant attempts <= 2
      invariant db.invites == old(db.invites)
      invariant FirstFreeAttempt(db.invites, id, tokens, hash, 0) == FirstFreeAttempt(db.invites, id, tokens, hash, attempts)
      decreases 3 - attempts
    {
      var token := tokens(attempts);
      var h := hash(token);
      if !Collides(db.invites, id, h) {
        db.invites := db.invites[id := Reissued(db.invites[id], h, ttl, now)];
        return Ok(token), attempts + 1;
      }
      if attempts == 2 {
        return Err(Exception(Internal, TenantsService.TokenHashTaken)), 3;
      }
      attempts := attempts + 1;
    }
    assert false;
  }

  /** The reissued token is the one acceptance now finds, and it is accepted at any
      moment up to the new expiry. */
  lemma ReissuedTokenAccepted(invites: map<Id, Invite>, id: Id, h: string, ttlHours: int, now: int, at: int)
    requires TenantsService.UniqueTokens(invites) && id in invites && !Collides(invites, id, h)
    requires at <= now + ttlHours * TenantsService.HourMs
    ensures var after := invites[id := Reissued(invites[id], h, ttlHours, now)];
      && TenantsService.InviteOf(after, h) == Some(after[id])
      && TenantsService.Rejection(TenantsService.InviteOf(after, h), at) == None
  {
    var after := invites[id := Reissued(invites[id], h, ttlHours, now)];
    assert after[id].tokenHash == h;
    var found := TenantsService.InviteByHash(after, h);
    assert found.Some?;
  }
}

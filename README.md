# Helpdesk core, modelled in Dafny

The helpdesk is a multi-tenant support desk. A workspace (tenant) has members with roles: OWNER, ADMIN, AGENT and VIEWER. Members file tickets and comment on them. Each workspace keeps a knowledge base of uploaded or pasted sources, and an AI assistant drafts replies from it. This project models the deterministic core of that system. The database, the file system, the embedding and chat models, the clock and the cryptographic and encoding primitives are inputs, and the model proves what the code does with them.

What is modelled, one Dafny module per source file:

- **Ticket assist** (`TicketsController`, `AssistText`, `AiComment`, `DryRunCache`). The `assist` endpoint:
  - validates its body, checks the ticket and the AI quota;
  - answers from a recent AI comment on the ticket (the comment tier), else, for a dry run, from the process-local cache (the dry-run tier);
  - otherwise retrieves knowledge-base hits, selects them through the login/billing keyword filter, the similarity threshold, the fallbacks, per-chunk de-duplication and the topK cap, and asks the chat model once;
  - saves the answer as a comment whose marked JSON block the comment tier reads back, or caches it for 60 seconds on a dry run.

  The text helpers (truncate, clamp, the question key and the order-keeping question merge) and the role rule of a ticket update belong here too.
- **Knowledge ingestion** (`KbService`, `KbIndexing`, `KbStorage`, `KbController`, `IndexProcessor`). This covers:
  - the sliding-window and paragraph-aware chunkers;
  - the replacement of a source's chunks and similarity retrieval;
  - keyset-cursor listing, status counts and deletion;
  - creating, repairing and re-indexing sources through the queue, with the compensating FAILED writes;
  - the worker's job/source state machine and its progress reports;
  - the sanitised upload store and the controller's upload and role rules.
- **Model-service clients** (`Embedding`, `Llm`):
  - the embedder tries each de-duplicated host `retries` times;
  - the chat client tries each host once and classifies errors: payload too large, an error reply, a transient timeout or network failure, and a final timeout versus unavailable.
- **Tenancy, quotas and usage** (`TenantsService`, `TenantsController`, `Entitlements`, `Usage`, `TicketsService`, `Feedback`, `AuthService`, `TicketAssist`). This covers:
  - workspace creation and invites with hashed one-time tokens: accept, revoke, and reissue with its retry loop;
  - limits, their manual override and the quota checks;
  - the UTC month window and the usage report;
  - tenant-scoped tickets and comments with their audit entries, and feedback upserts;
  - sign-up and log-in;
  - the suggestion and draft-reply service.
- **Guards and web helpers** (`AuthGuard`, `TenantGuard`, `RolesGuard`, `WebStorage`, `CommandPalette`, `AppShell`): the bearer-token, tenant and role checks, the local-storage session values with their sentinel normalisation, the command-palette ticket filter and the navigation highlight test.

Shared modules:

- `Wrappers`: Option and Result.
- `Text`: JavaScript string operations, with lengths in code points.
- `Json`: parsed JSON values and codecs.
- `Records`: the entities and the `Db` class whose fields are the tables.
- `Sorting`: a stable sort, as `Array.prototype.sort` and `ORDER BY` behave.
- `Seqs`, `Calendar` (date arithmetic as `Date.UTC` does it), `Paths` and `Http`.

Services that write the database are methods that modify exactly the `Db` tables they write. Stateful objects are classes: the dry-run cache, the question merger, the web session store, the file store and the HTTP request the guards annotate.

Conventions:

- Timestamps are integer milliseconds.
- Similarities and distances are integers in thousandths, so the 0.6 threshold is 600.
- Lower-casing covers ASCII only.
- A JSON codec is lawful when parsing what it stringifies gives the value back.
- The dry-run cache is keyed by a structured key (tenant, ticket, topK, tone, comment count, newest comment time, query), not by the SHA-256 hex of its text.

A quirk of the source, modelled as written: a chat reply that is the JSON text `null` parses. It is metered as a generated call, and reading its fields then throws, so the request fails with an internal error (`TicketsController.NullReply`).

## Model

| member | source | states |
|---|---|---|
| AppShell.RootOnlyExact | apps/web/src/components/app-shell.tsx:21 | the root entry "/" is highlighted exactly on the page "/" |
| AppShell.ActiveIffSelfOrBelow | apps/web/src/components/app-shell.tsx:22 | any other entry is highlighted iff the path equals it or continues it with a '/' (both directions) |
| AppShell.SiblingNotActive | apps/web/src/components/app-shell.tsx:22 | a sibling path sharing the prefix but not followed by '/' (e.g. "/ticketsX" for "/tickets") is not highlighted |
| AuthGuard.BearerToken | apps/api/src/common/guards/auth.guard.ts:20-26 | a token exists iff the header is present, starts with "Bearer " and the trimmed remainder is non-empty; it is that trimmed remainder |
| AuthGuard.Subject | apps/api/src/common/guards/auth.guard.ts:31-34 | the subject exists iff the payload's `sub` is a string with non-blank trim, and it is that string |
| AuthGuard.Authenticate | apps/api/src/common/guards/auth.guard.ts:17-40 | "Missing token" iff no usable bearer token; success iff the token verifies and has a valid subject, returning that subject; every other failure is "Invalid token" |
| AuthGuard.CanActivate | apps/api/src/common/guards/auth.guard.ts:17-41 | on success the request's user becomes the authenticated id and the result is true; on failure the request is unchanged and the exception is returned |
| AuthGuard.BearerHeaderAuthenticates | apps/api/src/common/guards/auth.guard.ts:20-37 | a header "Bearer t" with a verifying token and non-blank string subject authenticates as that subject |
| RolesGuard.Decide | apps/api/src/common/guards/roles.guard.ts:10-25 | no required roles allows; otherwise a missing tenant context is "Missing tenant context", a role outside the list is "Insufficient role", and success holds iff the role is listed |
| RolesGuard.MoreRolesAdmitMore | apps/api/src/common/guards/roles.guard.ts:22-24 | extending a handler's role list never rejects a member it admitted |
| TenantGuard.TenantHeader | apps/api/src/common/guards/tenant.guard.ts:21-22 | the tenant id exists iff the header is present with non-blank trim, and it is the trimmed value |
| TenantGuard.Resolve | apps/api/src/common/guards/tenant.guard.ts:17-34 | missing user, blank header and non-membership give their three Forbidden messages in that order; success iff all three checks pass, carrying the trimmed id and the membership's role |
| TenantGuard.CanActivate | apps/api/src/common/guards/tenant.guard.ts:15-35 | on success the request's tenant context becomes the resolved one and the result is true; on failure the request is unchanged |
| TenantGuard.HeaderIsTrimmed | apps/api/src/common/guards/tenant.guard.ts:22 | the selected tenant id carries no surrounding white space |
| Http.HeaderValue | apps/api/src/common/guards/auth.guard.ts:6-11 | a string header is itself, an array header whose first element is a string is that element, and nothing else yields a value |
| AuthService.NormalizeEmailIdempotent | apps/api/src/auth/auth.service.ts:11 | normalising an address twice equals normalising it once, so a stored address finds its own row |
| AuthService.Signup | apps/api/src/auth/auth.service.ts:10-27 | an existing normalised address gives Conflict "Email already in use" and no new user; otherwise exactly one user row under the normalised address with the hashed password, and a token for the new id |
| AuthService.Login | apps/api/src/auth/auth.service.ts:29-43 | success iff the normalised address exists and the password matches, returning a token for that user's id; an unknown address and a wrong password give the same "Invalid credentials" |
| AuthService.IssuedTokenAuthenticates | apps/api/src/auth/auth.service.ts:45-48 | a token issued for a user id, presented as "Bearer <token>", authenticates as that user id in the authentication guard |
| CommandPalette.MatchingTickets | apps/web/src/components/command-palette.tsx:47-52 | every kept ticket matches the query in its lower-cased title or description (absent as ""), every matching ticket is kept, and input order is kept |
| CommandPalette.BlankQueryListsFirst | apps/web/src/components/command-palette.tsx:45-46 | a blank query lists the first 30 tickets in their given order |
| CommandPalette.SearchResult | apps/web/src/components/command-palette.tsx:45-53 | a non-blank query gives at most 50 tickets in input order, each matching the trimmed lower-cased query, and misses no match unless the cap was reached |
| Feedback.NormalizedComment | apps/api/src/ai/feedback.service.ts:18-21 | the comment is null iff absent or blank, and otherwise is its non-empty trimmed text |
| Feedback.Latest | apps/api/src/ai/feedback.service.ts:29-33 | finds the user's newest feedback on the ticket (the last matching row); none iff no row matches |
| Feedback.UpsertFeedback | apps/api/src/ai/feedback.service.ts:9-51 | a ticket outside the tenant is Forbidden with no write; otherwise the newest matching row has only rating and comment replaced, or exactly one new row is appended |
| Feedback.RatingKeepsOneRow | apps/api/src/ai/feedback.service.ts:35-50 | rating a ticket creates one row on first rating and none afterwards, so the row count per user and ticket never grows past what it was or one |
| Feedback.CountForNone | apps/api/src/ai/feedback.service.ts:42-50 | when no feedback matches, the user has no row for the ticket (the case in which one row is created) |
| Feedback.CountForUpdate | apps/api/src/ai/feedback.service.ts:36-39 | updating a matching row in place leaves the number of matching rows unchanged |
| Feedback.CountForPositive | apps/api/src/ai/feedback.service.ts:35 | an existing matching row means the count of matching rows is positive |
| WebStorage.ReadNormalised | apps/web/src/lib/storage.ts:13-17 | a read yields a value iff the key is stored with a value other than "", "undefined" or "null", and then yields that value |
| WebStorage.SessionStore.SetToken | apps/web/src/lib/storage.ts:6-8 | stores the token under "token" and nothing else; reading it back gives the token |
| WebStorage.SessionStore.ClearToken | apps/web/src/lib/storage.ts:9-11 | removes only "token"; reading it back gives null |
| WebStorage.SessionStore.SetTenantId | apps/web/src/lib/storage.ts:19-21 | stores the id under "tenantId"; reading back gives the id unless it is a sentinel, then null |
| WebStorage.SessionStore.ClearTenantId | apps/web/src/lib/storage.ts:22-24 | removes only "tenantId"; reading it back gives null |
| WebStorage.SessionStore.SetWorkspaceName | apps/web/src/lib/storage.ts:32-34 | stores the name under "wb_name"; reading back gives the name unless it is a sentinel, then null |
| WebStorage.SessionStore.ClearWorkspaceName | apps/web/src/lib/storage.ts:35-37 | removes only "wb_name"; reading it back gives null |
| WebStorage.KeysIndependent | apps/web/src/lib/storage.ts:1-38 | writing or removing one of the three keys leaves the raw and normalised reads of the other two unchanged |
| Entitlements.Upserted | apps/api/src/entitlements/entitlements.service.ts:18-24 | after the upsert the tenant has a row; an existing row and every other tenant's row are kept, a missing one gets the schema defaults |
| Entitlements.GetOrCreateEntitlement | apps/api/src/entitlements/entitlements.service.ts:18-24 | the table becomes the upserted one and the returned limits are the tenant's row |
| Entitlements.CheckLimit | apps/api/src/entitlements/entitlements.service.ts:32-37 | a limit passes iff it is absent, null, or a finite non-negative whole number; a refusal is BadRequest "<name> must be a non-negative integer" |
| Entitlements.Validate | apps/api/src/entitlements/entitlements.service.ts:39-41 | the patch passes iff all three checks pass, and a bad maxAgents is reported first |
| Entitlements.PatchedChangesOnlySupplied | apps/api/src/entitlements/entitlements.service.ts:45-54 | a validated patch leaves absent fields unchanged and sets each supplied field to its supplied non-negative value |
| Entitlements.EmptyPatch | apps/api/src/entitlements/entitlements.service.ts:45-54 | a patch with no fields leaves the limits as they are |
| Entitlements.SetLimits | apps/api/src/entitlements/entitlements.service.ts:31-55 | a refused patch returns the refusal with no write; otherwise the row is upserted and then holds exactly the patched limits, which are returned (a supplied null is refused by the store after the upsert) |
| Entitlements.CurrentMonthWindow | apps/api/src/entitlements/entitlements.service.ts:57-62 | the window starts at the first instant of the current UTC month and ends at the first instant of the next, one month's length later |
| Entitlements.RecordEvent | apps/api/src/entitlements/entitlements.service.ts:68-75 | appending an event adds its amount (and one to the count) to a tenant's windowed total iff it matches tenant, type and window; other events change nothing |
| Entitlements.NoMatchingEvents | apps/api/src/entitlements/entitlements.service.ts:77 | with no matching events the summed amount and the count are 0 |
| Entitlements.OverLimit | apps/api/src/entitlements/entitlements.service.ts:78-80 | a quota check refuses iff the count reaches the maximum, with a Forbidden of the given message |
| Entitlements.AssertCanUseAi | apps/api/src/entitlements/entitlements.service.ts:64-81 | refused iff the tenant's summed AI_ASSIST_CALL amount in the current UTC month is at least its monthly allowance, with the "(used/max)." message; the entitlement row is upserted first |
| Entitlements.AssertCanAddKbSource | apps/api/src/entitlements/entitlements.service.ts:83-90 | refused iff the tenant's number of sources is at least maxKbSources, with the "(count/max)." message |
| Entitlements.AssertCanAddMember | apps/api/src/entitlements/entitlements.service.ts:92-99 | refused iff the tenant's number of memberships is at least maxAgents, with the "(count/max)." message |
| Calendar.NextMonthStart | apps/api/src/entitlements/entitlements.service.ts:59-60 | `Date.UTC` of the next month index is the first of this month plus this month's length in days |
| Calendar.DecemberCarry | apps/api/src/usage/usage.service.ts:24 | month index 12 carries into January of the next year |
| Usage.MonthOf | apps/api/src/usage/usage.service.ts:21 | the month number of a valid month string lies in 1..12 |
| Usage.PadTwo | apps/api/src/usage/usage.service.ts:14 | a one-character month gets a leading "0"; two characters are kept |
| Usage.CurrentMonthValid | apps/api/src/usage/usage.service.ts:11-16 | the current month string is valid and reads back as the clock's year and month |
| Usage.SafeMonth | apps/api/src/usage/usage.service.ts:19 | the month asked for when present, non-empty and valid, otherwise the current month; always valid |
| Usage.MonthBounds | apps/api/src/usage/usage.service.ts:18-26 | the window starts at the first instant of the safe month and is exactly that month's length |
| Usage.DefaultMonthIsQuotaMonth | apps/api/src/usage/usage.service.ts:18-26 | with no month asked for, the report's window is the AI quota's window |
| Usage.ConsecutiveMonths | apps/api/src/usage/usage.service.ts:23-24 | a month ends exactly where the next begins; December ends where January of the next year begins |
| Usage.TwoDigitYears | apps/api/src/usage/usage.service.ts:20-23 | a year written 0000..0099 selects 1900..1999, as `Date.UTC` reads two-digit years |
| Usage.NoEventsNoAmount | apps/api/src/usage/usage.service.ts:62-63 | a type with no events in the window totals {0, 0} |
| Usage.GroupRows | apps/api/src/usage/usage.service.ts:46-54 | one row per event type that has events in the window, each holding that type's summed amount and count |
| Usage.GetSummary | apps/api/src/usage/usage.service.ts:40-89 | the report has the safe month's window, the upserted limits, the source and member counts, and for every event type that window's amount and event count, {0, 0} for types without events |
| Records.Clamp | apps/api/src/tickets/tickets.service.ts:47 | `Math.min(Math.max(n, lo), hi)` lies in [lo, hi], is n inside the range and the nearer bound outside it |
| TicketsService.CreateTicket | apps/api/src/tickets/tickets.service.ts:9-38 | one new open, unassigned ticket with the given fields and priority MEDIUM unless given, plus one TICKET_CREATED entry carrying title and priority |
| TicketsService.ListTake | apps/api/src/tickets/tickets.service.ts:47 | the take is the limit (50 when absent) clamped to 1..200 |
| TicketsService.Select | apps/api/src/tickets/tickets.service.ts:50-55 | a ticket is selected iff it belongs to the tenant and matches every supplied status, priority and assignee filter |
| TicketsService.ListTicketsMembers | apps/api/src/tickets/tickets.service.ts:40-69 | the listing holds min(take, matching) rows, each a stored matching ticket of the tenant |
| TicketsService.ListTicketsNewestFirst | apps/api/src/tickets/tickets.service.ts:56 | the listing is in non-increasing creation time |
| TicketsService.ListTicketsKeepsNewest | apps/api/src/tickets/tickets.service.ts:56-57 | no matching ticket left out by the take is newer than a listed one |
| TicketsService.CommentsOf | apps/api/src/tickets/tickets.service.ts:74 | exactly the comments of the ticket |
| TicketsService.GetTicket | apps/api/src/tickets/tickets.service.ts:71-78 | NotFound "Ticket not found" iff the ticket is missing or another tenant's; otherwise the ticket with exactly its comments, in ascending creation time |
| TicketsService.SameInstantCommentsInOrder | apps/api/src/tickets/tickets.service.ts:74 | comments with the same creation time keep their stored order |
| TicketsService.Updated | apps/api/src/tickets/tickets.service.ts:94-101 | supplied fields take the new value (assignee may be set or cleared), absent fields and all other columns keep theirs |
| TicketsService.EmptyUpdate | apps/api/src/tickets/tickets.service.ts:96-100 | an update with no fields leaves the ticket unchanged |
| TicketsService.UpdateTicket | apps/api/src/tickets/tickets.service.ts:80-119 | NotFound outside the tenant with no write; otherwise the ticket becomes the updated one and one TICKET_UPDATED entry records its new status, priority and assignee |
| TicketsService.AddComment | apps/api/src/tickets/tickets.service.ts:121-154 | NotFound outside the tenant with no write; otherwise exactly one comment with the given author and body and one COMMENT_ADDED entry referencing the ticket |
| TicketsService.CommentsOfAppend | apps/api/src/tickets/tickets.service.ts:133-140 | a stored comment joins its own ticket's comments at the end and no other ticket's |
| TicketsService.AddedCommentComesLast | apps/api/src/tickets/tickets.service.ts:74 | a comment added no earlier than the ticket's others appears once more in its ticket's view, and no comment there is newer |
| TenantsService.CreateTenant | apps/api/src/tenants/tenants.service.ts:14-45 | the tenant, the creator as OWNER, an entitlement row of 3 agents / 10 sources / 200 AI messages and one TENANT_CREATED entry are all written, and nothing else |
| TenantsService.NewTenantHasOneMember | apps/api/src/tenants/tenants.service.ts:18-20 | a new tenant has exactly one member |
| TenantsService.MembershipUpsertSeats | apps/api/src/tenants/tenants.service.ts:144-155 | upserting an existing member's role takes no new seat; adding a new member takes exactly one |
| TenantsService.InviteEmail | apps/api/src/tenants/tenants.service.ts:97 | the stored address is present iff given, and then lower-cased |
| TenantsService.NewInvite | apps/api/src/tenants/tenants.service.ts:88-101 | the inserted invite is unused, holds the token's hash and the lower-cased address, and expires ttlHours (72 by default) hours after now |
| TenantsService.CreateInvite | apps/api/src/tenants/tenants.service.ts:75-117 | the seat check runs only for roles other than VIEWER and a refusal writes no invite; an accepted request stores exactly the new invite and an INVITE_CREATED entry and returns the raw token; token hashes stay unique |
| TenantsService.InviteByHash | apps/api/src/tenants/tenants.service.ts:122-131 | finds the invite holding the token hash, none iff no invite holds it |
| TenantsService.FindInvite | apps/api/src/tenants/tenants.service.ts:122-131 | the lookup by the unique hash returns that invite's id, or none |
| TenantsService.Rejection | apps/api/src/tenants/tenants.service.ts:133-135 | refuses in order an unknown token, a used invite and one that expired before now; accepts iff the invite exists, is unused and expiresAt >= now |
| TenantsService.AcceptedInviteIsUsed | apps/api/src/tenants/tenants.service.ts:157-160 | once marked used, an invite is refused as "Invite already used" |
| TenantsService.MarkUsedKeepsUnique | apps/api/src/tenants/tenants.service.ts:157-160 | marking an invite used keeps token hashes unique |
| TenantsService.CommitAcceptance | apps/api/src/tenants/tenants.service.ts:150-172 | in one step the membership gets the invite's role, the invite's usedAt is set to now, and one INVITE_ACCEPTED entry is appended |
| TenantsService.AcceptInvite | apps/api/src/tenants/tenants.service.ts:119-178 | a rejected token writes nothing; the seat check applies only to a non-VIEWER role for a user not yet a member, and its refusal writes no membership, invite or audit; otherwise the acceptance is committed and the entitlement row is made to exist |
| TenantsService.AuditTake | apps/api/src/tenants/tenants.service.ts:184 | the take lies in 1..200 and is the limit when already inside |
| TenantsService.NewestFirst | apps/api/src/tenants/tenants.service.ts:181-183 | exactly the tenant's entries, every one of them the tenant's |
| TenantsService.ListAuditLogs | apps/api/src/tenants/tenants.service.ts:180-197 | at most the clamped take of the tenant's own entries |
| TenantsService.NewEntryListedFirst | apps/api/src/tenants/tenants.service.ts:183 | a new entry of the tenant is listed first; an entry of another tenant leaves the listing unchanged |
| TenantsController.InviteAllowed | apps/api/src/tenants/tenants.controller.ts:129-135 | together with the service's seat check, an invite passes iff a seat is left, or it is a VIEWER invite and maxAgents is not positive |
| TenantsController.CreateInvite | apps/api/src/tenants/tenants.controller.ts:109-142 | the entitlement row is upserted; a positive maxAgents reached by the member count refuses any role with "Member limit reached (n/max). ..." and no write; success iff the limit and the seat check pass and the token hash is free, storing exactly the new invite |
| TenantsController.SelectPending | apps/api/src/tenants/tenants.controller.ts:156-160 | an invite is selected iff it is the tenant's, unused, and expires after now |
| TenantsController.ListInvitesPending | apps/api/src/tenants/tenants.controller.ts:148-175 | the list holds min(limit, pending) stored pending invites of the tenant, limit 50 by default |
| TenantsController.ListInvitesNewestFirst | apps/api/src/tenants/tenants.controller.ts:161 | the list is in non-increasing creation time |
| TenantsController.InviteRefusal | apps/api/src/tenants/tenants.controller.ts:182-187 | "Invite not found" for an id outside the tenant, "Invite already used" for a used one, and no refusal iff it is the tenant's unused invite |
| TenantsController.RevokeInvite | apps/api/src/tenants/tenants.controller.ts:181-191 | a refusal deletes nothing; otherwise exactly that invite is deleted |
| TenantsController.RevokedTokenIsInvalid | apps/api/src/tenants/tenants.controller.ts:189 | after revocation the invite's token is rejected as unknown and every other invite is kept as it was |
| TenantsController.FirstFreeAttempt | apps/api/src/tenants/tenants.controller.ts:215-231 | the first of the three attempts whose new hash collides with no other invite, all earlier ones colliding; none when all three collide |
| TenantsController.ReissueInvite | apps/api/src/tenants/tenants.controller.ts:197-234 | after the revoke refusals (no write, no attempt), the first free attempt k stores the new hash, usedAt null and expiry now + ttl (168 h by default) after k + 1 attempts; three collisions rethrow the third failure with nothing written; hashes stay unique |
| TenantsController.ReissuedTokenAccepted | apps/api/src/tenants/tenants.controller.ts:219-227 | the reissued token finds the reissued invite and is accepted at any moment up to the new expiry |
| KbStorage.SanitizeFilename | apps/api/src/kb/kb.storage.service.ts:56-58 | same length; every character is in [A-Za-z0-9._-]; allowed characters are kept and every other one becomes '_' |
| KbStorage.SanitizeAllowed | apps/api/src/kb/kb.storage.service.ts:56-58 | a name made only of allowed characters is left as it is |
| KbStorage.SanitizeIdempotent | apps/api/src/kb/kb.storage.service.ts:56-58 | sanitising twice equals sanitising once |
| KbStorage.StoredName | apps/api/src/kb/kb.storage.service.ts:29 | an empty name becomes "upload", any other is sanitised; the result is non-empty and has no '/' |
| KbStorage.BaseDir | apps/api/src/kb/kb.storage.service.ts:24-26 | the configured directory, else `<cwd>/storage/kb` |
| KbStorage.StoragePathInSourceDir | apps/api/src/kb/kb.storage.service.ts:30-33 | a stored file whose stored name is not "." or ".." lies inside its source's directory `base/tenant/source/` |
| KbStorage.StoragePathsSeparateSources | apps/api/src/kb/kb.storage.service.ts:30-33 | two uploads share a path only when tenant, source and stored name all agree (ids without '/', stored names other than "." and "..") |
| KbStorage.RemoveUnder | apps/api/src/kb/kb.storage.service.ts:52 | exactly the files outside the directory remain, with their contents |
| KbStorage.RemoveAbsentDir | apps/api/src/kb/kb.storage.service.ts:51-52 | removing a directory that holds nothing changes nothing |
| KbStorage.FileStore.SaveUpload | apps/api/src/kb/kb.storage.service.ts:28-36 | a failing write returns its error with the files unchanged; otherwise the buffer is stored at `base/tenant/source/safeName`, overwriting what was there, and that path is returned |
| KbStorage.FileStore.SaveText | apps/api/src/kb/kb.storage.service.ts:38-46 | the same as saving the UTF-8 bytes of the content under the given file name |
| KbStorage.FileStore.RemoveSourceDir | apps/api/src/kb/kb.storage.service.ts:49-53 | every file under the source's directory is removed and no other; an absent directory is not an error |
| Text.Utf8 | apps/api/src/kb/kb.storage.service.ts:39 | the encoding of a string has between 1 and 4 bytes per character |
| Text.Utf8RoundTrip | apps/api/src/kb/kb.storage.service.ts:39 | decoding the UTF-8 bytes of a text gives back its code points, so saved text loses nothing |
| Paths.ExtNameOf | apps/api/src/kb/kb.controller.ts:80 | `extname` of `stem.ext` (non-empty stem, no '/' or further dot) is `.ext` |
| Paths.ExtNameNoDot | apps/api/src/kb/kb.controller.ts:80 | a name without a dot has the empty extension |
| KbController.CheckFile | apps/api/src/kb/kb.controller.ts:76-88 | a missing file is "Missing file"; a file with neither an allowed MIME type nor an allowed lower-cased extension is "Unsupported file type"; an allowed file of size <= 0 is "Empty file"; it passes iff it is present, allowed and non-empty |
| KbController.UploadGate | apps/api/src/kb/kb.controller.ts:74-88 | with the quota passed, the upload's answer is exactly the file checks' |
| KbController.QuotaBeforeFileChecks | apps/api/src/kb/kb.controller.ts:74-76 | a refused knowledge-source quota is the answer whatever the file, so it precedes every file check |
| KbController.MarkdownByExtension | apps/api/src/kb/kb.controller.ts:79-82 | a non-empty `<stem>.md` file is accepted whatever MIME type the browser sent |
| KbController.NoExtensionNeedsMime | apps/api/src/kb/kb.controller.ts:78-88 | a file whose name has no dot passes iff its MIME type is allowed and it is non-empty |
| KbController.RepairAnswer | apps/api/src/kb/kb.controller.ts:131-132 | an unknown source becomes "KnowledgeSource not found", a repaired one is returned |
| KbController.DecodeCursor | apps/api/src/kb/kb.controller.ts:240-251 | a cursor the decoder parameter rejects decodes to null; a decoded cursor has a non-empty id without '\|' |
| KbController.DecodeFields | apps/api/src/kb/kb.controller.ts:243-247 | the fields read from a decoded text give a cursor only with a non-empty first and second field, and its id has no '\|' |
| KbController.SplitFieldsHaveNoSeparator | apps/api/src/kb/kb.controller.ts:243 | no field of a split holds the separator |
| KbController.CursorRoundTrip | apps/api/src/kb/kb.controller.ts:240-251 | decoding the service's cursor for (createdAt, id) gives back (createdAt, id) for any non-empty id without '\|' |
| KbController.CursorIdCut | apps/api/src/kb/kb.controller.ts:243 | an id holding a '\|' comes back cut at its first '\|' |
| KbController.EncodedFields | apps/api/src/kb/kb.controller.ts:240-251 | under a lawful codec, decoding the service's cursor reads the fields of the ISO date, a '\|' and the id |
| KbController.RequestCursor | apps/api/src/kb/kb.controller.ts:161 | an absent or empty cursor parameter gives no cursor; any other is decoded, an undecodable one being dropped |
| KbController.ShowSource | apps/api/src/kb/kb.controller.ts:206-213 | a missing source is "KnowledgeSource not found"; OWNER and ADMIN see the row as stored, other roles the row with storagePath null |
| KbController.StoragePathVisibility | apps/api/src/kb/kb.controller.ts:209-213 | a stored path is visible iff the role is OWNER or ADMIN |
| KbController.DeleteSource | apps/api/src/kb/kb.controller.ts:218-229 | a role other than OWNER or ADMIN is Forbidden "Not allowed" before any lookup or write; an unknown source is "KnowledgeSource not found" with nothing changed; otherwise the source's chunks, jobs and row are removed |
| KbIndexing.EnqueueRejection | apps/api/src/kb/kb.indexing.service.ts:169-174 | "KnowledgeSource not found" for a source the tenant does not own, the "repair required" refusal for one without a stored file, and no refusal iff it is owned and has a non-empty storage path |
| KbIndexing.EnqueueSourceIndex | apps/api/src/kb/kb.indexing.service.ts:165-228 | a refusal writes nothing and submits nothing; otherwise one QUEUED INDEX_KB_SOURCE job is created and submitted under its own id, then on success the source is INDEXING with error and index time cleared, and on a submission failure job and source are both FAILED with the message and the error is rethrown |
| KbIndexing.EnqueuedIsRunnable | apps/api/src/kb/kb.indexing.service.ts:199-211 | a successfully enqueued job exists QUEUED, is submitted under its id, and names a source the tenant owns that is INDEXING and has its stored file |
| KbIndexing.EnqueueFailureMarksBoth | apps/api/src/kb/kb.indexing.service.ts:212-225 | a failed submission leaves job and source FAILED with the same message and rethrows it |
| KbIndexing.NewSource | apps/api/src/kb/kb.indexing.service.ts:21-33 | a new source is QUEUED with the file's name, type and size, and no storage path, error or index time |
| KbIndexing.StoragePathNonEmpty | apps/api/src/kb/kb.indexing.service.ts:174 | a saved file's path is never empty, so a saved source is never refused as needing repair |
| KbIndexing.StoreAndEnqueue | apps/api/src/kb/kb.indexing.service.ts:35-62 | a failed save marks the source FAILED with the message, creates no job and rethrows; otherwise the path is recorded and the source is enqueued |
| KbIndexing.CreateSourceFromUpload | apps/api/src/kb/kb.indexing.service.ts:14-63 | the QUEUED source is inserted before the save; a failing save leaves it FAILED with no job and no file; otherwise the file is stored at its path, the path recorded, and the source enqueued, returning (sourceId, jobId) |
| KbIndexing.CreateSourceFromText | apps/api/src/kb/kb.indexing.service.ts:65-116 | as for an upload, with MIME type text/plain unless given, size the UTF-8 byte length of the content, and the UTF-8 bytes stored |
| KbIndexing.RepairSourceFromUpload | apps/api/src/kb/kb.indexing.service.ts:118-163 | an unknown source gives null with no write; a failing save marks the source FAILED and rethrows; otherwise filename, type, size and path are replaced, the source reset to QUEUED with index time and error cleared, and then enqueued |
| KbIndexing.RetrySourceIndex | apps/api/src/kb/kb.indexing.service.ts:230-241 | an unknown source gives null with no write; otherwise the outcome is exactly that of enqueueing |
| KbIndexing.RetryNeedsStoredFile | apps/api/src/kb/kb.indexing.service.ts:174 | retrying a source without a stored file is refused as needing repair |
| KbService.CleanText | apps/api/src/kb/kb.service.ts:16 | the chunker's input is the CR LF-normalised text with surrounding white space removed, so it is trimmed |
| KbService.WindowsShape | apps/api/src/kb/kb.service.ts:22-28 | the windows the loop visits start at 0, are chunkSize long except the last, which reaches the end of the text, and each next window starts overlap characters before the previous end |
| KbService.ChunkText | apps/api/src/kb/kb.service.ts:15-31 | the loop collects exactly the trimmed, non-empty contents of those windows, in order |
| KbService.SlidingChunksShape | apps/api/src/kb/kb.service.ts:23-25 | every chunk is non-empty, trimmed and at most chunkSize characters long |
| KbService.BlankTextNoChunks | apps/api/src/kb/kb.service.ts:16-17 | a text that is only white space yields no chunk |
| KbService.ShortTextOneChunk | apps/api/src/kb/kb.service.ts:22-26 | a cleaned text no longer than one window is its own single chunk |
| KbService.WithoutSource | apps/api/src/kb/kb.service.ts:45 | the delete removes exactly the chunks of that tenant and source and keeps every other row |
| KbService.NewRows | apps/api/src/kb/kb.service.ts:51-73 | the i-th inserted row carries the tenant, source, ordinal, content and metadata of the i-th input, and its embedding only when the vector is non-empty |
| KbService.FirstFailure | apps/api/src/kb/kb.service.ts:62 | the index of the first embedding call that throws: all calls before it succeed |
| KbService.ReplaceSourceChunks | apps/api/src/kb/kb.service.ts:37-81 | succeeds exactly when no embedding throws, reporting inserted = number of inputs and embedded = number of stored vectors; the table is the other sources' chunks plus the new rows (only up to the failing row on a throw, whose error is returned); one progress report (i+1)/max(1,n) per finished chunk |
| KbService.ReplacementScope | apps/api/src/kb/kb.service.ts:45-60 | after a replacement the source's chunks are exactly the new rows, and every other source keeps its chunks |
| KbService.WithoutSourceIdempotent | apps/api/src/kb/kb.service.ts:45 | deleting a source's chunks twice is the same as once |
| KbService.ReplaceTwice | apps/api/src/kb/kb.service.ts:45-60 | a second replacement of the same source leaves no trace of the first |
| KbService.ProgressReachesOne | apps/api/src/kb/kb.service.ts:75-77 | the progress reports strictly increase and the last one is 1 |
| KbService.Candidates | apps/api/src/kb/kb.service.ts:172-175 | a chunk is a candidate exactly when it belongs to the tenant, has an embedding and its source row exists |
| KbService.Ranked | apps/api/src/kb/kb.service.ts:176 | the ranking is a permutation of the candidates |
| KbService.TopHits | apps/api/src/kb/kb.service.ts:177-189 | min(topK, candidates) hits, the i-th rendering the i-th closest candidate |
| KbService.Query | apps/api/src/kb/kb.service.ts:147-190 | an embedding error propagates, an empty query vector gives no hits, and never more than topK hits |
| KbService.QueryHitsFromCandidates | apps/api/src/kb/kb.service.ts:164-189 | every hit renders one of the tenant's embedded chunks whose source exists, and its snippet is the first 240 characters of its content |
| KbService.QueryOrdered | apps/api/src/kb/kb.service.ts:169-176 | hits come in non-increasing similarity |
| KbService.QueryKeepsClosest | apps/api/src/kb/kb.service.ts:176-177 | a candidate left out of the result is no closer to the query than any returned hit |
| KbService.NewestFirstTotal | apps/api/src/kb/kb.service.ts:223 | ordering by createdAt desc then id desc is a total preorder |
| KbService.Select | apps/api/src/kb/kb.service.ts:207-218 | a source is selected exactly when it is the tenant's, matches the status and case-insensitive filename filters, and lies strictly after the cursor |
| KbService.CursorPageContents | apps/api/src/kb/kb.service.ts:213-242 | a cursor page holds at most limit sources, each matching the filters and after the cursor, newest first, and it has a next cursor exactly when it is full |
| KbService.GroupByStatus | apps/api/src/kb/kb.service.ts:269-273 | the groupBy yields a row for exactly the statuses some source of the tenant has, with their counts |
| KbService.GetStatusCounts | apps/api/src/kb/kb.service.ts:268-281 | every status gets an entry equal to the number of the tenant's sources with it, 0 when none has it |
| KbService.JobsWithout | apps/api/src/kb/kb.service.ts:332 | exactly the source's jobs are removed and the others are unchanged |
| KbService.DeleteSource | apps/api/src/kb/kb.service.ts:323-342 | a source the tenant does not own changes nothing and gives null; otherwise its chunks, jobs and row are deleted and its directory removed, a disk failure leaving the files but not failing the call |
| Embedding.TimeoutMs | apps/api/src/ai/embedding.service.ts:20-24 | the timeout is always a finite number above zero; an unset, empty, non-finite or non-positive setting falls back to 60 000 |
| Embedding.Retries | apps/api/src/ai/embedding.service.ts:26-30 | at least one attempt per host; a finite setting of at least 1 is rounded down, anything else falls back to 3 |
| Embedding.CandidateHosts | apps/api/src/ai/embedding.service.ts:84-86 | the configured host comes first, the list holds exactly it, localhost and 127.0.0.1, and no host twice |
| Embedding.HostsShape | apps/api/src/ai/embedding.service.ts:82-86 | the list is two hosts long when the configured host is one of the defaults, in first-seen order, and three otherwise |
| Embedding.CollapseSpacesShape | apps/api/src/ai/embedding.service.ts:78 | after collapsing, every white-space character is a plain space and no two spaces are adjacent |
| Embedding.PromptEmptyIffBlank | apps/api/src/ai/embedding.service.ts:78-79 | the prompt is empty exactly when the text is all white space |
| Embedding.CallResult | apps/api/src/ai/embedding.service.ts:45-51 | a 2xx reply gives its embedding, [] when the field is missing; a non-2xx reply becomes "Error: " followed by the trimmed "HTTP <status> <body>"; a thrown error passes through |
| Embedding.Attempts | apps/api/src/ai/embedding.service.ts:92 | attempts on one host are numbered 1 to retries |
| Embedding.Plan | apps/api/src/ai/embedding.service.ts:91-101 | the plan holds hosts times retries calls |
| Embedding.PlanCall | apps/api/src/ai/embedding.service.ts:91-92 | each planned call is on a candidate host, with an attempt number from 1 to retries |
| Embedding.Outcome | apps/api/src/ai/embedding.service.ts:91-106 | embed succeeds exactly when some planned call does not throw, returning that first vector after exactly the failed calls before it; otherwise ServiceUnavailable after every call of the plan |
| Embedding.UsageFor | apps/api/src/ai/embedding.service.ts:57-75 | a usage event is recorded exactly when the caller supplies a non-empty tenant id: a KB_EMBEDDING event of amount 1 for that tenant and user |
| Embedding.TryHost | apps/api/src/ai/embedding.service.ts:92-100 | the inner loop makes attempts 1, 2, ... on one host and stops at the first call that does not throw, or after retries failures keeping the last error |
| Embedding.TryHosts | apps/api/src/ai/embedding.service.ts:91-101 | the outer loop makes exactly the plan's calls up to and including the first success, or the whole plan with the last error |
| Embedding.Embed | apps/api/src/ai/embedding.service.ts:77-107 | a blank text gives [] with no call and no usage; otherwise the result and call count are Outcome's, the calls are the plan's first ones, and a success adds the usage event unless none is due or its write fails |
| Embedding.AllFailCallsEveryHost | apps/api/src/ai/embedding.service.ts:91-106 | when every call fails, embed throws after calling each host retries times |
| Embedding.FirstCallSucceeds | apps/api/src/ai/embedding.service.ts:94-96 | a reply to the first call on the configured host ends embed after one call |
| Llm.ContextLengthByPhrase | apps/api/src/ai/llm.service.ts:19-30 | an error text is a context-length error exactly when its lower-cased form contains one of the seven phrases |
| Llm.ContextLengthIgnoresCase | apps/api/src/ai/llm.service.ts:20 | the classification does not depend on letter case |
| Llm.ContextLengthInContext | apps/api/src/ai/llm.service.ts:19-30 | a context-length error text stays one whatever text surrounds it |
| Llm.NetworkCodeCounts | apps/api/src/ai/llm.service.ts:37-40 | any of the five connection codes, on the error or else on its cause, in any case, makes a network error |
| Llm.QuietErrorIsNotNetwork | apps/api/src/ai/llm.service.ts:32-53 | an error whose message names no fetch or network failure, whose code is none of the five and that has no cause is not a network error |
| Llm.ErrorText | apps/api/src/ai/llm.service.ts:83-91 | the error text is a string error field of the parsed body if there is one, else a string message field, else the raw body |
| Llm.ErrorTextRoundTrip | apps/api/src/ai/llm.service.ts:84-91 | a body serialised from {"error": m} reads back as m, and a body that does not parse reads back as itself |
| Llm.ReplyError | apps/api/src/ai/llm.service.ts:93-109 | a non-2xx reply raises PayloadTooLarge exactly when its text is a context-length error and ServiceUnavailable otherwise, and neither is treated as transient |
| Llm.ExceptionIsQuiet | apps/api/src/ai/llm.service.ts:94-109 | the exceptions raised for error replies are never taken for network errors, so they propagate |
| Llm.TryHost | apps/api/src/ai/llm.service.ts:74-113 | an answer is returned trimmed, "" when it has no content; an error reply gives a non-transient failure; a thrown error passes through |
| Llm.ChatTimeoutMs | apps/api/src/ai/llm.service.ts:61 | the timeout is never NaN or zero: unset, NaN or zero give 60 000, and any other number is kept |
| Llm.FirstStop | apps/api/src/ai/llm.service.ts:70-132 | the first host whose attempt returns or throws something non-transient; every host before it failed transiently |
| Llm.Exhausted | apps/api/src/ai/llm.service.ts:134-148 | after all hosts fail, the failure is RequestTimeout exactly when the last error was an abort, and ServiceUnavailable otherwise |
| Llm.Outcome | apps/api/src/ai/llm.service.ts:70-148 | chat calls at least one and at most all hosts, every host before the last one called failed transiently, a success is the last host's answer, and stopping early means that host stopped the loop |
| Llm.OutcomeAtStop | apps/api/src/ai/llm.service.ts:70-128 | when the k-th host is the first whose attempt stops the loop, chat returns that attempt's answer or raises its exception, after calling k + 1 hosts |
| Llm.OutcomeExhausted | apps/api/src/ai/llm.service.ts:70-148 | when no host's attempt stops the loop, every host is called and the failure is built from the last host's error |
| Llm.Chat | apps/api/src/ai/llm.service.ts:59-149 | the loop's result and host count are Outcome's, the hosts are called in list order, and no host is called twice |
| Llm.ContextErrorStops | apps/api/src/ai/llm.service.ts:93-100 | a context-length error reply raises PayloadTooLarge with the model, the error text and the hint, and no later host is tried |
| Llm.ErrorReplyStops | apps/api/src/ai/llm.service.ts:102-109 | any other error reply raises ServiceUnavailable naming the model, host, status and error text, and no later host is tried |
| Llm.AnswerReturned | apps/api/src/ai/llm.service.ts:112-113 | an answer after transient failures is returned trimmed, or "" without content, after exactly that many hosts |
| Llm.AllTransient | apps/api/src/ai/llm.service.ts:117-148 | when every host fails transiently each is tried once, and the failure is a timeout exactly when the last error was an abort, otherwise "not reachable" with the last error's message |
| IndexProcessor.BreakFrom | apps/api/src/worker/workers/index-kb-source.processor.ts:147 | the first position from k on where two line feeds start, with no such pair before it |
| IndexProcessor.SplitBlankLines | apps/api/src/worker/workers/index-kb-source.processor.ts:147 | splitting on runs of two or more line feeds gives at least one field |
| IndexProcessor.Paragraphs | apps/api/src/worker/workers/index-kb-source.processor.ts:145-149 | the paragraphs of the text without carriage returns are non-empty and trimmed |
| IndexProcessor.SingleParagraph | apps/api/src/worker/workers/index-kb-source.processor.ts:145-149 | a non-blank text with no carriage return and no two adjacent line feeds is one paragraph, itself trimmed |
| IndexProcessor.Flush | apps/api/src/worker/workers/index-kb-source.processor.ts:154-157 | flushing emits at most one piece, never an empty one |
| IndexProcessor.SliceStep | apps/api/src/worker/workers/index-kb-source.processor.ts:170 | the slice step is at least 1, and maxChars - overlap when that is positive |
| IndexProcessor.SliceParagraph | apps/api/src/worker/workers/index-kb-source.processor.ts:165-172 | the slicing loop yields exactly the slices p.slice(i, i + maxChars) for i = 0, step, 2 step, ... below the paragraph's length |
| IndexProcessor.Pack | apps/api/src/worker/workers/index-kb-source.processor.ts:151-178 | the packing loop and final flush yield the pieces the per-paragraph step function defines |
| IndexProcessor.WithOverlap | apps/api/src/worker/workers/index-kb-source.processor.ts:180-187 | as many pieces as before; the first is unchanged and every later one is the previous piece's last overlap characters, a line feed, and itself |
| IndexProcessor.AddOverlap | apps/api/src/worker/workers/index-kb-source.processor.ts:181-186 | the overlap loop builds exactly that sequence |
| IndexProcessor.ChunkParagraphs | apps/api/src/worker/workers/index-kb-source.processor.ts:142-190 | chunkText returns the packed pieces, with overlaps added only when overlap is positive and there is more than one piece |
| IndexProcessor.SliceAt | apps/api/src/worker/workers/index-kb-source.processor.ts:168-170 | slice k of an oversized paragraph starts at k times the step |
| IndexProcessor.SlicesCount | apps/api/src/worker/workers/index-kb-source.processor.ts:168 | the slicing stops at the first start at or past the end of the paragraph |
| IndexProcessor.SlicesBounded | apps/api/src/worker/workers/index-kb-source.processor.ts:169 | no slice is longer than maxChars |
| IndexProcessor.ChunksNonEmpty | apps/api/src/worker/workers/index-kb-source.processor.ts:142-190 | with a positive maxChars no chunk is empty |
| IndexProcessor.OverlapShape | apps/api/src/worker/workers/index-kb-source.processor.ts:180-187 | with a positive overlap and more than one piece, each later chunk is the previous piece's tail, a line feed and the piece |
| IndexProcessor.PackAllFits | apps/api/src/worker/workers/index-kb-source.processor.ts:159-163 | while the paragraphs fit, the buffer is them joined by blank lines and nothing has been emitted |
| IndexProcessor.AllFitOneChunk | apps/api/src/worker/workers/index-kb-source.processor.ts:159-178 | a text whose paragraphs joined by blank lines fit in maxChars is exactly that one chunk |
| IndexProcessor.ExtractText | apps/api/src/worker/workers/index-kb-source.processor.ts:192-205 | a source without a storage path fails with "Missing storagePath for knowledge source" |
| IndexProcessor.PrepareChunks | apps/api/src/worker/workers/index-kb-source.processor.ts:64-72 | chunks are produced exactly when extraction succeeds and the trimmed text has at least 5 characters, and they are chunkText(text, 1200, 200) |
| IndexProcessor.ChunkInputs | apps/api/src/worker/workers/index-kb-source.processor.ts:78-82 | chunk i is sent with ordinal i and its own content |
| IndexProcessor.ReportsMonotone | apps/api/src/worker/workers/index-kb-source.processor.ts:70-89 | every progress report lies in [0, 100] and the reports never go down |
| IndexProcessor.Percents | apps/api/src/worker/workers/index-kb-source.processor.ts:83-86 | one percentage 25 + floor(p * 70) per embedding progress report |
| IndexProcessor.Outcome | apps/api/src/worker/workers/index-kb-source.processor.ts:63-138 | a run succeeds exactly when chunking succeeds and no embedding throws, with the chunk count as result; an extraction failure is rethrown as a plain error |
| IndexProcessor.IndexText | apps/api/src/worker/workers/index-kb-source.processor.ts:63-89 | the try block's outcome is Outcome's; before text is found no chunk is touched and nothing is reported; then the chunks are those replaceSourceChunks leaves and the reports are 10, 25, the per-chunk percentages and 100 on success |
| IndexProcessor.Settle | apps/api/src/worker/workers/index-kb-source.processor.ts:91-135 | a success marks the job SUCCEEDED and the source READY with indexedAt now, and meters the chunk count unless that write fails; a failure records the same message on both and marks them FAILED |
| IndexProcessor.Process | apps/api/src/worker/workers/index-kb-source.processor.ts:27-139 | a missing queue job id fails with no write; a job row that does not exist fails on the first update with no write; a source the tenant does not own marks only the job FAILED; otherwise both rows settle on the outcome as Ran describes |
| IndexProcessor.SucceededRun | apps/api/src/worker/workers/index-kb-source.processor.ts:72-100 | after a success the source's chunks are exactly the chunks of its text, in order and numbered from 0; other sources' chunks are unchanged; job SUCCEEDED, source READY, last report 100 |
| IndexProcessor.FailedRun | apps/api/src/worker/workers/index-kb-source.processor.ts:123-135 | a failure after the source was found records the same message on job and source, marks both FAILED, meters nothing and never reports 100 |
| TicketAssist.QueryText | apps/api/src/tickets/ticket-assist.service.ts:30 | the query is the caller's text when given, else the title, a blank line and the description |
| TicketAssist.Suggestions | apps/api/src/tickets/ticket-assist.service.ts:28-33 | a ticket the tenant does not own is NotFound; otherwise the result is the ticket with the knowledge-base hits for the query text, at most topK of them, or the query's error |
| TicketAssist.Suggest | apps/api/src/tickets/ticket-assist.service.ts:28-33 | suggest returns Suggestions' result and records no usage |
| TicketAssist.SourceLabel | apps/api/src/tickets/ticket-assist.service.ts:57 | a hit is labelled by its file name, or by its source id when the name is empty |
| TicketAssist.ContextEntries | apps/api/src/tickets/ticket-assist.service.ts:54-61 | one entry per hit, the i-th opening with "[#i+1] source=" and that hit's label |
| TicketAssist.ContextBlock | apps/api/src/tickets/ticket-assist.service.ts:54-62 | the context block is empty exactly when there are no hits, and otherwise opens with the first hit's entry |
| TicketAssist.NoHitsPrompt | apps/api/src/tickets/ticket-assist.service.ts:77-86 | with no hits the user prompt says "(no KB matches)" in place of the context |
| TicketAssist.StringifiedItems | apps/api/src/tickets/ticket-assist.service.ts:105 | the kept questions are non-empty and no more than the items |
| TicketAssist.StringifiedItemsMembers | apps/api/src/tickets/ticket-assist.service.ts:105 | a text is kept exactly when it is non-empty and is the rendering of some item |
| TicketAssist.ParseDraft | apps/api/src/tickets/ticket-assist.service.ts:93-112 | parsing fails exactly when the reply is not JSON or is null, and then the raw reply is the draft; otherwise a string replyDraft (else ""), the kept nextQuestions of an array (else none) and the usedCitations array (else none) |
| TicketAssist.DraftRoundTrip | apps/api/src/tickets/ticket-assist.service.ts:71-74 | a reply in the shape the system prompt asks for reads back as exactly that draft |
| TicketAssist.DraftEvent | apps/api/src/tickets/ticket-assist.service.ts:116-130 | the usage event is one AI_ASSIST_CALL for the tenant at that instant |
| TicketAssist.DraftOf | apps/api/src/tickets/ticket-assist.service.ts:135-140 | the draft carries the parsed fields and the suggestions, and a warning exactly when parsing failed |
| TicketAssist.DraftReply | apps/api/src/tickets/ticket-assist.service.ts:39-141 | an exhausted AI quota is Forbidden before anything else; a missing ticket or a failed query is returned with no usage; a chat failure is passed on with no usage; otherwise the draft is returned and one AI call metered unless that write fails; topK defaults to 5 |
| TicketAssist.DraftAfterQuota | apps/api/src/tickets/ticket-assist.service.ts:52-141 | past the quota check: a missing ticket, a failed query or a chat failure is returned with no usage; otherwise the draft of the reply is returned and one AI call metered unless that write fails |
| AssistText.Truncate | apps/api/src/tickets/tickets.controller.ts:39-42 | a text of at most max characters is kept; a longer one keeps its first max characters followed by the truncation marker |
| AssistText.SliceTo | apps/api/src/tickets/tickets.controller.ts:53 | slicing to a negative end counts from the end of the text |
| AssistText.Clamp | apps/api/src/tickets/tickets.controller.ts:51-54 | a text of at most max characters is kept; a longer one keeps its first max - 20 characters and the marker, so with max of at least 20 the result never exceeds max |
| AssistText.PhraseEnd | apps/api/src/tickets/tickets.controller.ts:64-65 | a match of the phrase starts at a word boundary with the word, then white space, then "in" followed by a word boundary |
| AssistText.ReplacePhrase | apps/api/src/tickets/tickets.controller.ts:64-65 | replacing "log in" and "sign in" introduces no upper-case letter into a lower-cased text |
| AssistText.ReplaceWithoutWord | apps/api/src/tickets/tickets.controller.ts:64-65 | a text in which the phrase's first letter does not occur is left unchanged |
| AssistText.StripEndPunctuation | apps/api/src/tickets/tickets.controller.ts:67 | the key loses exactly its run of closing ".", "?" and "!" characters |
| AssistText.NormalizedShape | apps/api/src/tickets/tickets.controller.ts:60-68 | a key has no upper-case letter, only single plain spaces, and no closing ".", "?" or "!" |
| AssistText.LogInKey | apps/api/src/tickets/tickets.controller.ts:60-68 | "Log  in?" and "login" have the same key |
| AssistText.BlankQuestionEmptyKey | apps/api/src/tickets/tickets.controller.ts:60-68 | a blank question has the empty key |
| AssistText.KeyOfTrimmed | apps/api/src/tickets/tickets.controller.ts:61-62 | the key ignores white space at either end of the question |
| AssistText.MergeOne | apps/api/src/tickets/tickets.controller.ts:78-82 | adding a question keeps the entries keyed: no empty key, no key twice, every question trimmed and non-empty |
| AssistText.MergeAllExtends | apps/api/src/tickets/tickets.controller.ts:70-87 | merging only appends entries |
| AssistText.MergeAllKeys | apps/api/src/tickets/tickets.controller.ts:70-87 | a key is present after merging exactly when it was before or it is the non-empty key of one of the questions |
| AssistText.MergeAllFirstWins | apps/api/src/tickets/tickets.controller.ts:75 | the first question seen with a key is the one kept for it, trimmed |
| AssistText.QMerge.constructor | apps/api/src/tickets/tickets.controller.ts:70-76 | the initial questions, none when absent, merged in order |
| AssistText.QMerge.Add | apps/api/src/tickets/tickets.controller.ts:78-82 | add keeps the entries keyed and merges one question |
| AssistText.QMerge.Questions | apps/api/src/tickets/tickets.controller.ts:83-85 | values() are the kept questions in insertion order |
| AssistText.NormalizeQuestionsArray | apps/api/src/tickets/tickets.controller.ts:213-227 | a non-array gives []; otherwise the items rendered and trimmed, blank ones and those with an empty key dropped, keeping the first question per key, in order |
| AssistText.MergedQuestionsDistinct | apps/api/src/tickets/tickets.controller.ts:213-227 | the kept questions are trimmed, non-empty, and no two share a key |
| AssistText.MergeOfMerged | apps/api/src/tickets/tickets.controller.ts:213-227 | normalizing a list that was already normalized gives it back unchanged |
| AiComment.OrNone | apps/api/src/tickets/tickets.controller.ts:128-131 | an empty text is shown as "(none)", any other as itself |
| AiComment.Bullets | apps/api/src/tickets/tickets.controller.ts:134-136 | one "- " line per item, or the single line "- (none)" for no items |
| AiComment.CommentLines | apps/api/src/tickets/tickets.controller.ts:116-163 | the comment fails exactly when a citation is null, as the template does; otherwise its last three lines are the start marker, the JSON of the response and the end marker |
| AiComment.PushBullets | apps/api/src/tickets/tickets.controller.ts:134-136 | the push loop appends exactly the bullet lines |
| AiComment.CitationLines | apps/api/src/tickets/tickets.controller.ts:147-154 | the citation loop fails on a null citation and otherwise renders every citation as "source filename (chunkId: id)" |
| AiComment.PushSection | apps/api/src/tickets/tickets.controller.ts:134-155 | a section is its title, its bullets and an empty line |
| AiComment.PushSummary | apps/api/src/tickets/tickets.controller.ts:124-155 | the summary is the heading lines and the three sections, or the null-citation failure |
| AiComment.BuildAiCommentBody | apps/api/src/tickets/tickets.controller.ts:116-163 | the body is the comment lines joined by line breaks, or the null-citation failure |
| AiComment.ExtractCachedJson | apps/api/src/tickets/tickets.controller.ts:165-177 | nothing is read when either marker is missing or the end marker does not come after the start marker |
| AiComment.ExtractFromLayout | apps/api/src/tickets/tickets.controller.ts:165-177 | with no marker before the JSON and no end marker inside it, exactly the JSON between the markers is parsed |
| AiComment.SummaryPlain | apps/api/src/tickets/tickets.controller.ts:124-155 | texts without markers give summary lines without markers |
| AiComment.ExtractAfterBuild | apps/api/src/tickets/tickets.controller.ts:116-177 | a comment written by buildAiCommentBody gives back the JSON it was written with, as long as the texts carry no marker and the JSON contains no end marker |
| DryRunCache.Lookup | apps/api/src/tickets/tickets.controller.ts:498 | get finds an entry exactly when its key is present, and the entry is stored under that key |
| DryRunCache.LookupFinds | apps/api/src/tickets/tickets.controller.ts:498 | with distinct keys, get returns the entry stored under the key |
| DryRunCache.Stored | apps/api/src/tickets/tickets.controller.ts:776-779 | set on a present key keeps the map's size and order; on a new key it appends the entry |
| DryRunCache.StoredLookup | apps/api/src/tickets/tickets.controller.ts:776-779 | after set, the key finds the new entry and every other key finds what it found before |
| DryRunCache.StoredDistinct | apps/api/src/tickets/tickets.controller.ts:776-779 | set keeps the keys distinct, and the keys become the old ones plus the new key |
| DryRunCache.LiveMembers | apps/api/src/tickets/tickets.controller.ts:191-193 | after the first pass exactly the entries whose expiry is after now remain |
| DryRunCache.RemoveKeyCount | apps/api/src/tickets/tickets.controller.ts:192 | deleting a present key removes exactly one entry and keeps the keys distinct |
| DryRunCache.RemoveKeysCount | apps/api/src/tickets/tickets.controller.ts:199 | deleting distinct present keys removes one entry each |
| DryRunCache.EvictedKeys | apps/api/src/tickets/tickets.controller.ts:194-199 | the keys evicted from an over-full map are distinct keys of live entries |
| DryRunCache.CleanedMembers | apps/api/src/tickets/tickets.controller.ts:189-201 | every entry left after a cleanup was there unchanged and is unexpired; a map with at most 500 live entries only loses its expired ones |
| DryRunCache.CleanedBound | apps/api/src/tickets/tickets.controller.ts:189-201 | at most 500 entries remain, exactly 500 when more were live, and the keys stay distinct |
| DryRunCache.CleanedEvictsOldest | apps/api/src/tickets/tickets.controller.ts:194-199 | an evicted live entry expires no later than any entry kept |
| DryRunCache.CleanedLookupLive | apps/api/src/tickets/tickets.controller.ts:189-201 | after a cleanup at now, every key found is unexpired at now |
| DryRunCache.CleanedIdempotent | apps/api/src/tickets/tickets.controller.ts:189-201 | a second cleanup at the same instant changes nothing |
| DryRunCache.Cache.constructor | apps/api/src/tickets/tickets.controller.ts:48 | the cache starts empty |
| DryRunCache.Cache.Hit | apps/api/src/tickets/tickets.controller.ts:498-499 | a hit is the entry stored under the key when it has not expired at now |
| DryRunCache.Cache.Set | apps/api/src/tickets/tickets.controller.ts:776-779 | the map becomes Stored's, the key finds the new entry and other keys are unaffected |
| DryRunCache.Cache.DropExpired | apps/api/src/tickets/tickets.controller.ts:191-193 | the first pass leaves exactly the live entries, in order |
| DryRunCache.Cache.DeleteAll | apps/api/src/tickets/tickets.controller.ts:199 | the keys are deleted one after the other |
| DryRunCache.Cache.Cleanup | apps/api/src/tickets/tickets.controller.ts:189-201 | cleanup leaves at most 500 entries, each one that was there and has not expired |
| DryRunCache.NewestCommentMsIsMax | apps/api/src/tickets/tickets.controller.ts:203-211 | the newest comment time is the largest of 0 and the comments' creation times |
| DryRunCache.StateSignature | apps/api/src/tickets/tickets.controller.ts:203-211 | the signature is the number of comments and the newest comment time |
| DryRunCache.KeyOfInjective | apps/api/src/tickets/tickets.controller.ts:490-497 | two dry-run requests share a key exactly when they agree on tenant, ticket, topK, tone, comment count, newest comment time and query ("" when absent) |
| DryRunCache.CacheKey | apps/api/src/tickets/tickets.controller.ts:490-497 | the key computed is KeyOf's |
| TicketsController.UpdateDenial | apps/api/src/tickets/tickets.controller.ts:350-363 | an update is refused exactly when a role other than owner or admin touches the priority or the assignee; the refusal is Forbidden, in the agent's own words for an agent and the general message for any other role |
| TicketsController.Update | apps/api/src/tickets/tickets.controller.ts:341-373 | a refused update changes no ticket and no audit entry; otherwise a ticket that is not the tenant's is NotFound with tickets and audit unchanged, and the tenant's ticket becomes the updated ticket, nothing else in the ticket table changes and exactly one TICKET_UPDATED audit entry is appended |
| TicketsController.NewestFirst | apps/api/src/tickets/tickets.controller.ts:440-442 | the sorted comments are a permutation of the ticket's comments, in non-increasing order of creation time |
| TicketsController.NewestComesFirst | apps/api/src/tickets/tickets.controller.ts:440-442 | a comment strictly newer than every other comes first in the sorted comments |
| TicketsController.CachedBlock | apps/api/src/tickets/tickets.controller.ts:452-453 | what a comment answers with is the marked JSON block of its body, and only when it is an object or an array |
| TicketsController.ScanAt | apps/api/src/tickets/tickets.controller.ts:444-483 | a recent system comment with a cached answer, preceded only by comments the scan passes over, gives the scan's answer |
| TicketsController.ScanFound | apps/api/src/tickets/tickets.controller.ts:444-483 | every answer of the scan comes from a recent system comment with a cached answer |
| TicketsController.ScanAnswers | apps/api/src/tickets/tickets.controller.ts:444-483 | the scan answers a value exactly when some recent system comment carries it as its cached answer; both directions |
| TicketsController.StaleCommentStops | apps/api/src/tickets/tickets.controller.ts:450 | a dated system comment older than 60 seconds ends the scan with no answer, whatever comes after it |
| TicketsController.ScanComments | apps/api/src/tickets/tickets.controller.ts:440-483 | the loop with continue and break finds exactly what the scan specification answers on the comments sorted newest first |
| TicketsController.CommentTier | apps/api/src/tickets/tickets.controller.ts:437-484 | the comment tier answers only with a system author set and comments present, and then with the scan's answer, which is always an object or an array |
| TicketsController.FocusOf | apps/api/src/tickets/tickets.controller.ts:599-606 | the login filter applies exactly when the query is a login ticket and not a billing one, and the billing filter exactly in the opposite case |
| TicketsController.Filtered | apps/api/src/tickets/tickets.controller.ts:597-606 | the filtered hits are never more than the hits |
| TicketsController.FilteredMembers | apps/api/src/tickets/tickets.controller.ts:600-605 | a hit is kept by the filter exactly when it is one of the hits and relevant to the focus |
| TicketsController.UnfocusedKeepsAll | apps/api/src/tickets/tickets.controller.ts:597 | without a focus every hit is kept, in order |
| TicketsController.Strong | apps/api/src/tickets/tickets.controller.ts:608 | the strong hits are never more than the hits |
| TicketsController.StrongMembers | apps/api/src/tickets/tickets.controller.ts:608 | a hit is strong exactly when it is one of the hits and its similarity is at least the 0.6 threshold |
| TicketsController.ChosenCascade | apps/api/src/tickets/tickets.controller.ts:608-610 | when some filtered hit is strong the chosen hits are exactly the strong filtered ones; else the filtered hits when there are any; else all hits |
| TicketsController.FirstPerChunk | apps/api/src/tickets/tickets.controller.ts:612-619 | every kept hit has a non-empty chunk id and is one of the hits, and no two kept hits share a chunk id |
| TicketsController.FirstPerChunkIds | apps/api/src/tickets/tickets.controller.ts:614-619 | a chunk id occurs among the kept hits exactly when it is non-empty and occurs among the hits |
| TicketsController.FirstPerChunkFirstWins | apps/api/src/tickets/tickets.controller.ts:614-619 | the first hit with a given non-empty chunk id is the one kept |
| TicketsController.FinalHits | apps/api/src/tickets/tickets.controller.ts:612-620 | the final hits are the first topK of the first-per-chunk hits: at most topK, as many as there are when fewer, each with a distinct non-empty chunk id and each one of the chosen hits |
| TicketsController.Select | apps/api/src/tickets/tickets.controller.ts:556-620 | the selection gives at most topK final hits, each one of the retrieved hits, with distinct non-empty chunk ids |
| TicketsController.RecentComments | apps/api/src/tickets/tickets.controller.ts:533-535 | the comments shown are the last three, or all when there are fewer |
| TicketsController.CommentLines | apps/api/src/tickets/tickets.controller.ts:536-540 | one line per comment, in order, each with the comment's time and its truncated body |
| TicketsController.CommentsBlockNonEmpty | apps/api/src/tickets/tickets.controller.ts:549 | a ticket with comments always has a non-empty comments paragraph, so the filter never drops it |
| TicketsController.AssistQuery | apps/api/src/tickets/tickets.controller.ts:544-552 | a given query is used as is; otherwise the text begins with the title and the description paragraphs, and is exactly those when the ticket has no comments |
| TicketsController.SourcesBlock | apps/api/src/tickets/tickets.controller.ts:622-631 | no final hits give an empty sources block, which the prompt shows as none |
| TicketsController.DraftOf | apps/api/src/tickets/tickets.controller.ts:705-713 | the answer's reply and notes are the string fields or empty, its steps and questions the non-empty strings of those arrays, its citations the citations array or empty |
| TicketsController.Hints | apps/api/src/tickets/tickets.controller.ts:715-724 | the device-time question is suggested exactly when the sources mention device time, and the browser question exactly when they mention both browser and timestamp |
| TicketsController.FinalQuestionsShape | apps/api/src/tickets/tickets.controller.ts:715-725 | the model's questions, merged, come first in the final questions, and no two final questions have the same normalized key |
| TicketsController.FinalQuestionsSteps | apps/api/src/tickets/tickets.controller.ts:716-725 | the final questions are the model's questions merged, with each hint then added one at a time |
| TicketsController.MergeQuestions | apps/api/src/tickets/tickets.controller.ts:715-725 | the questions built through the merge object and its add calls are the final questions |
| TicketsController.FinalDraft | apps/api/src/tickets/tickets.controller.ts:705-725 | the final answer is the reply's fields with only its questions replaced by the final questions |
| TicketsController.CachedAnswer | apps/api/src/tickets/tickets.controller.ts:467-481 | an answer from a cached value reports no comment saved, the call skipped and no comment error |
| TicketsController.DraftJsonFields | apps/api/src/tickets/tickets.controller.ts:735-739 | the cached value carries topK, the hit count and the five answer fields, each read back as stored |
| TicketsController.CachedQuestionsOfDraft | apps/api/src/tickets/tickets.controller.ts:479 | the questions read back from a cached value are the stored questions normalized once more |
| TicketsController.CachedDraftReplays | apps/api/src/tickets/tickets.controller.ts:474-480 | the answer read back from the value it was cached as is the answer that was stored, when its steps are non-empty and its questions already merged |
| TicketsController.CachedAnswerReplays | apps/api/src/tickets/tickets.controller.ts:467-481 | an answer replayed from its cached value has the same reply, notes, steps, questions, citations, topK and hit count, marked as skipped |
| TicketsController.ParseAssistBody | apps/api/src/tickets/tickets.controller.ts:109-114 | a body that is not an object, or has a property that is present but invalid, is a BadRequest; an accepted body's properties are absent exactly when absent in the body, and otherwise a topK from 1 to 20, a query of 1 to 10000 characters, one of the three tones and a boolean; an empty object is accepted with everything absent |
| TicketsController.AssistEvent | apps/api/src/tickets/tickets.controller.ts:241-275 | each usage event of an assist call is one AI assist call of the tenant and user, at the call's time |
| TicketsController.MeteredCall | apps/api/src/tickets/tickets.controller.ts:253-274 | writing the event adds exactly one to the tenant's AI calls in any window holding its time, and nothing when the write fails |
| TicketsController.LogAssistUsage | apps/api/src/tickets/tickets.controller.ts:253-274 | the usage table gains the event, or stays as it was when the write fails, which is ignored |
| TicketsController.DryRunTier | apps/api/src/tickets/tickets.controller.ts:487-499 | the cache is cleaned, its validity kept, and the hit is the cleaned cache's entry under the call's key, which has not expired |
| TicketsController.AnswerFromCache | apps/api/src/tickets/tickets.controller.ts:454-481 | a cached answer is given as the cached-answer function says, and exactly one cached-call event is metered unless the write fails |
| TicketsController.Generation | apps/api/src/tickets/tickets.controller.ts:531-663 | a successful generation used the assist query and at most topK retrieved hits, and its selection is the one the selection cascade makes from them |
| TicketsController.Retrieve | apps/api/src/tickets/tickets.controller.ts:554 | the hits are the knowledge-base query for the embedded query text, and retrieval meters nothing |
| TicketsController.Ask | apps/api/src/tickets/tickets.controller.ts:660-663 | the chat call's failure becomes the request's with the same kind and message, and its text is returned otherwise |
| TicketsController.Generate | apps/api/src/tickets/tickets.controller.ts:544-663 | the method computes the generation specification and meters nothing |
| TicketsController.CommentBody | apps/api/src/tickets/tickets.controller.ts:741-750 | the comment body fails exactly when a citation is null, with an internal error, and otherwise never exceeds 4800 characters |
| TicketsController.SaveOutcome | apps/api/src/tickets/tickets.controller.ts:731-763 | without a system author nothing is saved and the error says so; a null citation fails the call; a comment is added exactly when the author is set, no citation is null, the write succeeds and the ticket is the tenant's, and then it is the generated body by the system author at the call's time; a failed write is reported by its message |
| TicketsController.SaveComment | apps/api/src/tickets/tickets.controller.ts:731-763 | saving changes the comment and audit tables by the saving outcome and reports what it reports |
| TicketsController.StoreDryRun | apps/api/src/tickets/tickets.controller.ts:765-783 | the cache becomes the cleaned cache with the answer stored under the call's key, expiring 60 seconds later, and stays valid |
| TicketsController.Respond | apps/api/src/tickets/tickets.controller.ts:665-794 | the reply is read as the reply predicate says: one metered call in every case, non-JSON returned with the debug counts, null an internal error, and otherwise the answer saved as a comment or, for a dry run, cached; the cache stays valid |
| TicketsController.Deliver | apps/api/src/tickets/tickets.controller.ts:731-794 | without a dry run the answer is saved as the saving outcome says and the cache is left as it was; a dry run's answer is stored in the cleaned cache under the call's key, expiring 60 seconds later, with comments and audit unchanged; the cache stays valid |
| TicketsController.Produce | apps/api/src/tickets/tickets.controller.ts:531-794 | a failed retrieval or chat call fails the request and changes nothing; otherwise the reply is read as the reply predicate says |
| TicketsController.Serve | apps/api/src/tickets/tickets.controller.ts:436-794 | from the state the call starts in: a recent AI comment answers first; then, for a dry run, an unexpired cached answer once the cache is cleaned, each metered as a cached call and changing nothing else; otherwise the model answers |
| TicketsController.Assist | apps/api/src/tickets/tickets.controller.ts:416-795 | an invalid body and a ticket that is not the tenant's fail with their errors and change nothing; otherwise the entitlements are upserted, an exhausted AI quota is Forbidden and changes nothing more, and a call within quota is served as the serving predicate says |
| TicketsController.ServeWithinQuota | apps/api/src/tickets/tickets.controller.ts:431-795 | the entitlements are upserted; an exhausted AI quota is Forbidden and changes no usage, comment, audit entry or cache entry; a call within quota is served as the serving predicate says |
| TicketsController.ServedMetersOneCall | apps/api/src/tickets/tickets.controller.ts:454-465 | each answered call, whether from a comment, from the cache or from the model (even with a reply that is not JSON), adds exactly one AI call to its window unless metering fails; a call that is not answered fails and adds nothing |
| TicketsController.ByModelMetersOneCall | apps/api/src/tickets/tickets.controller.ts:554-680 | the model tier adds exactly one AI call to its window when retrieval and chat succeed and metering does not fail, and none otherwise; a failed retrieval or chat call fails the request |
| TicketsController.SavedBodyHoldsJson | apps/api/src/tickets/tickets.controller.ts:735-758 | a saved comment's marked block parses back to the JSON it was built with, when no text carries a marker and the body fits unclamped |
| TicketsController.SavedCommentReplays | apps/api/src/tickets/tickets.controller.ts:444-481 | a generated answer saved as the ticket's newest comment is what the comment tier answers from within 60 seconds, and it replays the saved answer marked as skipped |
| TicketsController.DryRunReplays | apps/api/src/tickets/tickets.controller.ts:486-528 | a stored dry-run answer is found by the next dry run of the same call before it expires, and replays the stored answer marked as skipped |
| Json.TextItems | apps/api/src/tickets/tickets.controller.ts:708 | the items read from a list field are never empty strings, and a field that is not an array gives none |
| Json.NonEmptyTextsMembers | apps/api/src/tickets/tickets.controller.ts:708 | a text is among the items exactly when it is non-empty and occurs as a string item of the array |
| Text.ReplaceCrlf | apps/api/src/kb/kb.service.ts:16 | replacing CR LF by LF never lengthens the text and leaves a text without carriage returns unchanged |

## Left out

- The HTTP, Nest, Bull queue and Prisma wiring: decorators, dependency injection, module setup and request routing. Only the rules the handlers apply are modelled.
- Concurrency: requests, workers and the in-process cache are modelled one operation at a time, and transactions as all-or-nothing updates.
- Network calls, abort controllers and timers. Each embedding and chat call's outcome is an input, and the timeout of `EmbeddingService` and `LlmService` only enters as the outcome it produces.
- Floating point:
  - similarities and distances are integers in thousandths, and vectors are not computed, since the distance is an oracle;
  - `toFixed(3)` is rendered from thousandths;
  - a progress report is `25 + (70 * num) / den` in exact integer arithmetic, where the source floors a floating-point product that can round differently.
- Cryptographic and encoding primitives are parameters: SHA-256, random token bytes, bcrypt, JWT signing and verification, `JSON.parse`/`JSON.stringify`, base64, UTF-8 decoding, ISO date rendering and parsing, and `Number()` on strings.
- zod schema details beyond the accepted and rejected inputs. Each `BadRequest` carries one fixed message instead of the flattened validation issues.
- Lower-casing and `\w`/`\s` classes are modelled for ASCII letters and the JavaScript white-space set; there is no Unicode case folding.
- Database writes do not fail, except where the source catches a failure:
  - the comment save in `assist`;
  - metering writes, whose failure is ignored;
  - queue submission;
  - an indexing run's update of a job row that does not exist;
  - file-store writes.
- The dry-run cache key is a structured value instead of the SHA-256 of a `|`-joined string. Two calls share an entry exactly when all seven parts agree, which the hashed text only approximates when a query contains `|`.
- One `nowMs` stands for the clock readings inside one request. The source reads `Date.now()` separately for the cache cleanup, the hit check and the expiry, which differ only by the time the request takes.
- Comments and sources with equal `createdAt` times are ordered by the stable sort of the order given. The database's order among ties is unspecified.
- An invite's expiry is an integer of milliseconds, also in the meta of its audit entry, where the source stores a serialised `Date`.
- The feedback a repeated rating updates is the newest by `createdAt`. It is modelled as the last matching row stored, since rows are stored in creation order.
- The listing operations with no rule of their own are not modelled: `listMyTenants`, `listMembers`, `getSourcesSummary`, `getSourceById`, `toSqlVector` and the other ticket handlers (`create`, `list`, `myQueue`, `get`, `comment`, `suggest`) beyond what their services do.
- KbService.ListSources: the offset-pagination mode (page and pageSize, with `skip` clamped to 0 for a page below 1) is defined but has no proved property. Only the cursor mode's contents, order and next cursor are proved.
- KbService.ChunkText: requires overlap < chunkSize. With a larger overlap the window start no longer advances and the source loops forever. Its only caller passes 1200 and 150.
- AssistText.Clamp: with max of at least 20 the result never exceeds max, and a long text keeps its first max - 20 characters. Nothing is proved about what the cut does to the comment's JSON block: a long comment loses its end marker, so its answer is not read back.
- AssistText.NormalizeQuestion: the key is not proved idempotent, and is not idempotent. Stripping trailing punctuation can leave a trailing space, so keying a key again can give a different key; the merge never keys a key twice.
- IndexProcessor.ChunkParagraphs: no chunk is proved to be at most maxChars long. An oversized paragraph that follows a non-empty buffer is emitted whole, so there is no such bound.
- TicketsController.DryRunReplays: holds only while the cache has at most 500 unexpired entries at the later call. Past that bound the cleanup may evict the stored entry, oldest expiry first.
- TicketsController.SavedCommentReplays and TicketsController.SavedBodyHoldsJson: hold only when the unclamped comment fits in 4800 characters and no text of the answer carries a marker.
- KbStorage.StoragePath: the path is the parts joined with "/" as they are. Node's `path.join` also normalises the result: it collapses doubled slashes, drops a trailing slash of the base and "." segments, resolves ".." against the segment before it, and turns an empty base into a relative path. A base without such segments and a stored name other than "." or ".." give the same string either way.
- KbStorage.FileStore.SaveUpload: returns and writes the unnormalised `base/tenant/source/safeName`, where the source returns `path.join`'s normalised path. For a stored name ".." this is the tenant's directory, where the write fails because it is a directory; the model stores a file there instead.
- KbStorage.FileStore.SaveText: inherits SaveUpload's unnormalised path.
- KbStorage.StoragePathInSourceDir: requires a stored name other than "." and "..". Under `path.join` those two names give the source's directory itself and the tenant's directory, which do not lie inside the source's directory.
- KbStorage.StoragePathsSeparateSources: requires stored names other than "." and "..". Under `path.join` the name ".." gives the same tenant directory for every source of a tenant.
- String lengths count code points, while JavaScript's `length` and `slice` count UTF-16 code units. A character outside the Basic Multilingual Plane counts 1 here and 2 in the source, and no slice here can split a surrogate pair. This shifts every length bound for texts holding such characters:
  - AssistText.Truncate and AssistText.Clamp at 800, 1200 and 4800;
  - the 1 to 10000 characters zod accepts for a query;
  - KbService.ChunkText's 1200-character windows and 150-character overlap, and the 240-character snippet;
  - IndexProcessor's maxChars, its `slice(-overlap)` and its test that a chunk has at least 5 characters.
- Calendar.FourDigitYear: the month text is modelled for years 1000 to 9999 only, where `getUTCFullYear` and the `YYYY-MM` parse agree on four digits. Usage.CurrentMonthValid, Usage.SafeMonth, Usage.MonthBounds, Usage.DefaultMonthIsQuotaMonth, Usage.ConsecutiveMonths, Usage.TwoDigitYears and Usage.GetSummary require such a clock.
- WebStorage.SessionStore: the six setters and clearers require a window. The source calls `localStorage` without checking for one, so on the server they throw a reference error, which is not modelled. The three readers do model the missing window, as null.
- TicketsController.Assist and TicketAssist.DraftReply take the clock twice: `now` is the UTC year and month the quota check reads, and `nowMs` the milliseconds for the rest of the request. The model does not tie the two to the same instant.
- TicketsController.SourceEntry: renders the similarity with three decimals from its thousandths, where the source interpolates the floating-point value with all its digits. It also has no `filename ?? "unknown"` fallback, because a hit's file name is always a string in the model.

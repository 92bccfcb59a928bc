/** The knowledge-base HTTP handlers: the upload acceptance rule, cursor decoding, and
    the role rules for reading and deleting a source. The handlers only check and
    delegate, so they are modelled as decisions over what they check. */
module KbController {
  import opened Wrappers
  import opened Records
  import Text
  import Paths
  import KbService
  import KbStorage

  /** The multipart upload as the handler sees it; an absent `originalname` is "". */
  datatype UploadedFile = UploadedFile(originalName: string, mimeType: string, size: int,
                                       buffer: seq<Text.Byte>)

  const AllowedMime: set<string> := {"text/plain", "text/markdown", "application/pdf"}
  const AllowedExt: set<string> := {".txt", ".md", ".markdown", ".pdf"}

  /** The lower-cased extension of the original name. */
  function Extension(f: UploadedFile): string {
    Text.ToLower(Paths.ExtName(f.originalName))
  }

  /** The checks shared by upload and repair, in their order. */
  function CheckFile(file: Option<UploadedFile>): (r: Result<UploadedFile, Exception>)
    ensures file.None? ==> r == Err(Exception(BadRequest, "Missing file"))
    ensures r.Ok? <==> file.Some? && (file.value.mimeType in AllowedMime || Extension(file.value) in AllowedExt)
                       && file.value.size > 0
    ensures r.Ok? ==> r.value == file.value
    ensures file.Some? && file.value.mimeType !in AllowedMime && Extension(file.value) !in AllowedExt ==>
              r == Err(Exception(BadRequest, "Unsupported file type"))
    ensures (&& file.Some? && (file.value.mimeType in AllowedMime || Extension(file.value) in AllowedExt)
             && file.value.size <= 0) ==> r == Err(Exception(BadRequest, "Empty file"))
  {
    match file
    case None => Err(Exception(BadRequest, "Missing file"))
    case Some(f) =>
      if f.mimeType !in AllowedMime && Extension(f) !in AllowedExt then
        Err(Exception(BadRequest, "Unsupported file type"))
      else if f.size <= 0 then Err(Exception(BadRequest, "Empty file"))
      else Ok(f)
  }

  /** `uploadSource` up to the hand-off to the indexing service: `quota` is the outcome
      of the knowledge-source quota assertion, which comes first. */
  function UploadGate(quota: Result<(), Exception>, file: Option<UploadedFile>): (r: Result<UploadedFile, Exception>)
    ensures quota.Ok? ==> r == CheckFile(file)
  {
    if quota.Err? then Err(quota.error) else CheckFile(file)
  }

  /** Whatever the file, a failed quota check is the answer: no file check runs first. */
  lemma QuotaBeforeFileChecks(quota: Result<(), Exception>, file: Option<UploadedFile>)
    requires quota.Err?
    ensures UploadGate(quota, file) == Err(quota.error)
  {
  }

  /** A markdown file is accepted by its extension whatever MIME type the browser sent. */
  lemma MarkdownByExtension(stem: string, mimeType: string, size: int, buffer: seq<Text.Byte>)
    requires stem != [] && stem != "." && '/' !in stem && size > 0
    ensures CheckFile(Some(UploadedFile(stem + ".md", mimeType, size, buffer))).Ok?
  {
    var f := UploadedFile(stem + ".md", mimeType, size, buffer);
    MdLiterals();
    Paths.ExtNameOf(stem, "md");
    assert stem + "." + "md" == f.originalName;
  }

  lemma MdLiterals()
    ensures '/' !in "md" && '.' !in "md" && "." + "md" == ".md"
    ensures Text.ToLower(".md") == ".md" && ".md" in AllowedExt
  {
    var e := Text.ToLower(".md");
    assert e[0] == '.' && e[1] == 'm' && e[2] == 'd';
  }

  /** A file without a dot in its name is accepted only for an allowed MIME type. */
  lemma NoExtensionNeedsMime(f: UploadedFile)
    requires '.' !in f.originalName
    ensures CheckFile(Some(f)).Ok? <==> f.mimeType in AllowedMime && f.size > 0
  {
    Paths.ExtNameNoDot(f.originalName);
    assert Text.ToLower("") == "";
  }

  /** `repairSource`: the file checks, then the indexing service's repair, whose `None`
      (no such source) becomes a `BadRequest`. */
  function RepairAnswer<T>(repaired: Option<T>): (r: Result<T, Exception>)
    ensures repaired.None? <==> r == Err(Exception(BadRequest, "KnowledgeSource not found"))
    ensures repaired.Some? ==> r == Ok(repaired.value)
  {
    match repaired
    case None => Err(Exception(BadRequest, "KnowledgeSource not found"))
    case Some(v) => Ok(v)
  }

  // ---------------------------------------------------------------------------------
  // Cursors

  /** `decodeCursor`: base64, then UTF-8, then the first two `|`-separated fields; `None`
      when decoding fails, a field is empty or the date does not parse. */
  function DecodeCursor(codec: KbService.CursorCodec, cursor: string): (r: Option<KbService.Cursor>)
    ensures codec.fromBase64(cursor).Err? ==> r.None?
    ensures r.Some? ==> r.value.id != "" && '|' !in r.value.id
  {
    match codec.fromBase64(cursor)
    case Err(_) => None
    case Ok(bytes) => DecodeFields(codec, codec.decodeUtf8(bytes))
  }

  /** The decoded text's first two `|`-separated fields as date and id. */
  function DecodeFields(codec: KbService.CursorCodec, raw: string): (r: Option<KbService.Cursor>)
    ensures r.Some? ==> r.value.id != "" && '|' !in r.value.id
  {
    var parts := Text.Split(raw, '|');
    var iso := parts[0];
    var id := if |parts| > 1 then parts[1] else "";
    if iso == "" || id == "" then None
    else
      match codec.parseIso(iso)
      case None => None
      case Some(t) =>
        SplitFieldsHaveNoSeparator(raw);
        Some(KbService.Cursor(t, id))
  }

  lemma {:induction false} SplitFieldsHaveNoSeparator(s: string)
    decreases |s|
    ensures forall k :: 0 <= k < |Text.Split(s, '|')| ==> '|' !in Text.Split(s, '|')[k]
  {
    var i := Text.FieldEnd(s, '|');
    if i < |s| {
      SplitFieldsHaveNoSeparator(s[i + 1..]);
      var r := Text.Split(s, '|');
      assert r == [s[..i]] + Text.Split(s[i + 1..], '|');
      assert forall k :: 1 <= k < |r| ==> r[k] == Text.Split(s[i + 1..], '|')[k - 1];
    } else {
      assert s[..i] == s;
    }
  }

  /** What the cursor round trip relies on from base64, UTF-8 and ISO dates. */
  ghost predicate LawfulCodec(codec: KbService.CursorCodec) {
    && (forall b :: codec.fromBase64(codec.toBase64(b)) == Ok(b))
    && (forall s :: codec.decodeUtf8(Text.Utf8(s)) == s)
    && (forall t :: codec.parseIso(codec.toIso(t)) == Some(t))
    && (forall t :: codec.toIso(t) != "" && '|' !in codec.toIso(t))
  }

  /** A cursor the service hands out decodes back to the row it was made from, for any
      non-empty id without a `|`. */
  lemma CursorRoundTrip(codec: KbService.CursorCodec, createdAt: int, id: Id)
    requires LawfulCodec(codec)
    requires id != [] && '|' !in id
    ensures DecodeCursor(codec, KbService.EncodeCursor(codec, createdAt, id))
         == Some(KbService.Cursor(createdAt, id))
  {
    var iso := codec.toIso(createdAt);
    EncodedFields(codec, createdAt, id);
    assert iso + "|" + id == iso + ['|'] + id;
    Text.SplitFirstField(iso, '|', id);
    Text.SplitNoSeparator(id, '|');
  }

  /** An id that itself holds a `|` comes back cut at it. */
  lemma CursorIdCut(codec: KbService.CursorCodec, createdAt: int, head: Id, tail: Id)
    requires LawfulCodec(codec)
    requires head != [] && '|' !in head
    ensures DecodeCursor(codec, KbService.EncodeCursor(codec, createdAt, head + "|" + tail))
         == Some(KbService.Cursor(createdAt, head))
  {
    var iso := codec.toIso(createdAt);
    EncodedFields(codec, createdAt, head + "|" + tail);
    assert iso + "|" + (head + "|" + tail) == iso + ['|'] + (head + ['|'] + tail);
    Text.SplitFirstField(iso, '|', head + ['|'] + tail);
    Text.SplitFirstField(head, '|', tail);
  }

  /** Under a lawful codec a cursor made from a row decodes as the text it encoded. */
  lemma EncodedFields(codec: KbService.CursorCodec, createdAt: int, id: Id)
    requires LawfulCodec(codec)
    ensures DecodeCursor(codec, KbService.EncodeCursor(codec, createdAt, id))
         == DecodeFields(codec, codec.toIso(createdAt) + "|" + id)
  {
    var raw := codec.toIso(createdAt) + "|" + id;
    assert codec.fromBase64(codec.toBase64(Text.Utf8(raw))) == Ok(Text.Utf8(raw));
    assert codec.decodeUtf8(Text.Utf8(raw)) == raw;
  }

  /** `listSources`: a cursor parameter that does not decode is dropped, which turns the
      request into an offset-paginated one. */
  function RequestCursor(codec: KbService.CursorCodec, cursor: Option<string>): (r: Option<KbService.Cursor>)
    ensures cursor.None? || cursor == Some("") ==> r.None?
    ensures cursor.Some? && cursor.value != "" ==> r == DecodeCursor(codec, cursor.value)
  {
    if cursor.Some? && cursor.value != "" then DecodeCursor(codec, cursor.value) else None
  }

  // ---------------------------------------------------------------------------------
  // Role rules

  /** `getSource`: a missing source is a `BadRequest`; below OWNER and ADMIN the storage
      path is hidden and nothing else changes. */
  function ShowSource(found: Option<Source>, role: Role): (r: Result<Source, Exception>)
    ensures found.None? <==> r == Err(Exception(BadRequest, "KnowledgeSource not found"))
    ensures found.Some? && IsAdmin(role) ==> r == Ok(found.value)
    ensures found.Some? && !IsAdmin(role) ==> r == Ok(found.value.(storagePath := None))
  {
    match found
    case None => Err(Exception(BadRequest, "KnowledgeSource not found"))
    case Some(s) => if IsAdmin(role) then Ok(s) else Ok(s.(storagePath := None))
  }

  /** Only owners and admins ever see a storage path. */
  lemma StoragePathVisibility(found: Source, role: Role)
    requires found.storagePath.Some?
    ensures ShowSource(Some(found), role).value.storagePath.Some? <==> IsAdmin(role)
  {
  }

  /** `deleteSource`: refused with `Forbidden` below OWNER and ADMIN before any lookup;
      otherwise the service deletes, and an unknown source is a `BadRequest`. */
  method DeleteSource(db: Db, store: KbStorage.FileStore, tenantId: Id, role: Option<Role>, id: Id,
                      diskFailure: Option<string>)
    returns (r: Result<Id, Exception>)
    modifies db`chunks, db`jobs, db`sources, store
    ensures !(role.Some? && IsAdmin(role.value)) ==>
      r == Err(Exception(Forbidden, "Not allowed"))
      && db.chunks == old(db.chunks) && db.jobs == old(db.jobs) && db.sources == old(db.sources)
      && store.files == old(store.files)
    ensures role.Some? && IsAdmin(role.value) && !KbService.OwnedBy(old(db.sources), tenantId, id) ==>
      r == Err(Exception(BadRequest, "KnowledgeSource not found"))
      && db.chunks == old(db.chunks) && db.jobs == old(db.jobs) && db.sources == old(db.sources)
      && store.files == old(store.files)
    ensures role.Some? && IsAdmin(role.value) && KbService.OwnedBy(old(db.sources), tenantId, id) ==>
      && r == Ok(id)
      && db.chunks == KbService.WithoutSource(old(db.chunks), tenantId, id)
      && db.jobs == KbService.JobsWithout(old(db.jobs), tenantId, id)
      && db.sources == old(db.sources) - {id}
  {
    if !(role.Some? && IsAdmin(role.value)) {
      return Err(Exception(Forbidden, "Not allowed"));
    }
    var deleted := KbService.DeleteSource(db, store, tenantId, id, diskFailure);
    if deleted.None? {
      return Err(Exception(BadRequest, "KnowledgeSource not found"));
    }
    return Ok(deleted.value);
  }
}

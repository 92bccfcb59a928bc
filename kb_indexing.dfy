/** `KbIndexingService`: creating knowledge sources from uploads and pasted text,
    repairing a source's file, and handing a source to the indexing queue. The queue
    itself is outside the model: `queueFailure` is the error its submission raises, if
    any, and `submitted` the (job id, payload) pair offered to it. Ids the database
    generates are inputs that are not yet in use. */
module KbIndexing {
  import opened Wrappers
  import opened Records
  import Text
  import KbService
  import KbStorage
  import KbController

  const NotFoundMessage := "KnowledgeSource not found"
  const RepairRequiredMessage := "KnowledgeSource missing storage file (repair required)"
  const IndexJobType := "INDEX_KB_SOURCE"

  /** Why `enqueueSourceIndex` refuses a source before writing anything: it must belong
      to the tenant and have a stored file. */
  function EnqueueRejection(sources: map<Id, Source>, tenantId: Id, sourceId: Id): (r: Option<Exception>)
    ensures r.Some? ==> r.value.kind == BadRequest
    ensures !KbService.OwnedBy(sources, tenantId, sourceId) ==> r == Some(Exception(BadRequest, NotFoundMessage))
    ensures r.None? <==> KbService.OwnedBy(sources, tenantId, sourceId)
                         && sources[sourceId].storagePath.Some? && sources[sourceId].storagePath.value != ""
  {
    if !KbService.OwnedBy(sources, tenantId, sourceId) then Some(Exception(BadRequest, NotFoundMessage))
    else if sources[sourceId].storagePath.None? || sources[sourceId].storagePath.value == "" then
      Some(Exception(BadRequest, RepairRequiredMessage))
    else None
  }

  /** The message the queue sends the worker for a source. */
  function IndexPayload(tenantId: Id, sourceId: Id, userId: Id): QueuePayload {
    QueuePayload(tenantId, sourceId, Some(userId), None, Some("full"))
  }

  /** The state `enqueueSourceIndex` leaves for an accepted source: the new job and the
      source both end QUEUED-then-INDEXING on a successful submission, or both FAILED
      with the submission's message; the source's error and index time are cleared. */
  predicate Enqueued(beforeSources: map<Id, Source>, beforeJobs: map<Id, Job>,
                     afterSources: map<Id, Source>, afterJobs: map<Id, Job>,
                     tenantId: Id, sourceId: Id, userId: Id, jobId: Id, queueFailure: Option<string>,
                     r: Result<Id, Exception>, submitted: Option<(Id, QueuePayload)>)
    requires sourceId in beforeSources
  {
    var src := beforeSources[sourceId];
    var ok := queueFailure.None?;
    var msg := if ok then None else Some(queueFailure.value);
    && submitted == Some((jobId, IndexPayload(tenantId, sourceId, userId)))
    && afterJobs == beforeJobs[jobId := Job(tenantId, IndexJobType, if ok then JobQueued else JobFailed,
                                            sourceId, msg, JobPayload(sourceId, userId))]
    && afterSources == beforeSources[sourceId := src.(status := if ok then Indexing else Failed,
                                                      error := msg, indexedAt := None)]
    && r == (if ok then Ok(jobId) else Err(Exception(Internal, queueFailure.value)))
  }

  /** `enqueueSourceIndex`. */
  method EnqueueSourceIndex(db: Db, tenantId: Id, sourceId: Id, userId: Id, jobId: Id, queueFailure: Option<string>)
    returns (r: Result<Id, Exception>, submitted: Option<(Id, QueuePayload)>)
    requires jobId !in db.jobs
    modifies db`sources, db`jobs
    ensures EnqueueRejection(old(db.sources), tenantId, sourceId).Some? ==>
      && r == Err(EnqueueRejection(old(db.sources), tenantId, sourceId).value) && submitted == None
      && db.sources == old(db.sources) && db.jobs == old(db.jobs)
    ensures EnqueueRejection(old(db.sources), tenantId, sourceId).None? ==>
      && sourceId in old(db.sources)
      && Enqueued(old(db.sources), old(db.jobs), db.sources, db.jobs, tenantId, sourceId, userId, jobId,
                  queueFailure, r, submitted)
  {
    var rejection := EnqueueRejection(db.sources, tenantId, sourceId);
    if rejection.Some? {
      return Err(rejection.value), None;
    }
    // the transaction: reset the source and create the job
    var src := db.sources[sourceId];
    db.sources := db.sources[sourceId := src.(status := Queued, error := None, indexedAt := None)];
    var job := Job(tenantId, IndexJobType, JobQueued, sourceId, None, JobPayload(sourceId, userId));
    db.jobs := db.jobs[jobId := job];

    submitted := Some((jobId, IndexPayload(tenantId, sourceId, userId)));
    if queueFailure.None? {
      db.sources := db.sources[sourceId := src.(status := Indexing, error := None, indexedAt := None)];
      r := Ok(jobId);
    } else {
      var msg := queueFailure.value;
      db.jobs := db.jobs[jobId := job.(status := JobFailed, lastError := Some(msg))];
      db.sources := db.sources[sourceId := src.(status := Failed, error := Some(msg), indexedAt := None)];
      r := Err(Exception(Internal, msg));
    }
  }

  /** A job that was enqueued successfully passes every check the worker makes before
      it starts indexing: its row exists, the payload names a source the tenant owns,
      and that source has a stored file. */
  lemma EnqueuedIsRunnable(beforeSources: map<Id, Source>, beforeJobs: map<Id, Job>,
                           afterSources: map<Id, Source>, afterJobs: map<Id, Job>,
                           tenantId: Id, sourceId: Id, userId: Id, jobId: Id, queueFailure: Option<string>,
                           r: Result<Id, Exception>, submitted: Option<(Id, QueuePayload)>)
    requires EnqueueRejection(beforeSources, tenantId, sourceId).None?
    requires Enqueued(beforeSources, beforeJobs, afterSources, afterJobs, tenantId, sourceId, userId, jobId,
                      queueFailure, r, submitted)
    requires r.Ok?
    ensures submitted.Some? && submitted.value.0 == r.value == jobId
    ensures afterJobs[jobId].status == JobQueued && afterJobs[jobId].sourceId == sourceId
    ensures KbService.OwnedBy(afterSources, submitted.value.1.tenantId, submitted.value.1.sourceId)
    ensures afterSources[sourceId].status == Indexing
    ensures afterSources[sourceId].storagePath == beforeSources[sourceId].storagePath
    ensures afterSources[sourceId].storagePath.Some? && afterSources[sourceId].storagePath.value != ""
  {
  }

  /** A failed submission leaves the job and the source FAILED with the same message. */
  lemma EnqueueFailureMarksBoth(beforeSources: map<Id, Source>, beforeJobs: map<Id, Job>,
                                afterSources: map<Id, Source>, afterJobs: map<Id, Job>,
                                tenantId: Id, sourceId: Id, userId: Id, jobId: Id, queueFailure: Option<string>,
                                r: Result<Id, Exception>, submitted: Option<(Id, QueuePayload)>)
    requires sourceId in beforeSources
    requires Enqueued(beforeSources, beforeJobs, afterSources, afterJobs, tenantId, sourceId, userId, jobId,
                      queueFailure, r, submitted)
    requires queueFailure.Some?
    ensures r == Err(Exception(Internal, queueFailure.value))
    ensures afterJobs[jobId].status == JobFailed && afterSources[sourceId].status == Failed
    ensures afterJobs[jobId].lastError == afterSources[sourceId].error == Some(queueFailure.value)
  {
  }

  /** The row a new source starts as: QUEUED, without a stored file. */
  function NewSource(tenantId: Id, filename: string, mimeType: string, sizeBytes: int, now: int): (s: Source)
    ensures s.status == Queued && s.storagePath == None && s.error == None && s.indexedAt == None
    ensures s.tenantId == tenantId && s.filename == filename && s.mimeType == mimeType && s.sizeBytes == sizeBytes
  {
    Source(tenantId, filename, mimeType, sizeBytes, Queued, None, None, None, now)
  }

  /** A saved file's path is never empty, so a saved source is never refused as in need
      of repair. */
  lemma StoragePathNonEmpty(base: string, tenantId: Id, sourceId: Id, name: string)
    ensures KbStorage.StoragePath(base, tenantId, sourceId, name) != ""
  {
    var p := KbStorage.StoragePath(base, tenantId, sourceId, name);
    assert |p| >= 1 + |KbStorage.StoredName(name)|;
  }

  /** The common tail of the two create operations: record the saved path or mark the
      source FAILED, then enqueue. */
  method StoreAndEnqueue(db: Db, tenantId: Id, sourceId: Id, userId: Id, saved: Result<string, string>,
                         jobId: Id, queueFailure: Option<string>)
    returns (r: Result<(Id, Id), Exception>, submitted: Option<(Id, QueuePayload)>)
    requires sourceId in db.sources && db.sources[sourceId].tenantId == tenantId
    requires saved.Ok? ==> saved.value != ""
    requires jobId !in db.jobs
    modifies db`sources, db`jobs
    ensures saved.Err? ==>
      && r == Err(Exception(Internal, saved.error)) && submitted == None && db.jobs == old(db.jobs)
      && db.sources == old(db.sources)[sourceId := old(db.sources)[sourceId].(status := Failed, error := Some(saved.error))]
    ensures saved.Ok? ==>
      var stored := old(db.sources)[sourceId].(storagePath := Some(saved.value));
      && Enqueued(old(db.sources)[sourceId := stored], old(db.jobs), db.sources, db.jobs,
                  tenantId, sourceId, userId, jobId, queueFailure,
                  if r.Ok? then Ok(jobId) else Err(r.error), submitted)
      && (r.Ok? ==> r.value == (sourceId, jobId))
  {
    var src := db.sources[sourceId];
    if saved.Err? {
      db.sources := db.sources[sourceId := src.(status := Failed, error := Some(saved.error))];
      return Err(Exception(Internal, saved.error)), None;
    }
    db.sources := db.sources[sourceId := src.(storagePath := Some(saved.value))];
    var job;
    job, submitted := EnqueueSourceIndex(db, tenantId, sourceId, userId, jobId, queueFailure);
    match job
    case Ok(id) => r := Ok((sourceId, id));
    case Err(e) => r := Err(e);
  }

  /** `createSourceFromUpload`: the source row is created first, so a failing save leaves
      a FAILED source and no job. */
  method CreateSourceFromUpload(db: Db, store: KbStorage.FileStore, tenantId: Id, userId: Id,
                                file: KbController.UploadedFile, sourceId: Id, now: int,
                                saveFailure: Option<string>, jobId: Id, queueFailure: Option<string>)
    returns (r: Result<(Id, Id), Exception>, submitted: Option<(Id, QueuePayload)>)
    requires sourceId !in db.sources && jobId !in db.jobs
    modifies db`sources, db`jobs, store
    ensures var created := NewSource(tenantId, file.originalName, file.mimeType, file.size, now);
      var path := KbStorage.StoragePath(store.baseDir, tenantId, sourceId, file.originalName);
      && (saveFailure.Some? ==>
            && r == Err(Exception(Internal, saveFailure.value)) && submitted == None
            && db.sources == old(db.sources)[sourceId := created.(status := Failed, error := Some(saveFailure.value))]
            && db.jobs == old(db.jobs) && store.files == old(store.files))
      && (saveFailure.None? ==>
            && store.files == old(store.files)[path := file.buffer]
            && Enqueued(old(db.sources)[sourceId := created.(storagePath := Some(path))], old(db.jobs),
                        db.sources, db.jobs, tenantId, sourceId, userId, jobId, queueFailure,
                        if r.Ok? then Ok(jobId) else Err(r.error), submitted)
            && (r.Ok? ==> r.value == (sourceId, jobId)))
  {
    db.sources := db.sources[sourceId := NewSource(tenantId, file.originalName, file.mimeType, file.size, now)];
    var saved := store.SaveUpload(tenantId, sourceId, file.originalName, file.buffer, saveFailure);
    if saved.Ok? {
      StoragePathNonEmpty(store.baseDir, tenantId, sourceId, file.originalName);
    }
    r, submitted := StoreAndEnqueue(db, tenantId, sourceId, userId, saved, jobId, queueFailure);
  }

  /** `createSourceFromText`: the MIME type defaults to text/plain and the size is the
      content's UTF-8 byte length. */
  method CreateSourceFromText(db: Db, store: KbStorage.FileStore, tenantId: Id, userId: Id,
                              filename: string, content: string, mimeType: Option<string>, sourceId: Id, now: int,
                              saveFailure: Option<string>, jobId: Id, queueFailure: Option<string>)
    returns (r: Result<(Id, Id), Exception>, submitted: Option<(Id, QueuePayload)>)
    requires sourceId !in db.sources && jobId !in db.jobs
    modifies db`sources, db`jobs, store
    ensures var mime := if mimeType.Some? then mimeType.value else "text/plain";
      var created := NewSource(tenantId, filename, mime, |Text.Utf8(content)|, now);
      var path := KbStorage.StoragePath(store.baseDir, tenantId, sourceId, filename);
      && (saveFailure.Some? ==>
            && r == Err(Exception(Internal, saveFailure.value)) && submitted == None
            && db.sources == old(db.sources)[sourceId := created.(status := Failed, error := Some(saveFailure.value))]
            && db.jobs == old(db.jobs) && store.files == old(store.files))
      && (saveFailure.None? ==>
            && store.files == old(store.files)[path := Text.Utf8(content)]
            && Enqueued(old(db.sources)[sourceId := created.(storagePath := Some(path))], old(db.jobs),
                        db.sources, db.jobs, tenantId, sourceId, userId, jobId, queueFailure,
                        if r.Ok? then Ok(jobId) else Err(r.error), submitted)
            && (r.Ok? ==> r.value == (sourceId, jobId)))
  {
    var mime := if mimeType.Some? then mimeType.value else "text/plain";
    db.sources := db.sources[sourceId := NewSource(tenantId, filename, mime, |Text.Utf8(content)|, now)];
    var saved := store.SaveText(tenantId, sourceId, filename, content, saveFailure);
    if saved.Ok? {
      StoragePathNonEmpty(store.baseDir, tenantId, sourceId, filename);
    }
    r, submitted := StoreAndEnqueue(db, tenantId, sourceId, userId, saved, jobId, queueFailure);
  }

  /** `repairSourceFromUpload`: `Ok(None)` is the `null` for a source the tenant does not
      own, returned with nothing written. The new file's name, type, size and path
      replace the old ones before the source is enqueued again. */
  method RepairSourceFromUpload(db: Db, store: KbStorage.FileStore, tenantId: Id, userId: Id, sourceId: Id,
                                file: KbController.UploadedFile, saveFailure: Option<string>,
                                jobId: Id, queueFailure: Option<string>)
    returns (r: Result<Option<(Id, Id)>, Exception>, submitted: Option<(Id, QueuePayload)>)
    requires jobId !in db.jobs
    modifies db`sources, db`jobs, store
    ensures !KbService.OwnedBy(old(db.sources), tenantId, sourceId) ==>
      && r == Ok(None) && submitted == None
      && db.sources == old(db.sources) && db.jobs == old(db.jobs) && store.files == old(store.files)
    ensures KbService.OwnedBy(old(db.sources), tenantId, sourceId) && saveFailure.Some? ==>
      && r == Err(Exception(Internal, saveFailure.value)) && submitted == None
      && db.sources == old(db.sources)[sourceId := old(db.sources)[sourceId].(status := Failed, error := Some(saveFailure.value))]
      && db.jobs == old(db.jobs) && store.files == old(store.files)
    ensures KbService.OwnedBy(old(db.sources), tenantId, sourceId) && saveFailure.None? ==>
      var path := KbStorage.StoragePath(store.baseDir, tenantId, sourceId, file.originalName);
      var repaired := old(db.sources)[sourceId].(filename := file.originalName, mimeType := file.mimeType,
                        sizeBytes := file.size, storagePath := Some(path), status := Queued,
                        indexedAt := None, error := None);
      && store.files == old(store.files)[path := file.buffer]
      && Enqueued(old(db.sources)[sourceId := repaired], old(db.jobs), db.sources, db.jobs,
                  tenantId, sourceId, userId, jobId, queueFailure,
                  if r.Ok? then Ok(jobId) else Err(r.error), submitted)
      && (r.Ok? ==> r.value == Some((sourceId, jobId)))
  {
    if !KbService.OwnedBy(db.sources, tenantId, sourceId) {
      return Ok(None), None;
    }
    var saved := store.SaveUpload(tenantId, sourceId, file.originalName, file.buffer, saveFailure);
    var src := db.sources[sourceId];
    if saved.Err? {
      db.sources := db.sources[sourceId := src.(status := Failed, error := Some(saved.error))];
      return Err(Exception(Internal, saved.error)), None;
    }
    StoragePathNonEmpty(store.baseDir, tenantId, sourceId, file.originalName);
    db.sources := db.sources[sourceId := src.(filename := file.originalName, mimeType := file.mimeType,
                    sizeBytes := file.size, storagePath := Some(saved.value), status := Queued,
                    indexedAt := None, error := None)];
    var job;
    job, submitted := EnqueueSourceIndex(db, tenantId, sourceId, userId, jobId, queueFailure);
    match job
    case Ok(id) => r := Ok(Some((sourceId, id)));
    case Err(e) => r := Err(e);
  }

  /** `retrySourceIndex`: `Ok(None)` for a source the tenant does not own, otherwise
      exactly `enqueueSourceIndex`. */
  method RetrySourceIndex(db: Db, tenantId: Id, sourceId: Id, userId: Id, jobId: Id, queueFailure: Option<string>)
    returns (r: Result<Option<Id>, Exception>, submitted: Option<(Id, QueuePayload)>)
    requires jobId !in db.jobs
    modifies db`sources, db`jobs
    ensures !KbService.OwnedBy(old(db.sources), tenantId, sourceId) ==>
      r == Ok(None) && submitted == None && db.sources == old(db.sources) && db.jobs == old(db.jobs)
    ensures KbService.OwnedBy(old(db.sources), tenantId, sourceId) && EnqueueRejection(old(db.sources), tenantId, sourceId).Some? ==>
      && r == Err(EnqueueRejection(old(db.sources), tenantId, sourceId).value) && submitted == None
      && db.sources == old(db.sources) && db.jobs == old(db.jobs)
    ensures EnqueueRejection(old(db.sources), tenantId, sourceId).None? ==>
      && Enqueued(old(db.sources), old(db.jobs), db.sources, db.jobs, tenantId, sourceId, userId, jobId,
                  queueFailure, if r.Ok? then Ok(jobId) else Err(r.error), submitted)
      && (r.Ok? ==> r.value == Some(jobId))
  {
    if !KbService.OwnedBy(db.sources, tenantId, sourceId) {
      return Ok(None), None;
    }
    var job;
    job, submitted := EnqueueSourceIndex(db, tenantId, sourceId, userId, jobId, queueFailure);
    match job
    case Ok(id) => r := Ok(Some(id));
    case Err(e) => r := Err(e);
  }

  /** A retry of a source without a stored file is refused as needing repair. */
  lemma RetryNeedsStoredFile(sources: map<Id, Source>, tenantId: Id, sourceId: Id)
    requires KbService.OwnedBy(sources, tenantId, sourceId) && sources[sourceId].storagePath.None?
    ensures EnqueueRejection(sources, tenantId, sourceId) == Some(Exception(BadRequest, RepairRequiredMessage))
  {
  }
}

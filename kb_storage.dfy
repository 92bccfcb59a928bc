/** The on-disk store of uploaded knowledge-source files: one directory per
    (tenant, source) under a base directory, holding the sanitised upload. The file
    system is a map from path to contents. */
module KbStorage {
  import opened Wrappers
  import Text

  /** The characters `sanitizeFilename` keeps: `[a-zA-Z0-9._-]`. */
  predicate AllowedChar(c: char) {
    ('a' <= c <= 'z') || ('A' <= c <= 'Z') || ('0' <= c <= '9') || c == '.' || c == '_' || c == '-'
  }

  /** Replaces every character outside the allowed set by '_'. */
  function SanitizeFilename(name: string): (r: string)
    ensures |r| == |name|
    ensures forall i :: 0 <= i < |r| ==> AllowedChar(r[i])
    ensures forall i :: 0 <= i < |r| ==> AllowedChar(name[i]) ==> r[i] == name[i]
    ensures forall i :: 0 <= i < |r| ==> !AllowedChar(name[i]) ==> r[i] == '_'
  {
    seq(|name|, i requires 0 <= i < |name| => if AllowedChar(name[i]) then name[i] else '_')
  }

  lemma SanitizeAllowed(name: string)
    requires forall i :: 0 <= i < |name| ==> AllowedChar(name[i])
    ensures SanitizeFilename(name) == name
  {
  }

  lemma SanitizeIdempotent(name: string)
    ensures SanitizeFilename(SanitizeFilename(name)) == SanitizeFilename(name)
  {
    SanitizeAllowed(SanitizeFilename(name));
  }

  /** The name a file is stored under: `sanitizeFilename(originalName || "upload")`. */
  function StoredName(originalName: string): (r: string)
    ensures r != []
    ensures '/' !in r
    ensures originalName == [] ==> r == "upload"
    ensures originalName != [] ==> r == SanitizeFilename(originalName)
  {
    var r := SanitizeFilename(if originalName == [] then "upload" else originalName);
    assert !AllowedChar('/');
    r
  }

  /** `KB_STORAGE_DIR`, or `<cwd>/storage/kb` when it is not configured. */
  function BaseDir(configured: Option<string>, cwd: string): (r: string)
    ensures configured.Some? ==> r == configured.value
    ensures configured.None? ==> r == cwd + "/storage/kb"
  {
    match configured
    case Some(d) => d
    case None => cwd + "/storage/kb"
  }

  /** The directory of one source. */
  function SourceDir(base: string, tenantId: string, sourceId: string): string {
    base + "/" + tenantId + "/" + sourceId
  }

  /** Where `saveUpload` writes a file. */
  function StoragePath(base: string, tenantId: string, sourceId: string, originalName: string): string {
    SourceDir(base, tenantId, sourceId) + "/" + StoredName(originalName)
  }

  /** A stored file lies inside its source's directory. A stored name of "." or ".."
      would name the directory itself or its parent once the path is normalised. */
  lemma StoragePathInSourceDir(base: string, tenantId: string, sourceId: string, originalName: string)
    requires StoredName(originalName) != "." && StoredName(originalName) != ".."
    ensures Text.StartsWith(StoragePath(base, tenantId, sourceId, originalName),
                            SourceDir(base, tenantId, sourceId) + "/")
  {
    var dir := SourceDir(base, tenantId, sourceId) + "/";
    assert StoragePath(base, tenantId, sourceId, originalName) == dir + StoredName(originalName);
  }

  lemma ThreeSegments(t: string, s: string, a: string)
    requires '/' !in t && '/' !in s && '/' !in a
    ensures Text.Split(t + "/" + s + "/" + a, '/') == [t, s, a]
  {
    assert t + "/" + s + "/" + a == t + ['/'] + (s + ['/'] + a);
    Text.SplitFirstField(t, '/', s + ['/'] + a);
    Text.SplitFirstField(s, '/', a);
    Text.SplitNoSeparator(a, '/');
  }

  lemma PathAfterBase(base: string, t: string, s: string, n: string)
    ensures |StoragePath(base, t, s, n)| >= |base| + 1
    ensures StoragePath(base, t, s, n)[|base| + 1..] == t + "/" + s + "/" + StoredName(n)
  {
    var rest := t + "/" + s + "/" + StoredName(n);
    assert StoragePath(base, t, s, n) == (base + "/") + rest;
  }

  /** Different sources never share a file when ids contain no '/' and the stored names
      are not "." or "..". */
  lemma StoragePathsSeparateSources(base: string, t1: string, s1: string, n1: string,
                                    t2: string, s2: string, n2: string)
    requires '/' !in t1 && '/' !in s1 && '/' !in t2 && '/' !in s2
    requires StoredName(n1) != "." && StoredName(n1) != ".." && StoredName(n2) != "." && StoredName(n2) != ".."
    requires StoragePath(base, t1, s1, n1) == StoragePath(base, t2, s2, n2)
    ensures t1 == t2 && s1 == s2 && StoredName(n1) == StoredName(n2)
  {
    PathAfterBase(base, t1, s1, n1);
    PathAfterBase(base, t2, s2, n2);
    ThreeSegments(t1, s1, StoredName(n1));
    ThreeSegments(t2, s2, StoredName(n2));
  }

  /** The files left after removing a directory recursively. */
  function RemoveUnder(files: map<string, seq<Text.Byte>>, dir: string): (r: map<string, seq<Text.Byte>>)
    ensures forall p :: p in r <==> p in files && !Text.StartsWith(p, dir + "/")
    ensures forall p :: p in r ==> r[p] == files[p]
  {
    map p | p in files && !Text.StartsWith(p, dir + "/") :: files[p]
  }

  /** Removing a directory that holds no file changes nothing. */
  lemma RemoveAbsentDir(files: map<string, seq<Text.Byte>>, dir: string)
    requires forall p :: p in files ==> !Text.StartsWith(p, dir + "/")
    ensures RemoveUnder(files, dir) == files
  {
  }

  /** The file system under the storage base directory. A failing disk operation is
      modelled by the `failure` argument carrying the error it raises. */
  class FileStore {
    var files: map<string, seq<Text.Byte>>
    const baseDir: string

    constructor(baseDir: string)
      ensures this.baseDir == baseDir && files == map[]
    {
      this.baseDir := baseDir;
      files := map[];
    }

    /** Writes the buffer to `baseDir/tenantId/sourceId/safeName`, overwriting any file
        already there, and returns that path. */
    method SaveUpload(tenantId: string, sourceId: string, originalName: string,
                      buffer: seq<Text.Byte>, failure: Option<string>)
      returns (r: Result<string, string>)
      modifies this
      ensures failure.Some? ==> r == Err(failure.value) && files == old(files)
      ensures failure.None? ==> r == Ok(StoragePath(baseDir, tenantId, sourceId, originalName))
      ensures failure.None? ==> files == old(files)[r.value := buffer]
    {
      if failure.Some? {
        return Err(failure.value);
      }
      var dir := SourceDir(baseDir, tenantId, sourceId);
      var path := dir + "/" + StoredName(originalName);
      files := files[path := buffer];
      return Ok(path);
    }

    /** Saves a text as its UTF-8 bytes. */
    method SaveText(tenantId: string, sourceId: string, filename: string, content: string,
                    failure: Option<string>)
      returns (r: Result<string, string>)
      modifies this
      ensures failure.Some? ==> r == Err(failure.value) && files == old(files)
      ensures failure.None? ==> r == Ok(StoragePath(baseDir, tenantId, sourceId, filename))
      ensures failure.None? ==> files == old(files)[r.value := Text.Utf8(content)]
    {
      r := SaveUpload(tenantId, sourceId, filename, Text.Utf8(content), failure);
    }

    /** Removes a source's directory and everything in it; an absent directory is not
        an error. */
    method RemoveSourceDir(tenantId: string, sourceId: string, failure: Option<string>)
      returns (r: Result<(), string>)
      modifies this
      ensures failure.Some? ==> r == Err(failure.value) && files == old(files)
      ensures failure.None? ==> r == Ok(())
      ensures failure.None? ==> files == RemoveUnder(old(files), SourceDir(baseDir, tenantId, sourceId))
    {
      if failure.Some? {
        return Err(failure.value);
      }
      files := RemoveUnder(files, SourceDir(baseDir, tenantId, sourceId));
      return Ok(());
    }
  }
}

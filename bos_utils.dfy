/**
 * The BOS (Baidu Object Storage) adapter's helpers: the storage record and how
 * `newStorage` fills it in, the mapping between go-storage paths and object keys
 * under the work directory, and the classification of SDK errors into go-storage's
 * shared error kinds.
 */
module Bos {
  import opened Wrappers
  import opened GoStrings

  // ---------------------------------------------------------------------------
  // Records
  // ---------------------------------------------------------------------------

  /** The `*bos.Client` the service shares with its storages; opaque here. */
  datatype Client = Client(handle: nat)

  /** A go-storage pair: an option name and its rendered value. */
  datatype Pair = Pair(key: string, value: string)

  /** The generated default-pair and feature records; their Go zero values are the empty ones. */
  datatype DefaultServicePairs = DefaultServicePairs(pairs: seq<Pair>)
  datatype ServiceFeatures = ServiceFeatures(enabled: set<string>)
  datatype DefaultStoragePairs = DefaultStoragePairs(pairs: seq<Pair>)
  datatype StorageFeatures = StorageFeatures(enabled: set<string>)

  const NoStoragePairs: DefaultStoragePairs := DefaultStoragePairs([])
  const NoStorageFeatures: StorageFeatures := StorageFeatures({})

  /** `Service`: the servicer, holding the SDK client. */
  datatype Service = Service(
    client: Client,
    defaultPairs: DefaultServicePairs,
    features: ServiceFeatures)

  /** `Storage`: one bucket seen through a work directory. */
  datatype Storage = Storage(
    client: Client,
    bucket: string,
    workDir: string,
    defaultPairs: DefaultStoragePairs,
    features: StorageFeatures)

  /**
   * The parsed options of a new storage (`pairStorageNew`): a required name and
   * three optional settings, each with its presence flag.
   */
  datatype StorageOptions = StorageOptions(
    name: string,
    hasWorkDir: bool,
    workDir: string,
    hasDefaultStoragePairs: bool,
    defaultStoragePairs: DefaultStoragePairs,
    hasStorageFeatures: bool,
    storageFeatures: StorageFeatures)

  /** The work directory a storage gets when none is supplied. */
  const DefaultWorkDir: string := "/"

  // ---------------------------------------------------------------------------
  // Errors
  // ---------------------------------------------------------------------------

  /**
   * A Go `error` as `formatError` tells them apart, each with the text its
   * `Error()` method gives: an error go-storage already produced
   * (`services.InternalError`), a BOS service error (`*bce.BceServiceError`)
   * with its code, and anything else.
   */
  datatype GoError =
    | InternalError(text: string)
    | BceServiceError(code: string, text: string)
    | OtherError(text: string)

  /** go-storage's shared sentinels that the adapter maps SDK errors onto. */
  datatype Kind = PermissionDenied | ObjectNotExist | Unexpected

  /**
   * The result of `formatError`: either the given error itself, or a new error
   * that wraps (`%w`) one shared sentinel and carries the original only as text (`%v`).
   * `Wrapped` has no field of type `GoError`, so the original cannot be unwrapped from it.
   */
  datatype Formatted =
    | Passthrough(err: GoError)
    | Wrapped(kind: Kind, detail: string)

  /** `services.StorageError`, as `Storage.formatError` builds it. */
  datatype StorageError = StorageError(op: string, err: Formatted, storager: Storage, path: seq<string>)

  /** `services.ServiceError`, as `Service.formatError` builds it. */
  datatype ServiceError = ServiceError(op: string, err: GoError, servicer: Service, name: string)

  /**
   * `formatError`: converts an error returned by the SDK into one of go-storage's
   * errors. Internal errors pass through untouched; every other error becomes a
   * wrapper around one shared sentinel that carries the original's text only.
   */
  function FormatError(err: GoError): (r: Formatted)
    ensures r.Passthrough? <==> err.InternalError?
    ensures r.Passthrough? ==> r.err == err
    ensures r.Wrapped? ==> r.detail == err.text
    ensures r.Wrapped? && r.kind == PermissionDenied <==> err.BceServiceError? && err.code == "AccessDenied"
    ensures r.Wrapped? && r.kind == ObjectNotExist <==> err.BceServiceError? && err.code == "NoSuchKey"
    ensures r.Wrapped? && r.kind == Unexpected <==>
              err.OtherError? || (err.BceServiceError? && err.code != "AccessDenied" && err.code != "NoSuchKey")
  {
    match err
    case InternalError(_) => Passthrough(err)
    case BceServiceError(code, text) =>
      if code == "AccessDenied" then Wrapped(PermissionDenied, text)
      else if code == "NoSuchKey" then Wrapped(ObjectNotExist, text)
      else Wrapped(Unexpected, text)
    case OtherError(text) => Wrapped(Unexpected, text)
  }

  /**
   * `Storage.formatError`: nil stays nil; any other error becomes a storage error
   * naming the operation, this storage and the paths involved, with the inner
   * error classified by `FormatError`.
   */
  function StorageFormatError(s: Storage, op: string, err: Option<GoError>, path: seq<string>): (r: Option<StorageError>)
    ensures r.None? <==> err.None?
    ensures r.Some? ==> r.value.op == op && r.value.storager == s && r.value.path == path
    ensures r.Some? ==> r.value.err == FormatError(err.value)
  {
    match err
    case None => None
    case Some(e) => Some(StorageError(op, FormatError(e), s, path))
  }

  /**
   * `Service.formatError`: nil stays nil; any other error becomes a service error
   * naming the operation, this service and the storage name, with the inner error
   * kept as it was given (not classified).
   */
  function ServiceFormatError(s: Service, op: string, err: Option<GoError>, name: string): (r: Option<ServiceError>)
    ensures r.None? <==> err.None?
    ensures r.Some? ==> r.value.op == op && r.value.servicer == s && r.value.name == name
    ensures r.Some? ==> r.value.err == err.value
  {
    match err
    case None => None
    case Some(e) => Some(ServiceError(op, e, s, name))
  }

  /**
   * Of the two wrappers only the storage one classifies: for an SDK error that is
   * not internal, the storage error holds a sentinel wrapper with the original as
   * text, while the service error holds the original error itself.
   */
  lemma OnlyStorageErrorsAreClassified(st: Storage, sv: Service, op: string, e: GoError, path: seq<string>, name: string)
    requires !e.InternalError?
    ensures StorageFormatError(st, op, Some(e), path).value.err.Wrapped?
    ensures StorageFormatError(st, op, Some(e), path).value.err.detail == e.text
    ensures ServiceFormatError(sv, op, Some(e), name).value.err == e
  {
  }

  // ---------------------------------------------------------------------------
  // Construction
  // ---------------------------------------------------------------------------

  /**
   * `Service.newStorage`: on a parse failure returns that error; otherwise builds a
   * storage on the service's client for the named bucket with work directory "/",
   * and then replaces the work directory, the default pairs and the features by
   * the supplied ones, each only when its presence flag is set.
   */
  method NewStorage(srv: Service, parsed: Result<StorageOptions, GoError>) returns (r: Result<Storage, GoError>)
    ensures parsed.Failure? <==> r.Failure?
    ensures parsed.Failure? ==> r.error == parsed.error
    ensures r.Success? ==> r.value.client == srv.client && r.value.bucket == parsed.value.name
    ensures r.Success? ==>
              r.value.workDir == (if parsed.value.hasWorkDir then parsed.value.workDir else DefaultWorkDir)
    ensures r.Success? ==>
              r.value.defaultPairs == (if parsed.value.hasDefaultStoragePairs
                                       then parsed.value.defaultStoragePairs else NoStoragePairs)
    ensures r.Success? ==>
              r.value.features == (if parsed.value.hasStorageFeatures
                                   then parsed.value.storageFeatures else NoStorageFeatures)
  {
    if parsed.Failure? {
      return Failure(parsed.error);
    }
    var opt := parsed.value;
    var store := Storage(srv.client, opt.name, DefaultWorkDir, NoStoragePairs, NoStorageFeatures);
    if opt.hasWorkDir {
      store := store.(workDir := opt.workDir);
    }
    if opt.hasDefaultStoragePairs {
      store := store.(defaultPairs := opt.defaultStoragePairs);
    }
    if opt.hasStorageFeatures {
      store := store.(features := opt.storageFeatures);
    }
    return Success(store);
  }

  // ---------------------------------------------------------------------------
  // Paths under the work directory
  // ---------------------------------------------------------------------------

  /** The key prefix of a work directory: the directory with one leading "/" removed. */
  function WorkPrefix(workDir: string): (p: string)
    ensures HasPrefix(workDir, "/") ==> "/" + p == workDir
    ensures !HasPrefix(workDir, "/") ==> p == workDir
  {
    TrimPrefix(workDir, "/")
  }

  /** `Storage.getAbsPath`: the object key of a go-storage path, which is the path under the work prefix. */
  function AbsPath(s: Storage, path: string): (r: string)
    ensures HasPrefix(r, WorkPrefix(s.workDir))
    ensures r[|WorkPrefix(s.workDir)|..] == path
  {
    WorkPrefix(s.workDir) + path
  }

  /**
   * `Storage.getRelPath`: the go-storage path of an object key. A key under the work
   * prefix loses that prefix once; any other key is returned as it is.
   */
  function RelPath(s: Storage, path: string): (r: string)
    ensures HasPrefix(path, WorkPrefix(s.workDir)) ==> WorkPrefix(s.workDir) + r == path
    ensures !HasPrefix(path, WorkPrefix(s.workDir)) ==> r == path
  {
    TrimPrefix(path, WorkPrefix(s.workDir))
  }

  /** Every path survives the trip to an object key and back. */
  lemma RelPathOfAbsPath(s: Storage, path: string)
    ensures RelPath(s, AbsPath(s, path)) == path
  {
  }

  /** Distinct paths map to distinct object keys. */
  lemma AbsPathInjective(s: Storage, p1: string, p2: string)
    requires AbsPath(s, p1) == AbsPath(s, p2)
    ensures p1 == p2
  {
  }

  /**
   * The other direction: a key under the work prefix is restored by mapping its
   * relative path back, and a key outside it comes back with the prefix in front.
   */
  lemma AbsPathOfRelPath(s: Storage, key: string)
    ensures HasPrefix(key, WorkPrefix(s.workDir)) ==> AbsPath(s, RelPath(s, key)) == key
    ensures !HasPrefix(key, WorkPrefix(s.workDir)) ==> AbsPath(s, RelPath(s, key)) == WorkPrefix(s.workDir) + key
  {
  }

  /** RelPath strips the work prefix once only, even when the key repeats it. */
  lemma RelPathStripsOnce(s: Storage, rest: string)
    ensures RelPath(s, WorkPrefix(s.workDir) + WorkPrefix(s.workDir) + rest) == WorkPrefix(s.workDir) + rest
  {
  }

  /** With the default work directory "/", paths and object keys coincide. */
  lemma DefaultWorkDirIsIdentity(s: Storage, path: string)
    requires s.workDir == DefaultWorkDir
    ensures AbsPath(s, path) == path
    ensures RelPath(s, path) == path
  {
  }

  /**
   * A work directory "/photos/" puts objects under "photos/"; keys outside it are
   * reported unchanged, and only one leading "/" of a work directory is dropped.
   */
  lemma WorkDirExamples(s: Storage)
    ensures s.workDir == "/photos/" ==> AbsPath(s, "cat.jpg") == "photos/cat.jpg"
    ensures s.workDir == "/photos/" ==> RelPath(s, "photos/cat.jpg") == "cat.jpg"
    ensures s.workDir == "/photos/" ==> RelPath(s, "videos/dog.mp4") == "videos/dog.mp4"
    ensures s.workDir == "//a/" ==> AbsPath(s, "b") == "/a/b"
    ensures s.workDir == "a/" ==> AbsPath(s, "b") == "a/b"
  {
    if s.workDir == "/photos/" {
      assert HasPrefix(s.workDir, "/");
      assert WorkPrefix(s.workDir) == "photos/";
      RelPathOfAbsPath(s, "cat.jpg");
      assert "videos/dog.mp4"[..7][0] != "photos/"[0];
    }
    if s.workDir == "//a/" {
      assert HasPrefix(s.workDir, "/");
      assert WorkPrefix(s.workDir) == "/a/";
    }
    if s.workDir == "a/" {
      assert s.workDir[..1][0] != "/"[0];
    }
  }
}

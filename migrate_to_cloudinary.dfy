/**
 * The `migrate_to_cloudinary` management command: one pass over the
 * leadership records that uploads each legacy local image to the remote store
 * and writes the returned identifier back into the record.
 */
module MigrateToCloudinary {
  import opened Common
  import opened AssetIdentifier

  /** A Python value as the upload response carries it. */
  datatype PyValue = PyInt(i: int) | PyStr(s: string)

  /** Python's `str(value)`. */
  function PyText(v: PyValue): string
  {
    match v
    case PyInt(i) => IntText(i)
    case PyStr(s) => s
  }

  /** The arguments of one `cloudinary.uploader.upload` call. */
  datatype UploadRequest = UploadRequest(file: string, folder: string, resourceType: string)

  /** The two response fields the command reads. */
  datatype UploadResponse = UploadResponse(version: PyValue, publicId: string)

  /**
   * What the command reaches outside the process: `FieldFile.path` (None when
   * the storage raises, as it does for a name that escapes the media root),
   * `os.path.exists`, and the remote upload (None when it raises).
   */
  datatype Env = Env(
    localPath: string -> Option<string>,
    fileExists: string -> bool,
    upload: UploadRequest -> Option<UploadResponse>)

  /** How the identifier written back is built. */
  datatype Rewrite =
    | AsWritten  // `result['version'] + '/' + result['public_id']`
    | Canonical  // `'v' + str(version) + '/' + public_id`

  /** A leadership record: only its name (for messages) and image field matter here. */
  datatype Leader = Leader(name: string, image: string)

  /** The exceptions the per-record handler catches. */
  datatype Failure = PathRaised | UploadRaised | VersionTypeError

  /** What one pass of the loop body does with a record. */
  datatype Outcome = Skipped | Migrated(image: string) | FileMissing(path: string) | Failed(reason: Failure)

  /** The lines written to the command's output. */
  datatype Message = Success(name: string) | Warning(name: string, path: string) | Error(name: string, reason: Failure)

  const UploadFolder: string := "leadership"
  const UploadResourceType: string := "image"

  /** The value written back for an upload's response, or what building it raises. */
  function RewrittenImage(response: UploadResponse, rewrite: Rewrite): (r: Result<string, Failure>)
    ensures rewrite == Canonical ==> r.Ok? && Classify(r.value) == RemoteVersionedId
    ensures rewrite == Canonical ==> r == Ok(VersionedId(PyText(response.version), response.publicId))
    ensures rewrite == AsWritten ==> (r.Ok? <==> response.version.PyStr?)
    ensures rewrite == AsWritten && response.version.PyStr? ==>
      r == Ok(response.version.s + "/" + response.publicId)
    ensures rewrite == AsWritten && response.version.PyInt? ==> r == Err(VersionTypeError)
    ensures r.Ok? ==> |response.publicId| < |r.value| &&
                      r.value[|r.value| - |response.publicId| - 1..] == "/" + response.publicId
  {
    match rewrite
    case Canonical => Ok(VersionedId(PyText(response.version), response.publicId))
    case AsWritten =>
      match response.version
      case PyStr(s) => Ok(s + "/" + response.publicId)
      case PyInt(_) => Err(VersionTypeError)  // int + str raises TypeError
  }

  /** The loop's guard: an image is set and does not start with 'v'. */
  predicate IsCandidate(image: string)
  {
    image != [] && !("v" <= image)
  }

  /** The upload call made for a local file. */
  function UploadRequestFor(path: string): UploadRequest
  {
    UploadRequest(path, UploadFolder, UploadResourceType)
  }

  /** One pass of the loop body over one record. */
  function Process(leader: Leader, env: Env, rewrite: Rewrite): (o: Outcome)
    ensures o.Skipped? <==> Classify(leader.image) in {Unset, RemoteVersionedId}
    ensures IsCandidate(leader.image) && env.localPath(leader.image).None? ==> o == Failed(PathRaised)
    ensures IsCandidate(leader.image) && env.localPath(leader.image).Some? ==>
      var path := env.localPath(leader.image).value;
      !env.fileExists(path) ==> o == FileMissing(path)
    ensures RequestOf(leader, env).Some? && env.upload(RequestOf(leader, env).value).None? ==>
      o == Failed(UploadRaised)
    ensures RequestOf(leader, env).Some? && env.upload(RequestOf(leader, env).value).Some? ==>
      var rewritten := RewrittenImage(env.upload(RequestOf(leader, env).value).value, rewrite);
      o == if rewritten.Ok? then Migrated(rewritten.value) else Failed(rewritten.error)
    ensures o.Migrated? ==> RequestOf(leader, env).Some?
  {
    if !IsCandidate(leader.image) then Skipped
    else
      match env.localPath(leader.image)
      case None => Failed(PathRaised)
      case Some(path) =>
        if !env.fileExists(path) then FileMissing(path)
        else
          match env.upload(UploadRequestFor(path))
          case None => Failed(UploadRaised)
          case Some(response) =>
            match RewrittenImage(response, rewrite)
            case Err(e) => Failed(e)
            case Ok(image) => Migrated(image)
  }

  /** The upload the loop body sends for a record, if it gets that far. */
  function RequestOf(leader: Leader, env: Env): (r: Option<UploadRequest>)
    ensures r.Some? ==> IsCandidate(leader.image) && r.value.folder == "leadership" && r.value.resourceType == "image"
    ensures r.Some? ==> env.localPath(leader.image) == Some(r.value.file) && env.fileExists(r.value.file)
    ensures IsCandidate(leader.image) && env.localPath(leader.image).Some? ==>
      (env.fileExists(env.localPath(leader.image).value) <==> r.Some?)
  {
    if !IsCandidate(leader.image) then None
    else
      match env.localPath(leader.image)
      case None => None
      case Some(path) => if env.fileExists(path) then Some(UploadRequestFor(path)) else None
  }

  /** The record after its pass: only a successful migration changes it, and then only its image. */
  function Migrate(leader: Leader, env: Env, rewrite: Rewrite): (l: Leader)
    ensures l.name == leader.name
    ensures !Process(leader, env, rewrite).Migrated? ==> l == leader
    ensures Process(leader, env, rewrite).Migrated? ==> l.image == Process(leader, env, rewrite).image
  {
    match Process(leader, env, rewrite)
    case Migrated(image) => leader.(image := image)
    case _ => leader
  }

  /** The output a record's pass writes. */
  function MessagesOf(leader: Leader, outcome: Outcome): seq<Message>
  {
    match outcome
    case Skipped => []
    case Migrated(_) => [Success(leader.name)]
    case FileMissing(path) => [Warning(leader.name, path)]
    case Failed(reason) => [Error(leader.name, reason)]
  }

  /** The records after a run, in query order. */
  function Run(leaders: seq<Leader>, env: Env, rewrite: Rewrite): (r: seq<Leader>)
    ensures |r| == |leaders|
  {
    if leaders == [] then []
    else Run(leaders[..|leaders| - 1], env, rewrite) + [Migrate(leaders[|leaders| - 1], env, rewrite)]
  }

  /** The messages a run writes. */
  function Log(leaders: seq<Leader>, env: Env, rewrite: Rewrite): seq<Message>
  {
    if leaders == [] then []
    else
      var last := leaders[|leaders| - 1];
      Log(leaders[..|leaders| - 1], env, rewrite) + MessagesOf(last, Process(last, env, rewrite))
  }

  /** The uploads a run sends. */
  function Uploads(leaders: seq<Leader>, env: Env): seq<UploadRequest>
  {
    if leaders == [] then []
    else
      var last := leaders[|leaders| - 1];
      Uploads(leaders[..|leaders| - 1], env) + (match RequestOf(last, env) case Some(r) => [r] case None => [])
  }

  /**
   * `Command.handle`. When the remote-store settings lack a key, configuring
   * the client raises before any record is read. Otherwise it visits every
   * record once, in order, and rewrites the current one only; every exception
   * of a record's pass is caught and the loop goes on with the next record.
   */
  method Handle(leaders: array<Leader>, settingsComplete: bool, env: Env, rewrite: Rewrite)
    returns (aborted: bool, log: seq<Message>, uploads: seq<UploadRequest>)
    modifies leaders
    ensures aborted <==> !settingsComplete
    ensures aborted ==> leaders[..] == old(leaders[..]) && log == [] && uploads == []
    ensures !aborted ==> leaders[..] == Run(old(leaders[..]), env, rewrite)
    ensures !aborted ==> log == Log(old(leaders[..]), env, rewrite)
    ensures !aborted ==> uploads == Uploads(old(leaders[..]), env)
  {
    if !settingsComplete {
      return true, [], [];
    }
    aborted := false;
    log, uploads := MigrateRecords(leaders, env, rewrite);
  }

  /** The `for leader in leaders` loop of `Command.handle`. */
  method MigrateRecords(leaders: array<Leader>, env: Env, rewrite: Rewrite)
    returns (log: seq<Message>, uploads: seq<UploadRequest>)
    modifies leaders
    ensures leaders[..] == Run(old(leaders[..]), env, rewrite)
    ensures log == Log(old(leaders[..]), env, rewrite)
    ensures uploads == Uploads(old(leaders[..]), env)
  {
    ghost var input := leaders[..];
    log, uploads := [], [];
    var i := 0;
    while i < leaders.Length
      invariant 0 <= i <= leaders.Length
      invariant leaders[..i] == Run(input[..i], env, rewrite)
      invariant leaders[i..] == input[i..]
      invariant log == Log(input[..i], env, rewrite)
      invariant uploads == Uploads(input[..i], env)
    {
      ghost var before := leaders[..];
      assert before[i] == input[i] by {
        assert before[i..] == input[i..];
      }
      var messages, sent := HandleOne(leaders, i, env, rewrite);
      LoopStep(input, before, leaders[..], i, env, rewrite);
      log, uploads := log + messages, uploads + sent;
      i := i + 1;
    }
    assert leaders[..] == leaders[..leaders.Length];
    assert input == input[..leaders.Length];
  }

  /** One iteration of the loop keeps its invariant: the prefix done grows by record i. */
  lemma LoopStep(input: seq<Leader>, before: seq<Leader>, after: seq<Leader>, i: nat, env: Env, rewrite: Rewrite)
    requires i < |input| == |before| == |after|
    requires before[..i] == Run(input[..i], env, rewrite) && before[i..] == input[i..]
    requires after[i] == Migrate(before[i], env, rewrite)
    requires forall j :: 0 <= j < |after| && j != i ==> after[j] == before[j]
    ensures after[..i + 1] == Run(input[..i + 1], env, rewrite)
    ensures after[i + 1..] == input[i + 1..]
    ensures Log(input[..i + 1], env, rewrite) ==
      Log(input[..i], env, rewrite) + MessagesOf(input[i], Process(input[i], env, rewrite))
    ensures Uploads(input[..i + 1], env) ==
      Uploads(input[..i], env) + match RequestOf(input[i], env) case Some(r) => [r] case None => []
  {
    assert before[i] == input[i] by {
      assert before[i..][0] == input[i..][0];
    }
    assert input[..i + 1][..i] == input[..i];
    assert after[..i] == before[..i];
    assert after[i + 1..] == before[i + 1..];
    assert before[i + 1..] == before[i..][1..];
    assert after[..i + 1] == after[..i] + [after[i]];
  }

  /**
   * The loop body for `leaders[i]`, inside its `try`: the guard, the local
   * file check, the upload, and the rewrite and save. Returns what it writes
   * and the upload it sends.
   */
  method HandleOne(leaders: array<Leader>, i: nat, env: Env, rewrite: Rewrite)
    returns (messages: seq<Message>, sent: seq<UploadRequest>)
    requires i < leaders.Length
    modifies leaders
    ensures leaders[i] == Migrate(old(leaders[i]), env, rewrite)
    ensures forall j :: 0 <= j < leaders.Length && j != i ==> leaders[j] == old(leaders[j])
    ensures messages == MessagesOf(old(leaders[i]), Process(old(leaders[i]), env, rewrite))
    ensures sent == match RequestOf(old(leaders[i]), env) case Some(r) => [r] case None => []
  {
    messages, sent := [], [];
    var leader := leaders[i];
    if leader.image != [] && !("v" <= leader.image) {
      match env.localPath(leader.image) {
        case None =>
          messages := [Error(leader.name, PathRaised)];
        case Some(path) =>
          if env.fileExists(path) {
            var request := UploadRequest(path, UploadFolder, UploadResourceType);
            sent := [request];
            match env.upload(request) {
              case None =>
                messages := [Error(leader.name, UploadRaised)];
              case Some(response) =>
                match RewrittenImage(response, rewrite) {
                  case Err(e) =>
                    messages := [Error(leader.name, e)];
                  case Ok(image) =>
                    leaders[i] := leader.(image := image);
                    messages := [Success(leader.name)];
                }
            }
          } else {
            messages := [Warning(leader.name, path)];
          }
      }
    }
  }

  /** Each record's result depends on that record alone, whatever happened to the others. */
  lemma {:induction false} RunPointwise(leaders: seq<Leader>, env: Env, rewrite: Rewrite, i: nat)
    requires i < |leaders|
    ensures Run(leaders, env, rewrite)[i] == Migrate(leaders[i], env, rewrite)
  {
    var n := |leaders| - 1;
    if i < n {
      RunPointwise(leaders[..n], env, rewrite, i);
    }
  }

  /**
   * Failure isolation: replacing record k by anything (one whose upload
   * raises, say) changes no other record's result.
   */
  lemma OtherRecordsUnaffected(leaders: seq<Leader>, env: Env, rewrite: Rewrite, k: nat, other: Leader, j: nat)
    requires k < |leaders| && j < |leaders| && j != k
    ensures Run(leaders[k := other], env, rewrite)[j] == Run(leaders, env, rewrite)[j]
  {
    RunPointwise(leaders, env, rewrite, j);
    RunPointwise(leaders[k := other], env, rewrite, j);
  }

  /**
   * A record whose local file is missing gets a warning naming the path, no
   * upload, and keeps its value.
   */
  lemma MissingFileWarnsAndKeeps(leaders: seq<Leader>, env: Env, rewrite: Rewrite, i: nat, path: string)
    requires i < |leaders| && IsCandidate(leaders[i].image)
    requires env.localPath(leaders[i].image) == Some(path) && !env.fileExists(path)
    ensures Run(leaders, env, rewrite)[i] == leaders[i]
    ensures RequestOf(leaders[i], env).None?
    ensures MessagesOf(leaders[i], Process(leaders[i], env, rewrite)) == [Warning(leaders[i].name, path)]
  {
    RunPointwise(leaders, env, rewrite, i);
  }

  /**
   * A record whose pass raises (resolving the local path or the upload) gets
   * an error line and keeps its value; the loop goes on.
   */
  lemma RaisingPassLogsErrorAndKeeps(leaders: seq<Leader>, env: Env, rewrite: Rewrite, i: nat)
    requires i < |leaders| && IsCandidate(leaders[i].image)
    requires env.localPath(leaders[i].image).None? ||
             (RequestOf(leaders[i], env).Some? && env.upload(RequestOf(leaders[i], env).value).None?)
    ensures Run(leaders, env, rewrite)[i] == leaders[i]
    ensures var m := MessagesOf(leaders[i], Process(leaders[i], env, rewrite));
      |m| == 1 && m[0].Error? && m[0].name == leaders[i].name
  {
    RunPointwise(leaders, env, rewrite, i);
  }

  /** Every upload goes to the leadership folder as an image, at most one per record. */
  lemma {:induction false} UploadsTargetLeadership(leaders: seq<Leader>, env: Env)
    ensures |Uploads(leaders, env)| <= |leaders|
    ensures forall r :: r in Uploads(leaders, env) ==> r.folder == "leadership" && r.resourceType == "image"
  {
    if leaders != [] {
      UploadsTargetLeadership(leaders[..|leaders| - 1], env);
    }
  }

  /**
   * As written, a response whose version is an int (the remote store's JSON
   * number) makes the rewrite raise after the file was uploaded: the record
   * keeps its legacy value and an error is logged.
   */
  lemma IntVersionUploadsButKeepsRecord(leader: Leader, env: Env, response: UploadResponse)
    requires RequestOf(leader, env).Some? && env.upload(RequestOf(leader, env).value) == Some(response)
    requires response.version.PyInt?
    ensures Migrate(leader, env, AsWritten) == leader
    ensures MessagesOf(leader, Process(leader, env, AsWritten)) == [Error(leader.name, VersionTypeError)]
  {
  }

  /**
   * As written, even a textual version yields a value the loop's guard does
   * not recognise as migrated: the next run processes the record again.
   */
  lemma AsWrittenValueNotRecognised(version: string, publicId: string)
    requires version != [] && IsDigits(version)
    ensures var image := RewrittenImage(UploadResponse(PyStr(version), publicId), AsWritten);
      image.Ok? && Classify(image.value) == LegacyLocalPath && IsCandidate(image.value)
  {
    var image := version + "/" + publicId;
    assert image[0] == version[0] && '0' <= version[0] <= '9';
  }

  /** With the canonical rewrite, a successful upload always migrates the record: no TypeError. */
  lemma CanonicalUploadMigrates(leader: Leader, env: Env, response: UploadResponse)
    requires RequestOf(leader, env).Some? && env.upload(RequestOf(leader, env).value) == Some(response)
    ensures Process(leader, env, Canonical) == Migrated(VersionedId(PyText(response.version), response.publicId))
  {
  }

  /**
   * Once-only migration with the canonical rewrite: a record migrated by one
   * run is skipped by every later run, which neither uploads it again nor
   * changes it.
   */
  lemma CanonicalRerunSkipsMigrated(leaders: seq<Leader>, env: Env, env2: Env, i: nat)
    requires i < |leaders| && Process(leaders[i], env, Canonical).Migrated?
    ensures var once := Run(leaders, env, Canonical);
      Process(once[i], env2, Canonical).Skipped? &&
      RequestOf(once[i], env2).None? &&
      Run(once, env2, Canonical)[i] == once[i]
  {
    var once := Run(leaders, env, Canonical);
    RunPointwise(leaders, env, Canonical, i);
    RunPointwise(once, env2, Canonical, i);
  }

  /** A versioned or unset record is never altered by a run, whichever rewrite is used. */
  lemma VersionedRecordsStable(leaders: seq<Leader>, env: Env, rewrite: Rewrite, i: nat)
    requires i < |leaders| && Classify(leaders[i].image) in {Unset, RemoteVersionedId}
    ensures Run(leaders, env, rewrite)[i] == leaders[i]
    ensures RequestOf(leaders[i], env).None?
  {
    RunPointwise(leaders, env, rewrite, i);
  }
}

/**
 * `createEnvFile` (src/createEnvfile.ts): validate the type, remove any file
 * at the destination, fetch and merge the records, filter them, append
 * `addParams`, then append one line per entry.
 */
module Pipeline {
  import opened Wrappers
  import opened Errors
  import opened Records
  import opened ParameterStore
  import opened Whitelist
  import opened EnvFormat

  /** `ICreateEnvFileParams`; region and profile only configure the AWS clients and are left out. */
  datatype Params = Params(
    fileType: string,
    outputDir: string,
    secretIds: Option<seq<string>>,
    parameterPath: Option<string>,
    outputWhitelist: Option<seq<string>>,
    keyMapping: Option<map<string, string>>,
    addParams: Option<Record>,
    outputFilename: Option<string>)

  /**
   * The two remote stores, as the replies they give: the parsed secret of an
   * id (or the SDK error, rethrown as is), and the reply to a
   * `getParametersByPath` request for a path.
   */
  datatype Remote = Remote(
    secretJson: string -> Result<Record, AwsError>,
    parametersByPath: string -> Reply)

  /** `outputFilenameIncludedPath`: the directory followed by the explicit file name, or by the type. */
  function OutputFilenameIncludedPath(p: Params): (r: string)
    ensures |r| >= |p.outputDir| && r[..|p.outputDir|] == p.outputDir
    ensures p.outputFilename.Some? ==> r[|p.outputDir|..] == p.outputFilename.value
    ensures p.outputFilename.None? && IsAllowedFileType(p.fileType) ==> r[|p.outputDir|..] == FileName(FileTypeOf(p.fileType))
  {
    if p.outputFilename.None? then p.outputDir + p.fileType else p.outputDir + p.outputFilename.value
  }

  /**
   * The `Promise.all` over the secret ids: one record per id, in id order;
   * the run fails with the error of a failing id (the first in id order).
   */
  function FetchSecrets(ids: seq<string>, secretJson: string -> Result<Record, AwsError>): (r: Result<seq<Record>, EnvError>)
    ensures r.Success? <==> forall i :: 0 <= i < |ids| ==> secretJson(ids[i]).Success?
    ensures r.Success? ==> |r.value| == |ids| && forall i :: 0 <= i < |ids| ==> r.value[i] == secretJson(ids[i]).value
    ensures r.Failure? ==> exists i :: 0 <= i < |ids| && secretJson(ids[i]).Failure? && r.error == Aws(secretJson(ids[i]).error)
  {
    if ids == [] then Success([])
    else
      match secretJson(ids[0])
      case Failure(e) => Failure(Aws(e))
      case Success(record) =>
        match FetchSecrets(ids[1..], secretJson)
        case Failure(e) =>
          assert exists i :: 0 <= i < |ids[1..]| && secretJson(ids[1..][i]).Failure? && e == Aws(secretJson(ids[1..][i]).error);
          Failure(e)
        case Success(records) =>
          Success([record] + records)
  }

  /** The part of `fetchFromAwsDataStore` before the filter: validation, then secrets before parameters. */
  function FetchedRecords(p: Params, remote: Remote): Result<seq<Record>, EnvError> {
    if p.secretIds.None? && p.parameterPath.None? then Failure(InvalidParams)
    else
      var secretJsons :-
        if p.secretIds.Some? then FetchSecrets(p.secretIds.value, remote.secretJson) else Success([]);
      var storeParamsList :-
        if p.parameterPath.Some?
        then FetchFromParameterStore(remote.parametersByPath(p.parameterPath.value), p.parameterPath.value)
        else Success([]);
      Success(secretJsons + storeParamsList)
  }

  /** What `fetchFromAwsDataStore` resolves to. */
  function DataStoreRecords(p: Params, remote: Remote): Result<seq<Record>, EnvError> {
    match FetchedRecords(p, remote)
    case Failure(e) => Failure(e)
    case Success(list) => Success(IncludedInWhitelist(list, p.outputWhitelist))
  }

  /** `outputParams`: the filtered records, then `addParams` as one last, unfiltered record. */
  function OutputRecords(p: Params, remote: Remote): (r: Result<seq<Record>, EnvError>)
    ensures r.Success? <==> DataStoreRecords(p, remote).Success?
    ensures r.Failure? ==> r.error == DataStoreRecords(p, remote).error
    ensures r.Success? && p.addParams.None? ==> r.value == DataStoreRecords(p, remote).value
    ensures r.Success? && p.addParams.Some? ==>
      |r.value| == |DataStoreRecords(p, remote).value| + 1
      && r.value[..|r.value| - 1] == DataStoreRecords(p, remote).value
      && r.value[|r.value| - 1] == p.addParams.value
  {
    match DataStoreRecords(p, remote)
    case Failure(e) => Failure(e)
    case Success(list) => Success(if p.addParams.None? then list else list + [p.addParams.value])
  }

  /** A file's appended chunks; an absent file reads as empty. */
  function ContentOf(files: map<string, seq<string>>, path: string): seq<string> {
    if path in files then files[path] else []
  }

  /** The file system after appending `lines` to `path` one by one; appending nothing creates nothing. */
  function Appended(files: map<string, seq<string>>, path: string, lines: seq<string>): map<string, seq<string>> {
    if lines == [] then files else files[path := ContentOf(files, path) + lines]
  }

  lemma AppendedTwice(files: map<string, seq<string>>, path: string, a: seq<string>, b: seq<string>)
    ensures Appended(Appended(files, path, a), path, b) == Appended(files, path, a + b)
  {
    if a == [] {
      assert a + b == b;
    } else if b == [] {
      assert a + b == a;
    } else {
      var before := ContentOf(files, path);
      assert ContentOf(Appended(files, path, a), path) == before + a;
      assert (before + a) + b == before + (a + b);
    }
  }

  /** Paths other than `path` are as they were. */
  ghost predicate OthersUnchanged(before: map<string, seq<string>>, after: map<string, seq<string>>, path: string) {
    forall q :: q != path ==> (q in after <==> q in before) && (q in before ==> after[q] == before[q])
  }

  /**
   * The whole run as a function of its inputs and of the file system before
   * it: the outcome, and the file system after it.
   */
  function Run(p: Params, remote: Remote, files: map<string, seq<string>>): (r: (Outcome<EnvError>, map<string, seq<string>>))
    // a run passes exactly when the type is valid and every fetch succeeds
    ensures r.0.Pass? <==> IsAllowedFileType(p.fileType) && OutputRecords(p, remote).Success?
    // a fetch failure reaches the caller as it is
    ensures IsAllowedFileType(p.fileType) && OutputRecords(p, remote).Failure? ==> r.0 == Fail(OutputRecords(p, remote).error)
    // the destination is the only path a run may change
    ensures OthersUnchanged(files, r.1, OutputFilenameIncludedPath(p))
  {
    if !IsAllowedFileType(p.fileType) then (Fail(InvalidFileType), files)
    else
      var path := OutputFilenameIncludedPath(p);
      var cleared := files - {path};
      match OutputRecords(p, remote)
      case Failure(e) => (Fail(e), cleared)
      case Success(rs) => (Pass, Appended(cleared, path, RenderRecords(FileTypeOf(p.fileType), rs, p.keyMapping)))
  }

  /** The file system the run works on: path to the chunks appended to that file, in order. */
  class FileSystem {
    var files: map<string, seq<string>>

    constructor (initial: map<string, seq<string>>)
      ensures files == initial
    {
      files := initial;
    }

    /** `targetFileExists`: whether `stat` succeeds. */
    method TargetFileExists(path: string) returns (found: bool)
      ensures found <==> path in files
    {
      found := path in files;
    }

    /** `removeFile`: `unlink`, called only on a path that exists. */
    method RemoveFile(path: string)
      requires path in files
      modifies this
      ensures files == old(files) - {path}
    {
      files := files - {path};
    }

    /** `appendFile`: creates the file when missing, then appends `text`. */
    method AppendFile(path: string, text: string)
      modifies this
      ensures files == Appended(old(files), path, [text])
    {
      files := files[path := ContentOf(files, path) + [text]];
    }
  }

  /** Rendering one more entry adds its line at the end. */
  lemma RenderEntriesStep(t: FileType, es: seq<Entry>, j: nat, keyMapping: Option<map<string, string>>)
    requires j < |es|
    ensures RenderEntries(t, es[..j + 1], keyMapping)
         == RenderEntries(t, es[..j], keyMapping) + [Line(t, EmittedKey(es[j].0, keyMapping), ValueToString(es[j].1))]
  {
    assert es[..j + 1] == es[..j] + [es[j]];
    RenderEntriesAppend(t, es[..j], [es[j]], keyMapping);
  }

  /**
   * The callback given to `outputParams.map` by `createDotEnv`, `createEnvrc`
   * and `createTfvars`, which differ only in the line grammar: append one line
   * per entry of one record, in the record's key order.
   */
  method AppendRecord(fs: FileSystem, outputFile: string, t: FileType, outputParam: Record,
                      keyMapping: Option<map<string, string>>)
    modifies fs
    ensures fs.files == Appended(old(fs.files), outputFile, RenderEntries(t, outputParam, keyMapping))
  {
    for j := 0 to |outputParam|
      invariant fs.files == Appended(old(fs.files), outputFile, RenderEntries(t, outputParam[..j], keyMapping))
    {
      var (key, value) := outputParam[j];
      var keyName := EmittedKey(key, keyMapping);
      var line := Line(t, keyName, ValueToString(value));
      RenderEntriesStep(t, outputParam, j, keyMapping);
      AppendedTwice(old(fs.files), outputFile, RenderEntries(t, outputParam[..j], keyMapping), [line]);
      fs.AppendFile(outputFile, line);
    }
    assert outputParam[..|outputParam|] == outputParam;
  }

  /**
   * `createDotEnv`, `createEnvrc` and `createTfvars`: the callback for every
   * record, one record after the other.
   */
  method AppendRecords(fs: FileSystem, outputFile: string, t: FileType, outputParams: seq<Record>,
                       keyMapping: Option<map<string, string>>)
    modifies fs
    ensures fs.files == Appended(old(fs.files), outputFile, RenderRecords(t, outputParams, keyMapping))
  {
    for i := 0 to |outputParams|
      invariant fs.files == Appended(old(fs.files), outputFile, RenderRecords(t, outputParams[..i], keyMapping))
    {
      ghost var done := RenderRecords(t, outputParams[..i], keyMapping);
      AppendRecord(fs, outputFile, t, outputParams[i], keyMapping);
      AppendedTwice(old(fs.files), outputFile, done, RenderEntries(t, outputParams[i], keyMapping));
      assert outputParams[..i + 1][..i] == outputParams[..i];
      assert Flatten(outputParams[..i + 1]) == Flatten(outputParams[..i]) + outputParams[i];
      RenderEntriesAppend(t, Flatten(outputParams[..i]), outputParams[i], keyMapping);
    }
    assert outputParams[..|outputParams|] == outputParams;
  }

  /** `fetchFromAwsDataStore`. */
  method FetchFromAwsDataStore(p: Params, remote: Remote) returns (r: Result<seq<Record>, EnvError>)
    ensures r == DataStoreRecords(p, remote)
  {
    if p.secretIds.None? && p.parameterPath.None? {
      return Failure(InvalidParams);
    }
    var secretJsons: seq<Record> := [];
    if p.secretIds.Some? {
      var fetched := FetchSecrets(p.secretIds.value, remote.secretJson);
      if fetched.Failure? {
        return Failure(fetched.error);
      }
      secretJsons := fetched.value;
    }
    var storeParamsList: seq<Record> := [];
    if p.parameterPath.Some? {
      var path := p.parameterPath.value;
      var fetched := FetchFromParameterStore(remote.parametersByPath(path), path);
      if fetched.Failure? {
        return Failure(fetched.error);
      }
      storeParamsList := fetched.value;
    }
    var filtered := ParamsListIncludedInWhitelist(secretJsons + storeParamsList, p.outputWhitelist);
    r := Success(filtered);
  }

  /** `createEnvFile`. */
  method CreateEnvFile(fs: FileSystem, p: Params, remote: Remote) returns (r: Outcome<EnvError>)
    modifies fs
    ensures (r, fs.files) == Run(p, remote, old(fs.files))
  {
    if !IsAllowedFileType(p.fileType) {
      return Fail(InvalidFileType);
    }
    var outputFile := OutputFilenameIncludedPath(p);
    var found := fs.TargetFileExists(outputFile);
    if found {
      fs.RemoveFile(outputFile);
    }
    assert fs.files == old(fs.files) - {outputFile};
    var awsDataStoreParamsList := FetchFromAwsDataStore(p, remote);
    if awsDataStoreParamsList.Failure? {
      return Fail(awsDataStoreParamsList.error);
    }
    var outputParams := if p.addParams.None? then awsDataStoreParamsList.value
                        else awsDataStoreParamsList.value + [p.addParams.value];
    match p.fileType {
      case ".env" => AppendRecords(fs, outputFile, DotEnv, outputParams, p.keyMapping);
      case ".envrc" => AppendRecords(fs, outputFile, Direnv, outputParams, p.keyMapping);
      case "terraform.tfvars" => AppendRecords(fs, outputFile, Terraform, outputParams, p.keyMapping);
      case _ => assert false;
    }
    r := Pass;
  }

  // ---- properties of a run ----

  /** An unknown type rejects with InvalidFileTypeError before any file operation or fetch. */
  lemma InvalidTypeTouchesNothing(p: Params, remote: Remote, files: map<string, seq<string>>)
    requires !IsAllowedFileType(p.fileType)
    ensures Run(p, remote, files) == (Fail(InvalidFileType), files)
    ensures Run(p, remote, files).0.error.Name() == "InvalidFileTypeError"
    ensures Run(p, remote, files).0.error.Message() == "It's a file type that is not allowed"
  {
  }

  /**
   * Without `secretIds` and `parameterPath` the run rejects with
   * InvalidParamsError, and by then the old destination file is gone; no other
   * path changes.
   */
  lemma MissingSourceAfterRemoval(p: Params, remote: Remote, files: map<string, seq<string>>)
    requires IsAllowedFileType(p.fileType) && p.secretIds.None? && p.parameterPath.None?
    ensures Run(p, remote, files).0 == Fail(InvalidParams)
    ensures Run(p, remote, files).0.error.Message() == "secretIds or parameterPath is required"
    ensures OutputFilenameIncludedPath(p) !in Run(p, remote, files).1
    ensures OthersUnchanged(files, Run(p, remote, files).1, OutputFilenameIncludedPath(p))
  {
  }

  /** A failed run writes nothing: at most it has removed the destination. */
  lemma FailedRunWritesNothing(p: Params, remote: Remote, files: map<string, seq<string>>)
    requires Run(p, remote, files).0.Fail?
    ensures Run(p, remote, files).1 == files || Run(p, remote, files).1 == files - {OutputFilenameIncludedPath(p)}
    ensures IsAllowedFileType(p.fileType) ==> OutputFilenameIncludedPath(p) !in Run(p, remote, files).1
  {
  }

  /**
   * A successful run leaves at the destination exactly one line per entry of
   * the output records, and nothing from before; when there is no entry no file
   * is created. No other path changes.
   */
  lemma SuccessWritesRenderedLines(p: Params, remote: Remote, files: map<string, seq<string>>)
    requires Run(p, remote, files).0 == Pass
    ensures IsAllowedFileType(p.fileType) && OutputRecords(p, remote).Success?
    ensures
      var lines := RenderRecords(FileTypeOf(p.fileType), OutputRecords(p, remote).value, p.keyMapping);
      var after := Run(p, remote, files).1;
      && |lines| == EntryCount(OutputRecords(p, remote).value)
      && (lines == [] ==> OutputFilenameIncludedPath(p) !in after)
      && (lines != [] ==> OutputFilenameIncludedPath(p) in after && after[OutputFilenameIncludedPath(p)] == lines)
    ensures OthersUnchanged(files, Run(p, remote, files).1, OutputFilenameIncludedPath(p))
  {
    FlattenLength(OutputRecords(p, remote).value);
  }

  /**
   * A validated run touches one path only: `outputDir` followed by
   * `outputFilename` when it is given, and by the type's default file name
   * otherwise. A success leaves the rendered lines there; a failure leaves no
   * file there.
   */
  lemma WritesOnlyDestination(p: Params, remote: Remote, files: map<string, seq<string>>)
    requires IsAllowedFileType(p.fileType)
    ensures
      var path := p.outputDir + (if p.outputFilename.Some? then p.outputFilename.value else FileName(FileTypeOf(p.fileType)));
      var after := Run(p, remote, files).1;
      && OthersUnchanged(files, after, path)
      && (Run(p, remote, files).0.Fail? ==> path !in after)
      && (Run(p, remote, files).0.Pass? ==>
            OutputRecords(p, remote).Success?
            && ContentOf(after, path) == RenderRecords(FileTypeOf(p.fileType), OutputRecords(p, remote).value, p.keyMapping))
  {
  }

  /**
   * Line `i` of the written file carries entry `i`'s key through `keyMapping`:
   * the mapped name when the mapping has the key with a non-empty name, the
   * key itself otherwise.
   */
  lemma KeyMappingApplied(p: Params, remote: Remote, files: map<string, seq<string>>, i: nat)
    requires Run(p, remote, files).0 == Pass
    requires OutputRecords(p, remote).Success? && i < |Flatten(OutputRecords(p, remote).value)|
    ensures IsAllowedFileType(p.fileType)
    ensures
      var e := Flatten(OutputRecords(p, remote).value)[i];
      var t := FileTypeOf(p.fileType);
      var after := Run(p, remote, files).1;
      var path := OutputFilenameIncludedPath(p);
      && path in after && i < |after[path]|
      && (p.keyMapping.Some? && e.0 in p.keyMapping.value && p.keyMapping.value[e.0] != "" ==>
            after[path][i] == Line(t, p.keyMapping.value[e.0], ValueToString(e.1)))
      && (p.keyMapping.None? || e.0 !in p.keyMapping.value || p.keyMapping.value[e.0] == "" ==>
            after[path][i] == Line(t, e.0, ValueToString(e.1)))
  {
  }

  /**
   * A Parameter Store failure reaches the caller of `createEnvFile`, whether or
   * not secrets were fetched first, as an AwsEnvCreatorError whose message is the SDK error's code, or its message
   * when it has no code.
   */
  lemma ParameterStoreFailureReachesCaller(p: Params, remote: Remote, files: map<string, seq<string>>, e: AwsError)
    requires IsAllowedFileType(p.fileType) && p.parameterPath.Some?
    requires p.secretIds.Some? ==> FetchSecrets(p.secretIds.value, remote.secretJson).Success?
    requires remote.parametersByPath(p.parameterPath.value) == Rejected(e)
    ensures Run(p, remote, files).0 == Fail(Rewrap(e))
    ensures Run(p, remote, files).0.error.Name() == "AwsEnvCreatorError"
    ensures e.code.Some? ==> Run(p, remote, files).0.error.Message() == e.code.value
    ensures e.code.None? ==> Run(p, remote, files).0.error.Message() == e.message
  {
    assert FetchedRecords(p, remote) == Failure(Rewrap(e));
  }

  /** A failing secret fetch reaches the caller with its SDK error unchanged. */
  lemma SecretFailureReachesCaller(p: Params, remote: Remote, files: map<string, seq<string>>, i: nat)
    requires IsAllowedFileType(p.fileType) && p.secretIds.Some? && i < |p.secretIds.value|
    requires remote.secretJson(p.secretIds.value[i]).Failure?
    ensures exists j :: 0 <= j < |p.secretIds.value| && remote.secretJson(p.secretIds.value[j]).Failure?
                        && Run(p, remote, files).0 == Fail(Aws(remote.secretJson(p.secretIds.value[j]).error))
  {
    var fetched := FetchSecrets(p.secretIds.value, remote.secretJson);
    assert fetched.Failure?;
    assert FetchedRecords(p, remote) == Failure(fetched.error);
  }

  /** The secret of the key-mapping and `outputFilename` unit tests. */
  const TestSecret: Record := [
    ("SECRET_ID", Str("dev/app")),
    ("ANOTHER_API_KEY", Str("another_api_key")),
    ("ANOTHER_API_SECRET", Str("another_api_secret"))]

  /** The one fetch of a single-secret run whose secret is `secret`, with no allow-list. */
  lemma SingleSecretRecords(p: Params, remote: Remote, secret: Record)
    requires p.secretIds == Some(["dev/app"]) && p.parameterPath.None? && p.outputWhitelist.None?
    requires remote.secretJson("dev/app") == Success(secret)
    ensures OutputRecords(p, remote) == Success([secret] + (if p.addParams.Some? then [p.addParams.value] else []))
  {
    var ids := ["dev/app"];
    assert ids[1..] == [];
    assert FetchSecrets(ids[1..], remote.secretJson) == Success([]);
    assert [secret] + [] == [secret];
    assert FetchSecrets(ids, remote.secretJson) == Success([secret]);
    assert DataStoreRecords(p, remote) == Success([secret]);
  }

  /** The parameters of the key-mapping unit test: every key of the secret renamed. */
  const MappingParams := Params(".env", "./", Some(["dev/app"]), None, None,
    Some(map["SECRET_ID" := "SECRET_CODE", "ANOTHER_API_KEY" := "AWS_API_KEY", "ANOTHER_API_SECRET" := "AWS_API_SECRET"]),
    None, None)

  /** A constructed partial mapping: one key renamed, one mapped to the empty string, one absent. */
  const PartialMappingParams := Params(".env", "./", Some(["dev/app"]), None, None,
    Some(map["SECRET_ID" := "SECRET_CODE", "ANOTHER_API_KEY" := ""]), None, None)

  /** A single three-entry record renders as three lines, in entry order. */
  lemma ThreeLines(secret: Record, keyMapping: Option<map<string, string>>, names: seq<string>, texts: seq<string>)
    requires |secret| == 3 && |names| == 3 && |texts| == 3
    requires names[0] == EmittedKey(secret[0].0, keyMapping) && secret[0].1 == Str(texts[0])
    requires names[1] == EmittedKey(secret[1].0, keyMapping) && secret[1].1 == Str(texts[1])
    requires names[2] == EmittedKey(secret[2].0, keyMapping) && secret[2].1 == Str(texts[2])
    ensures RenderRecords(DotEnv, [secret], keyMapping) == [
      Line(DotEnv, names[0], texts[0]), Line(DotEnv, names[1], texts[1]), Line(DotEnv, names[2], texts[2])]
  {
    assert Flatten([secret]) == secret by {
      assert [secret][..0] == [];
    }
    var r := RenderEntries(DotEnv, secret, keyMapping);
    assert r[0] == Line(DotEnv, names[0], texts[0]);
    assert r[1] == Line(DotEnv, names[1], texts[1]);
    assert r[2] == Line(DotEnv, names[2], texts[2]);
  }

  /** A single-record `.env` run whose fetch gives `[secret]` leaves exactly the rendered lines at `./.env`. */
  lemma DotEnvRun(p: Params, remote: Remote, files: map<string, seq<string>>, secret: Record)
    requires p.fileType == ".env" && p.outputDir == "./" && p.outputFilename.None? && p.addParams.None?
    requires OutputRecords(p, remote) == Success([secret])
    requires RenderRecords(DotEnv, [secret], p.keyMapping) != []
    ensures Run(p, remote, files) == (Pass, (files - {"./.env"})["./.env" := RenderRecords(DotEnv, [secret], p.keyMapping)])
  {
    var lines := RenderRecords(DotEnv, [secret], p.keyMapping);
    assert OutputFilenameIncludedPath(p) == "./.env";
    assert ContentOf(files - {"./.env"}, "./.env") == [];
    assert [] + lines == lines;
  }

  /** The key-mapping unit test: `./.env` holds the three renamed keys with their values. */
  lemma KeyMappingScenario(remote: Remote, files: map<string, seq<string>>)
    requires remote.secretJson("dev/app") == Success(TestSecret)
    ensures Run(MappingParams, remote, files) == (Pass, (files - {"./.env"})["./.env" := [
      Line(DotEnv, "SECRET_CODE", "dev/app"),
      Line(DotEnv, "AWS_API_KEY", "another_api_key"),
      Line(DotEnv, "AWS_API_SECRET", "another_api_secret")]])
  {
    var p := MappingParams;
    SingleSecretRecords(p, remote, TestSecret);
    assert [TestSecret] + [] == [TestSecret];
    ThreeLines(TestSecret, p.keyMapping, ["SECRET_CODE", "AWS_API_KEY", "AWS_API_SECRET"],
               ["dev/app", "another_api_key", "another_api_secret"]);
    DotEnvRun(p, remote, files, TestSecret);
  }

  /** Only the key with a non-empty mapped name is renamed; the others keep their names. */
  lemma PartialMappingScenario(remote: Remote, files: map<string, seq<string>>)
    requires remote.secretJson("dev/app") == Success(TestSecret)
    ensures Run(PartialMappingParams, remote, files) == (Pass, (files - {"./.env"})["./.env" := [
      Line(DotEnv, "SECRET_CODE", "dev/app"),
      Line(DotEnv, "ANOTHER_API_KEY", "another_api_key"),
      Line(DotEnv, "ANOTHER_API_SECRET", "another_api_secret")]])
  {
    var p := PartialMappingParams;
    SingleSecretRecords(p, remote, TestSecret);
    assert [TestSecret] + [] == [TestSecret];
    ThreeLines(TestSecret, p.keyMapping, ["SECRET_CODE", "ANOTHER_API_KEY", "ANOTHER_API_SECRET"],
               ["dev/app", "another_api_key", "another_api_secret"]);
    DotEnvRun(p, remote, files, TestSecret);
  }

  /** The parameters of the `outputFilename` unit test: `.env` lines written to `./.env.example`. */
  const ExampleFileParams := Params(".env", "./", Some(["dev/app"]), None, None, None,
                                    Some([("APP_URL", Str("http://localhost/3000"))]), Some(".env.example"))

  /**
   * The `outputFilename` unit test: `./.env.example` holds the secret's three
   * lines and then the `addParams` line, and `./.env` is left as it was.
   */
  lemma OutputFilenameScenario(remote: Remote, files: map<string, seq<string>>)
    requires remote.secretJson("dev/app") == Success(TestSecret)
    ensures Run(ExampleFileParams, remote, files) == (Pass, (files - {"./.env.example"})["./.env.example" := [
      Line(DotEnv, "SECRET_ID", "dev/app"),
      Line(DotEnv, "ANOTHER_API_KEY", "another_api_key"),
      Line(DotEnv, "ANOTHER_API_SECRET", "another_api_secret"),
      Line(DotEnv, "APP_URL", "http://localhost/3000")]])
    ensures "./.env" in files ==> "./.env" in Run(ExampleFileParams, remote, files).1
                                  && Run(ExampleFileParams, remote, files).1["./.env"] == files["./.env"]
  {
    var p := ExampleFileParams;
    var extra: Record := [("APP_URL", Str("http://localhost/3000"))];
    SingleSecretRecords(p, remote, TestSecret);
    assert p.addParams.value == extra;
    assert [TestSecret] + [extra] == [TestSecret, extra];
    assert OutputRecords(p, remote) == Success([TestSecret, extra]);
    var out: seq<Record> := [TestSecret, extra];
    assert Flatten(out) == TestSecret + extra by {
      assert out[..1] == [TestSecret];
      assert [TestSecret][..0] == [];
      assert Flatten([TestSecret]) == TestSecret;
    }
    var lines := RenderRecords(DotEnv, out, None);
    assert lines == [Line(DotEnv, "SECRET_ID", "dev/app"), Line(DotEnv, "ANOTHER_API_KEY", "another_api_key"),
                     Line(DotEnv, "ANOTHER_API_SECRET", "another_api_secret"),
                     Line(DotEnv, "APP_URL", "http://localhost/3000")];
    assert OutputFilenameIncludedPath(p) == "./.env.example";
    assert ContentOf(files - {"./.env.example"}, "./.env.example") == [];
    assert [] + lines == lines;
  }

  /** Running twice in a row leaves what running once leaves. */
  lemma RunIdempotent(p: Params, remote: Remote, files: map<string, seq<string>>)
    ensures Run(p, remote, Run(p, remote, files).1) == Run(p, remote, files)
  {
    if IsAllowedFileType(p.fileType) {
      var path := OutputFilenameIncludedPath(p);
      var once := Run(p, remote, files).1;
      assert once - {path} == files - {path};
    }
  }

  /**
   * The output records of any run that passes validation: the secret records
   * in id order, then the Parameter Store records, both filtered record by
   * record, then `addParams` unfiltered. A source that is not given
   * contributes nothing.
   */
  lemma OutputOrder(p: Params, remote: Remote, secrets: seq<Record>, stored: seq<Record>)
    requires p.secretIds.Some? || p.parameterPath.Some?
    requires p.secretIds.Some? ==> FetchSecrets(p.secretIds.value, remote.secretJson) == Success(secrets)
    requires p.secretIds.None? ==> secrets == []
    requires p.parameterPath.Some? ==>
      FetchFromParameterStore(remote.parametersByPath(p.parameterPath.value), p.parameterPath.value) == Success(stored)
    requires p.parameterPath.None? ==> stored == []
    ensures OutputRecords(p, remote) == Success(
      IncludedInWhitelist(secrets, p.outputWhitelist) + IncludedInWhitelist(stored, p.outputWhitelist)
      + (if p.addParams.Some? then [p.addParams.value] else []))
  {
    assert FetchedRecords(p, remote) == Success(secrets + stored);
    WhitelistAppend(secrets, stored, p.outputWhitelist);
    var list := IncludedInWhitelist(secrets + stored, p.outputWhitelist);
    assert DataStoreRecords(p, remote) == Success(list);
    assert list + [] == list;
  }

  /** `addParams` escapes the allow-list: every one of its entries is rendered, as the last lines of the file. */
  lemma AddParamsRenderedLast(p: Params, remote: Remote, files: map<string, seq<string>>)
    requires Run(p, remote, files).0 == Pass
    requires p.addParams.Some? && |p.addParams.value| > 0
    ensures IsAllowedFileType(p.fileType) && DataStoreRecords(p, remote).Success?
    ensures OutputFilenameIncludedPath(p) in Run(p, remote, files).1
    ensures
      var t := FileTypeOf(p.fileType);
      Run(p, remote, files).1[OutputFilenameIncludedPath(p)]
        == RenderRecords(t, DataStoreRecords(p, remote).value, p.keyMapping)
         + RenderEntries(t, p.addParams.value, p.keyMapping)
  {
    var t := FileTypeOf(p.fileType);
    var path := OutputFilenameIncludedPath(p);
    var list := DataStoreRecords(p, remote).value;
    var extra := p.addParams.value;
    RenderRecordsAppend(t, list, [extra], p.keyMapping);
    assert Flatten([extra]) == extra by {
      assert [extra][..0] == [];
    }
    var lines := RenderRecords(t, list + [extra], p.keyMapping);
    assert |lines| > 0;
    assert ContentOf(files - {path}, path) == [];
    assert [] + lines == lines;
  }

  /** The parameters of the allow-list scenario below. */
  const ScenarioParams := Params(".env", "./", Some(["dev/app"]), None, Some(["SECRET_ID", "ANOTHER_API_KEY"]),
                                 None, Some([("APP_URL", Str("http://localhost/3000"))]), None)

  lemma ScenarioRecords(remote: Remote, secret: Record)
    requires |secret| == 3 && remote.secretJson("dev/app") == Success(secret)
    requires secret[0].0 == "SECRET_ID" && secret[1].0 == "ANOTHER_API_KEY" && secret[2].0 == "ANOTHER_API_SECRET"
    ensures OutputRecords(ScenarioParams, remote)
         == Success([[secret[1], secret[0]], [("APP_URL", Str("http://localhost/3000"))]])
  {
    var p := ScenarioParams;
    var allow := ["SECRET_ID", "ANOTHER_API_KEY"];
    var kept: Record := [secret[1], secret[0]];
    assert Filtered(secret[..1], allow) == [secret[0]] by {
      assert secret[..1][..0] == [];
    }
    assert secret[..2][..1] == secret[..1];
    assert Filtered(secret[..2], allow) == kept;
    assert secret[..3] == secret;
    assert FilterRecord(secret, allow) == kept;
    var ids := ["dev/app"];
    assert ids[1..] == [];
    assert FetchSecrets(ids[1..], remote.secretJson) == Success([]);
    assert [secret] + [] == [secret];
    assert FetchSecrets(ids, remote.secretJson) == Success([secret]);
    assert FetchedRecords(p, remote) == Success([secret]);
    var filtered := IncludedInWhitelist([secret], Some(allow));
    assert |filtered| == 1 && filtered[0] == kept;
    assert filtered == [kept];
    assert DataStoreRecords(p, remote) == Success([kept]);
    assert [kept] + [p.addParams.value] == [kept, p.addParams.value];
  }

  /** Two records, the first with two entries, render as three lines in entry order. */
  lemma ScenarioLines(kept: Record, extra: Record, keys: seq<string>, texts: seq<string>)
    requires |keys| == 3 && |texts| == 3
    requires kept == [(keys[0], Str(texts[0])), (keys[1], Str(texts[1]))]
    requires extra == [(keys[2], Str(texts[2]))]
    ensures RenderRecords(DotEnv, [kept, extra], None) == [
      Line(DotEnv, keys[0], texts[0]), Line(DotEnv, keys[1], texts[1]), Line(DotEnv, keys[2], texts[2])]
  {
    var out: seq<Record> := [kept, extra];
    assert Flatten(out) == kept + extra by {
      assert out[..1] == [kept];
      assert [kept][..0] == [];
      assert Flatten([kept]) == kept;
    }
  }

  /**
   * One secret with three keys, an allow-list naming two of them, and one
   * `addParams` entry: the two allowed keys are written, the later one first,
   * and the `addParams` line last.
   */
  lemma AllowListScenario(remote: Remote, files: map<string, seq<string>>)
    requires remote.secretJson("dev/app") == Success([
      ("SECRET_ID", Str("dev/app")),
      ("ANOTHER_API_KEY", Str("another_api_key")),
      ("ANOTHER_API_SECRET", Str("another_api_secret"))])
    ensures Run(ScenarioParams, remote, files) == (Pass, (files - {"./.env"})["./.env" := [
      Line(DotEnv, "ANOTHER_API_KEY", "another_api_key"),
      Line(DotEnv, "SECRET_ID", "dev/app"),
      Line(DotEnv, "APP_URL", "http://localhost/3000")]])
  {
    var secret := remote.secretJson("dev/app").value;
    ScenarioRecords(remote, secret);
    ScenarioLines([secret[1], secret[0]], [("APP_URL", Str("http://localhost/3000"))],
                  ["ANOTHER_API_KEY", "SECRET_ID", "APP_URL"], ["another_api_key", "dev/app", "http://localhost/3000"]);
    assert OutputFilenameIncludedPath(ScenarioParams) == "./.env";
    assert FileTypeOf(ScenarioParams.fileType) == DotEnv;
    assert ContentOf(files - {"./.env"}, "./.env") == [];
    var kept: Record := [secret[1], secret[0]];
    var extra: Record := [("APP_URL", Str("http://localhost/3000"))];
    assert OutputRecords(ScenarioParams, remote) == Success([kept, extra]);
    assert kept == [("ANOTHER_API_KEY", Str("another_api_key")), ("SECRET_ID", Str("dev/app"))];
    assert IsAllowedFileType(ScenarioParams.fileType);
    var lines := RenderRecords(DotEnv, [kept, extra], None);
    assert lines != [];
    assert Run(ScenarioParams, remote, files) == (Pass, Appended(files - {"./.env"}, "./.env", lines));
    assert [] + lines == lines;
    assert Appended(files - {"./.env"}, "./.env", lines) == (files - {"./.env"})["./.env" := lines];
  }
}

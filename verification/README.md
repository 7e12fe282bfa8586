# aws-env-creator: the transform-and-render pipeline, in Dafny

aws-env-creator reads secrets from AWS Secrets Manager and parameters from AWS
Systems Manager Parameter Store and writes them into an environment file: a
`.env` for dotenv loaders, an `.envrc` for direnv, or a `terraform.tfvars`.
This project models the part of `createEnvFile` that runs once the remote
replies are known, and proves properties of it:

- validating the requested file type and computing the destination path;
- removing an existing destination file before anything is fetched;
- converting one Parameter Store reply into records: two empty-reply errors,
  unanchored removal of the `path/` prefix, and re-wrapping of every failure
  into an `AwsEnvCreatorError`;
- merging secret records (in `secretIds` order) before Parameter Store records;
- the per-record allow-list filter, which returns the kept keys in reverse
  order because each kept key goes in front of the accumulator;
- appending `addParams` after filtering;
- renaming keys through `keyMapping`;
- appending one line per entry in one of three grammars: `K=V`, `export K=V`
  and `K = "V"`, each followed by a newline.

Files, one module each:

- `wrappers.dfy`: `Option`, `Result` and `Outcome`, which stand for settled promises.
- `errors.dfy`: the three error classes, folded into one datatype with their fixed names and messages.
- `strings.dfy`: first-occurrence search and `replace`.
- `records.dfy`: values, records (unique keys, in insertion order), and flattening a record list.
- `parameter_store.dfy`: `fetchFromParameterStore`.
- `whitelist.dfy`: `createParamsListIncludedInWhitelist`. Its inner loop is a method, proved against the function that specifies it.
- `env_format.dfy`: the file types, key mapping, and the line grammars. It also has a reader for each grammar, which serves as the grammar's inverse.
- `pipeline.dfy`: the parameters, the destination path, the remote replies, and the file system as a class over `map<string, seq<string>>`. It also holds the render loops, `fetchFromAwsDataStore` and `createEnvFile`. `Run` is the whole run as a function of the old file system, and the run lemmas are stated about it.

The remote stores are inputs. `Remote.secretJson` gives, for each secret id,
the parsed secret or the SDK error. `Remote.parametersByPath` gives, for a
path, the reply to the one `getParametersByPath` request. A file is the
sequence of chunks appended to it. Each chunk is the text written for one
entry, which is one physical line unless the key or the value holds a newline.

Behaviour of the code worth knowing, each stated by a lemma:

- The code makes one Parameter Store request and ignores `NextToken` (`ParameterStore.NextTokenIgnored`).
- The allow-list filter reverses the order of the kept keys inside a record (`Whitelist.WhitelistReversesOrder`).
- The code validates the file type before touching anything, but removes the old destination file before it checks that a source was given (`Pipeline.MissingSourceAfterRemoval`).

## Model

| member | source | states |
|---|---|---|
| EnvFormat.IsAllowedFileType | src/createEnvfile.ts:64-75 | a type string is accepted exactly when it is `.env`, `.envrc` or `terraform.tfvars`, the default file names of the three formats |
| EnvFormat.AllowedIffFileName | src/createEnvfile.ts:64-75 | a type string is accepted exactly when it is the value of one of the three `EnvFileType` members |
| EnvFormat.FileTypeOf | src/createEnvfile.ts:13-17 | an accepted type string is the default file name of the format it selects |
| EnvFormat.EmittedKey | src/createEnvfile.ts:174 | when `keyMapping` is given and maps the key to a non-empty name, that name is emitted; with no mapping, no entry for the key, or an empty name, the key itself is emitted; a non-empty key never becomes empty |
| EnvFormat.Line | src/createEnvfile.ts:164-216 | the chunk appended for one entry (`K=V`, `export K=V` or `K = "V"`) ends in a newline, and an `.envrc` chunk starts with `export ` |
| EnvFormat.DotEnvTestedLines | test/unit/createEnvFileForDotenv.spec.ts:86-91 | the `.env` template gives exactly the text the test reads back, e.g. `SECRET_CODE=dev/app` followed by a newline |
| EnvFormat.DirenvTestedLines | test/unit/createEnvFile.spec.ts:83-89 | the `.envrc` template gives exactly the text the test reads back, e.g. `export SECRET_ID=dev/app` followed by a newline |
| EnvFormat.TerraformTestedLines | test/unit/createEnvFileForTfvars.spec.ts:43-49 | the `terraform.tfvars` template gives exactly the text the test reads back, e.g. `SECRET_ID = "dev/app"` followed by a newline |
| EnvFormat.SplitAssignmentRoundTrip | src/createEnvfile.ts:176 | a `.env` body `K=V`, with no `=` in `K`, splits back at its first `=` into `K` and `V` |
| EnvFormat.DirenvRoundTrip | src/createEnvfile.ts:194 | an `.envrc` line `export K=V` + newline, with no `=` in `K`, reads back as `K` and `V` |
| EnvFormat.TerraformRoundTrip | src/createEnvfile.ts:212 | a `terraform.tfvars` line `K = "V"` + newline, with no space in `K`, reads back as `K` and `V` through this model's reader, which takes the text between the first ` = "` and the final quote |
| EnvFormat.LineRoundTrip | src/createEnvfile.ts:164-216 | in each of the three grammars, every line reads back as the key and value text it was built from, when the key has no `=` (no space for `terraform.tfvars`) |
| EnvFormat.RenderedLine | src/createEnvfile.ts:171-178 | the output has exactly one chunk per entry of all records, with no de-duplication; chunk `i` reads back as entry `i`'s emitted key and stringified value, when that (mapped) key has no `=` (no space for `terraform.tfvars`) |
| EnvFormat.RenderRecordsAppend | src/createEnvfile.ts:171-178 | the lines of two record lists, one after the other, are the lines of the first followed by those of the second |
| EnvFormat.OnePhysicalLine | src/createEnvfile.ts:164-216 | every chunk ends in a newline, and it is a single physical line exactly when neither the key nor the value text holds a newline, since nothing is escaped |
| Whitelist.FilterRecordLoop | src/createEnvfile.ts:151-160 | the inner loop, which puts each allowed key in front of the accumulator, yields the filtered record |
| Whitelist.ParamsListIncludedInWhitelist | src/createEnvfile.ts:142-162 | the outer map over the records, with the inner loop per record, yields the whole filter's result |
| Whitelist.FilteredIsReversedKept | src/createEnvfile.ts:151-158 | a filtered record is the order-preserving filter of its entries, reversed |
| Whitelist.FilteredMembership | src/createEnvfile.ts:152-158 | an entry is in a filtered record exactly when it was in the record and its key is allowed; values are untouched |
| Whitelist.FilteredUnique | src/createEnvfile.ts:154-157 | filtering keeps keys unique, so `Object.assign` never meets a key it already holds |
| Whitelist.WhitelistKeepsRecords | src/createEnvfile.ts:146-150 | the number of records never changes; with no allow-list the list passes through unchanged |
| Whitelist.WhitelistEntries | src/createEnvfile.ts:150-161 | with an allow-list, output record `i` holds exactly the allowed entries of input record `i` |
| Whitelist.WhitelistReversesOrder | src/createEnvfile.ts:151-159 | in each output record the kept keys are in reverse source order |
| Whitelist.WhitelistAllAllowed | src/createEnvfile.ts:151-159 | a record whose keys are all allowed comes out reversed |
| Whitelist.WhitelistAppend | src/createEnvfile.ts:150 | records are filtered independently: filtering two lists one after the other equals filtering each list |
| ParameterStore.FetchFromParameterStore | src/fetchFromParameterStore.ts:5-39 | A reply with no `Parameters` rejects with "ParameterStore is undefined". An empty list rejects with "Parameter is not registered in ParameterStore". Any other list yields one single-entry record per parameter, in order, with the parameter's value and the key with `path/` cut out. Every rejection is an `AwsEnvCreatorError` carrying the SDK error's code, or its message when it has no code. |
| ParameterStore.KeyUnderPath | src/fetchFromParameterStore.ts:29 | a parameter named `path/KEY` yields the record `{KEY: value}` |
| ParameterStore.NextTokenIgnored | src/fetchFromParameterStore.ts:9-12 | the result does not depend on the continuation token: a single page is all it reflects |
| ParameterStore.UnanchoredStrip | src/fetchFromParameterStore.ts:29 | the prefix is cut where it first occurs, not only at the start: `/x/dev/K` under `/dev` gives `/xK` |
| Strings.RemoveFirst | src/fetchFromParameterStore.ts:29 | `replace` with a string pattern cuts out the first occurrence; a name without it is unchanged; a name starting with it loses exactly that prefix |
| Records.ValueToString | src/createEnvfile.ts:176 | the `${value}` text of a string is the string itself, of an absent value `undefined`, and of an integer a decimal numeral that reads back as that integer |
| Records.NatToStringRoundTrip | src/createEnvfile.ts:176 | the digits written for a natural number are a non-empty decimal numeral whose value is that number |
| Errors.Rewrap | src/fetchFromParameterStore.ts:35-38 | the re-wrapped error is an `AwsEnvCreatorError` whose message is the code, or the message when there is no code |
| Pipeline.OutputFilenameIncludedPath | src/createEnvfile.ts:77-85 | the path starts with `outputDir`; the rest is `outputFilename` when given, else the default file name of the validated type |
| Pipeline.OutputRecords | src/createEnvfile.ts:47-50 | the output records fail exactly when the data-store fetch fails, with its error; without `addParams` they are the fetched records; with it, the fetched records followed by `addParams` as one more, unfiltered record |
| Pipeline.FetchSecrets | src/createEnvfile.ts:112-123 | it succeeds exactly when every id's fetch succeeds, giving one record per id in id order; otherwise it rejects with the unchanged SDK error of a failing id |
| Pipeline.FetchFromAwsDataStore | src/createEnvfile.ts:105-140 | with no source it rejects with `InvalidParamsError`; otherwise secrets come before parameters, then the filter applies; the result equals `DataStoreRecords` |
| Pipeline.FileSystem.TargetFileExists | src/createEnvfile.ts:87-97 | the existence check is true exactly when the path is present |
| Pipeline.FileSystem.RemoveFile | src/createEnvfile.ts:99-103 | removes exactly that path |
| Pipeline.FileSystem.AppendFile | src/createEnvfile.ts:169-176 | creates the file if missing and appends one chunk; no other path changes |
| Pipeline.AppendRecord | src/createEnvfile.ts:172-178 | appends one rendered line per entry of one record, in key order |
| Pipeline.AppendRecords | src/createEnvfile.ts:164-216 | the three render functions leave the destination holding its old content followed by the rendered lines of all records, record after record |
| Pipeline.Run | src/createEnvfile.ts:32-62 | a run passes exactly when the type is valid and every fetch succeeds; a validated run whose fetch fails rejects with exactly that error; no path but the destination changes |
| Pipeline.CreateEnvFile | src/createEnvfile.ts:32-62 | the outcome and the new file system are those given by `Run` on the old file system |
| Pipeline.InvalidTypeTouchesNothing | src/createEnvfile.ts:35-37 | an unknown type rejects with `InvalidFileTypeError` ("It's a file type that is not allowed") and leaves the file system unchanged |
| Pipeline.MissingSourceAfterRemoval | src/createEnvfile.ts:39-45 | With neither `secretIds` nor `parameterPath`, the run rejects with `InvalidParamsError`. This happens inside the fetch call of line 45, after the old destination was removed. No other path changes. |
| Pipeline.FailedRunWritesNothing | src/createEnvfile.ts:39-45 | a failed run writes nothing: the file system is unchanged or has lost the destination, and a run that got past validation always leaves no destination |
| Pipeline.ParameterStoreFailureReachesCaller | src/fetchFromParameterStore.ts:35-38 | on a validated run with `parameterPath` whose secret fetches (if any) all succeed, a rejected Parameter Store request makes `createEnvFile` reject with an `AwsEnvCreatorError` whose message is the SDK error's code, or its message when it has no code |
| Pipeline.SecretFailureReachesCaller | src/createEnvfile.ts:112-123 | when some secret fetch fails, `createEnvFile` rejects with the unchanged SDK error of a failing id |
| Pipeline.SuccessWritesRenderedLines | src/createEnvfile.ts:39-61 | After a successful run, the destination holds exactly the rendered chunks, one per output entry, and nothing from before. With no entries, no file exists. No other path changes. |
| Pipeline.WritesOnlyDestination | src/createEnvfile.ts:77-85 | a validated run changes one path only: `outputDir` followed by `outputFilename` when given, else by the type's default file name; a success leaves the rendered chunks there, a failure leaves no file there |
| Pipeline.KeyMappingApplied | src/createEnvfile.ts:171-176 | chunk `i` of the written file carries entry `i`'s mapped name when `keyMapping` maps its key to a non-empty name, and the key itself otherwise |
| Pipeline.KeyMappingScenario | test/unit/createEnvFileForDotenv.spec.ts:57-97 | the three-key secret with every key mapped leaves exactly `SECRET_CODE=dev/app`, `AWS_API_KEY=another_api_key`, `AWS_API_SECRET=another_api_secret` in `./.env` |
| Pipeline.PartialMappingScenario | src/createEnvfile.ts:174 | a constructed partial mapping over the three-key secret: `SECRET_ID` is renamed to `SECRET_CODE`, `ANOTHER_API_KEY` is mapped to the empty string and `ANOTHER_API_SECRET` is absent; `./.env` then holds `SECRET_CODE=dev/app`, `ANOTHER_API_KEY=another_api_key`, `ANOTHER_API_SECRET=another_api_secret` |
| Pipeline.OutputFilenameScenario | test/unit/createEnvFileForDotenv.spec.ts:138-176 | with `outputFilename` `.env.example`, the three-key secret and one `addParams` entry, the run passes and `./.env.example` holds exactly `SECRET_ID=dev/app`, `ANOTHER_API_KEY=another_api_key`, `ANOTHER_API_SECRET=another_api_secret`, `APP_URL=http://localhost/3000`; `./.env` keeps its contents |
| Pipeline.RunIdempotent | src/createEnvfile.ts:39-61 | running twice with the same inputs gives the outcome and the file system of running once |
| Pipeline.OutputOrder | src/createEnvfile.ts:108-139 | for every run that passes validation, with one source or both, the output records are the filtered secret records in id order, then the filtered Parameter Store records, then `addParams`; a source not given contributes nothing |
| Pipeline.AddParamsRenderedLast | src/createEnvfile.ts:47-50 | `addParams` is never filtered: every one of its entries is rendered, as the last lines of the file |
| Pipeline.AllowListScenario | test/unit/createEnvFileForDotenv.spec.ts:99-136 | One secret has three keys, and the allow-list names two of them. `addParams` adds `APP_URL`. Then `./.env` holds `ANOTHER_API_KEY=…`, then `SECRET_ID=…`, then `APP_URL=…`. |

## Left out

- AWS client construction, credentials, region and profile: src/factories.ts is not part of this model, and `Params` has no region or profile.
- Fetching a secret (src/fetchSecretJson.ts is not part of this model): `Remote.secretJson` gives the parsed record or the SDK error. The `{ key: "value" }` fallback for a non-string `SecretString` is not modelled, and neither is JSON parsing.
- The real file system: it is a map from path to appended chunks. Errors of `stat`, `unlink` and `appendFile` are not modelled. A concurrent writer racing on the same path is not modelled either.
- Pipeline.FetchSecrets: `Promise.all` rejects with whichever failing fetch settles first in time. The model rejects with the first failing id in list order, since timing is not modelled. The success case preserves id order exactly.
- Pipeline.AppendRecords, Pipeline.AddParamsRenderedLast, Pipeline.AllowListScenario, Pipeline.OutputFilenameScenario, Pipeline.KeyMappingApplied, Pipeline.SuccessWritesRenderedLines, Pipeline.WritesOnlyDestination, Pipeline.RunIdempotent, EnvFormat.RenderedLine: the source runs one append loop per record concurrently under `Promise.all`, so each record's first `appendFile` is issued before any record's second, and lines of different records interleave on disk. The model appends record after record, and the exact chunk sequence these members state at the destination (chunk `i` is entry `i`) holds in that order only; with a single record it is the source's order too. Lines within one record keep their order in both, and the file holds the same lines either way.
- JavaScript object quirks. Integer-like keys are listed before other keys. Inherited properties of `keyMapping` (such as `constructor`) are not modelled. Values are strings, integers or `undefined`. Floating-point numbers, booleans, `null` and nested objects in a secret are not modelled. Integers are printed in plain decimal, which JavaScript does only below 1e21.
- Pagination: the code makes one Parameter Store request, and the model makes one too.
- Stack capture in the error classes.
- Escaping: keys and values are written as they are, so a value holding a newline spans several physical lines, and a `terraform.tfvars` value holding a quote is not valid HCL. The model's "line" is one appended chunk; `EnvFormat.OnePhysicalLine` states when that is one physical line.
- The `default` branch of the render switch (src/createEnvfile.ts:59-60) cannot be reached once the type is validated. `Pipeline.CreateEnvFile` proves this with `assert false` there.

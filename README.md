# ZIP-assembly handler and CDK bundling helpers, modelled in Dafny

This project models two small pieces of logic from one repository that holds
two AWS CDK projects, `sample-lambda-ts` and `cdk-common-sample-project`, and
proves properties of them.

* **The ZIP-assembly Lambda handler** (`sample-lambda-ts/lambda/sampleFunc/index.ts`,
  module `SampleFunc` in `sample_func.dfy`). The handler does the following, in order:
  1. It checks that the request names at least one S3 object.
  2. It builds the archive key `tmp/<YYYYMMDD>-<uuid>.zip`.
  3. It opens a streaming upload of the archive to the temporary bucket and
     opens a zip archiver at compression level 9.
  4. It fetches each object in input order and appends its body as an entry
     named by the object's key. Each body first goes through `toNodeReadable`,
     which turns the body's shape into a Node.js stream.
  5. It finalizes the archive, waits for the upload to finish, and presigns a
     download URL valid for 900 seconds.

  The external calls are not executed. `Handler` returns the outcome (a
  result record or the error that was thrown) together with the trace of
  external calls it made, in order (`Call`). What those calls answer comes
  from an `Env` parameter, which stands in for S3, the upload, the current
  time and the UUID generator. The spec functions `HandlerOutcome` and
  `HandlerCalls` describe one invocation declaratively; `Handler` is proved
  to compute exactly them. The lemmas then state, about those functions:
  * ordering, entries and fetches on success;
  * abort behaviour on the first failed fetch;
  * the signing constraints;
  * the archive key layout.
* **The bundling helpers of the common stack**
  (`cdk-common-sample-project/lib/cdk-common-sample-project-stack.ts`, module
  `CommonStack` in `common_stack.dfy`).
  * `getBundlingCommand` builds a list of shell commands one push at a time
    and joins it with `" && "`: first `mkdir -p <out>`, then one
    `cp -R <in>/<dir> <out>/` per directory.
  * `bundleLocally` runs `cp -R "<src>" "<out>/"` for each directory, in order,
    and returns false at the first copy that throws.

  `Join`, `IndexOf` and `Split` model JavaScript's `Array.prototype.join`,
  `String.prototype.indexOf` and `String.prototype.split`. The structure of
  the command is stated through `Split`, which is proved to undo `Join`.

`prelude.dfy` (module `Prelude`) holds `Option`, `Result` and `FirstFailure`,
the index of the first element that fails a test. Both loops stop at that
index.

## Model

| member | source | states |
|---|---|---|
| SampleFunc.ToNodeReadable | sample-lambda-ts/lambda/sampleFunc/index.ts:21-36 | Fails exactly on a missing body, with "S3 Body is empty". A Node.js Readable is returned unchanged. A Blob becomes the web-to-node conversion of its `stream()`. Any other body is converted as a web stream. The bytes delivered are the body's bytes. |
| SampleFunc.Take | sample-lambda-ts/lambda/sampleFunc/index.ts:44 | `slice(0, 10)`: the first min(n, length of s) characters of the string. |
| SampleFunc.RemoveAll | sample-lambda-ts/lambda/sampleFunc/index.ts:44 | `replace(/-/g, "")`: the result holds no '-' and is no longer than the input. A string without '-' is returned unchanged. |
| SampleFunc.RemoveAllKeepsOthers | sample-lambda-ts/lambda/sampleFunc/index.ts:44 | Removing '-' keeps every other character as often as it occurs: the result's multiset is the input's with the '-' count set to 0. |
| SampleFunc.RemoveAllConcat | sample-lambda-ts/lambda/sampleFunc/index.ts:44 | Removal distributes over concatenation, so the characters that remain keep their order. |
| SampleFunc.DateStamp | sample-lambda-ts/lambda/sampleFunc/index.ts:44 | The date part of the key has no '-' and at most 10 characters, for every timestamp string. |
| SampleFunc.DateStampOfIsoDate | sample-lambda-ts/lambda/sampleFunc/index.ts:44 | For a `YYYY-MM-DD...` timestamp the date part is YYYY, MM and DD run together: exactly 8 digits. |
| SampleFunc.ZipKeyLayout | sample-lambda-ts/lambda/sampleFunc/index.ts:44 | The archive key is `tmp/`, then the 8 date digits, then `-`, the token and `.zip`. Its length is 17 plus the token's length. |
| SampleFunc.Handler | sample-lambda-ts/lambda/sampleFunc/index.ts:38-96 | The imperative handler returns exactly the outcome and the call trace given by the spec functions. An absent or empty `objects` rejects with "objects is empty" before any external call. |
| SampleFunc.FetchObject | sample-lambda-ts/lambda/sampleFunc/index.ts:67-76 | One fetch sends GetObject and normalises the Body. It fails exactly when GetObject rejects or the reply has no Body. |
| SampleFunc.AppendObjects | sample-lambda-ts/lambda/sampleFunc/index.ts:66-78 | The loop stops at the first object whose fetch fails, and reports that fetch's error. It reports no error exactly when every fetch succeeds. Its calls are the fetch/append steps of the objects up to and including the one that failed, or of all of them. |
| SampleFunc.Close | sample-lambda-ts/lambda/sampleFunc/index.ts:80-95 | Finalize, then upload done, then presign, each only after the previous succeeded. The result record is built from the temporary bucket, the archive key, the URL and 900. |
| SampleFunc.LoopCallsAlternate | sample-lambda-ts/lambda/sampleFunc/index.ts:66-78 | When every fetch succeeds, the loop makes 2N calls. Call 2i fetches object i from its bucket and key. Call 2i+1 appends that object's stream, named by its key. |
| SampleFunc.LoopEntryNames | sample-lambda-ts/lambda/sampleFunc/index.ts:66-78 | When every fetch succeeds, the entry names appended are the object keys, in input order. |
| SampleFunc.LoopFetchedObjects | sample-lambda-ts/lambda/sampleFunc/index.ts:66-78 | Each iteration of LoopCalls fetches its own object once, in input order, whether or not its fetch succeeds. |
| SampleFunc.SucceededRunEntries | sample-lambda-ts/lambda/sampleFunc/index.ts:66-78 | After a successful invocation the request was non-empty. Exactly N entries were appended, entry i named `objects[i].s3Key`. Each object was fetched once, in input order. |
| SampleFunc.SucceededRunOrder | sample-lambda-ts/lambda/sampleFunc/index.ts:48-95 | After a successful invocation the trace has 2N+5 calls. It first opens the upload (the result's bucket and key, `application/zip`) and the zip archiver (level 9). Each object is then fetched and appended in turn. Last come finalize, upload done and presign (the result's bucket and key, 900 s). The result holds the temporary bucket, the archive key, the presigned URL and expiry 900. Finalize and upload done both succeeded. |
| SampleFunc.CallsInStageOrder | sample-lambda-ts/lambda/sampleFunc/index.ts:48-88 | In every invocation the calls come in stage order: upload, archiver, fetch/append, finalize, upload done, presign. Only fetch/append repeats. |
| SampleFunc.PresignFollowsBothSignals | sample-lambda-ts/lambda/sampleFunc/index.ts:80-94 | A URL is presigned only as the last call, directly after finalize and then upload done, and only when both finalize and upload done succeeded. It is presigned for the archive's bucket and key with expiry 900, whatever the input size. A successful result's expiry is 900. |
| SampleFunc.AbortedRun | sample-lambda-ts/lambda/sampleFunc/index.ts:66-78 | If fetch k is the first to fail (a rejected GetObject or an empty Body), the invocation rejects with that error. Exactly entries 0..k-1 were appended and objects 0..k fetched, none later. No finalize, upload done or presign happens. |
| CommonStack.SplitJoin | cdk-common-sample-project/lib/cdk-common-sample-project-stack.ts:104 | Splitting a `" && "`-join at `" && "` gives back the joined commands, when none holds '&'. |
| CommonStack.GetBundlingCommand | cdk-common-sample-project/lib/cdk-common-sample-project-stack.ts:90-105 | The loop-built command is the join of mkdir and the cp commands. It always starts with `mkdir -p <out>`. When no name holds '&', it splits into len(dirs)+1 commands, in directory order. The default paths are `/asset-input` and `/asset-output`. |
| CommonStack.BundlingCommandSegments | cdk-common-sample-project/lib/cdk-common-sample-project-stack.ts:96-104 | When no name holds '&', the command splits into exactly len(dirs)+1 commands. Command 0 is `mkdir -p <out>` and command i+1 is `cp -R <in>/<dirs[i]> <out>/`. |
| CommonStack.BundlingCommandStart | cdk-common-sample-project/lib/cdk-common-sample-project-stack.ts:96-104 | The command always begins with `mkdir -p <out>`. With no directories it is exactly that. |
| CommonStack.NoDirsNoSeparator | cdk-common-sample-project/lib/cdk-common-sample-project-stack.ts:96-104 | With no directories the command contains no `" && "` (for an output path without '&'). |
| CommonStack.DefaultPathCommands | cdk-common-sample-project/lib/cdk-common-sample-project-stack.ts:92-100 | With the default paths, the mkdir command reads `mkdir -p /asset-output` and the copy command reads `cp -R /asset-input/<dir> /asset-output/`. |
| CommonStack.FunctionBundlingCommand | cdk-common-sample-project/lib/cdk-common-sample-project-stack.ts:28 | The container command of a function (default paths) splits into exactly three commands. They are the mkdir of the output path, the copy of the function's directory, then the copy of `common`. |
| CommonStack.BundleLocally | cdk-common-sample-project/lib/cdk-common-sample-project-stack.ts:62-79 | Returns true exactly when every copy succeeds. The copies run in directory order. On failure, exactly the copies up to and including the first failing one were run. |
| CommonStack.TryBundle | cdk-common-sample-project/lib/cdk-common-sample-project-stack.ts:18-23 | Local bundling of a function copies its directory and then `common`, and succeeds exactly when both copies do. If the first copy fails, `common` is not copied. |

## Notes on the source

* `toNodeReadable` (index.ts:34-35) treats any body that is neither a Readable nor a Blob as a web stream. `Body` has one case per shape, and only a missing body fails.
* The archive key at index.ts:44 takes its date from the ISO timestamp. For a timestamp with an extended year (`+012345-...`), `slice(0, 10)` does not give a date, so the 8-digit property is proved only for a `YYYY-MM-DD` prefix. `DateStamp`'s own contract (no '-', at most 10 characters) holds for every string.
* `getBundlingCommand` does not quote paths; `bundleLocally` does. The model keeps both forms as written.

## Left out

* The AWS SDK (S3 client, `GetObjectCommand`, `Upload`, `getSignedUrl`) is not executed: each call is a `Call` in the trace. Its answer comes from `Env`.
* `Upload` and `archiver` are modelled as the calls `OpenUpload` and `OpenArchive`, which always succeed. The ZIP encoding, zlib and the PassThrough pipe are foreign library and stream code, so no archive round trip is stated.
* `archive.on("error")` throws inside an event handler and does not reject the handler's promise, so it is not an abort path of the model.
* `Readable.fromWeb` and `Blob.stream()` are opaque conversions (`FromWeb`, `BlobStream`), taken to deliver the same bytes.
* The answers of S3 (`Env.getObject`) and of the shell (`execSync`) depend only on the request or the command. A request that names the same object twice therefore gets the same answer both times. A fetch that succeeds once and then fails on a transient error cannot be expressed, and the same holds for a repeated copy command.
* Errors while the streams are read are not modelled: `finalize` and `done` fail only as `Env` says.
* `new Date().toISOString()` and `uuidv4()` are the parameters `Env.isoNow` and `Env.token`. `process.env.TMP_BUCKET` is `Env.tmpBucket`; it is never undefined in the model.
* `child_process.execSync` is the oracle `execSync` (true when the command succeeds). `path.join` is the function `pathJoin`. The `console.error` log of a failed local bundling is left out.
* CommonStack.BundlingCommandSegments: the segment structure is stated only when no directory name or path holds '&'. A name with " && " in it would add segments.
* The CDK stack and `lambda.Function` declarations, the stale test of `sample-lambda-ts`, and `functions/common/utils.py` (a single greeting string) carry no behaviour to model.

/** The Lambda handler of sample-lambda-ts (lambda/sampleFunc/index.ts): it fetches a
    list of S3 objects one at a time, appends each to one streaming ZIP archive
    that is piped into an S3 upload, waits for the archive and the upload to
    finish, and returns a presigned download URL for the archive.

    The S3 client, the upload, the archiver and the presigner are not modelled
    as code: the handler runs against an environment `Env` that says how each
    of those calls resolves, and it returns the sequence of external calls it
    made (`Call`) beside its outcome. */
module SampleFunc {
  import opened Prelude

  newtype byte = x: int | 0 <= x < 256

  /** A Blob: the bytes it holds. */
  datatype Blob = Blob(bytes: seq<byte>)

  /** A WHATWG ReadableStream: an ordinary one that delivers `bytes`, or the
      stream that `blob.stream()` returns. */
  datatype WebStream = WebByteStream(bytes: seq<byte>) | BlobStream(blob: Blob)

  /** A Node.js Readable: a native one, or the one `Readable.fromWeb(web)` makes. */
  datatype Readable = NativeReadable(bytes: seq<byte>) | FromWeb(web: WebStream)

  /** The shapes the Body of a GetObject reply can take; `NoBody` is `undefined`. */
  datatype Body =
    | NoBody
    | ReadableBody(readable: Readable)
    | WebBody(web: WebStream)
    | BlobBody(blob: Blob)

  function WebStreamBytes(w: WebStream): seq<byte> {
    match w
    case WebByteStream(bytes) => bytes
    case BlobStream(blob) => blob.bytes
  }

  /** The bytes a Readable delivers, assuming that `Readable.fromWeb` and
      `Blob.stream()` pass bytes through unchanged. */
  function ReadableBytes(r: Readable): seq<byte> {
    match r
    case NativeReadable(bytes) => bytes
    case FromWeb(web) => WebStreamBytes(web)
  }

  function BodyBytes(b: Body): seq<byte> {
    match b
    case NoBody => []
    case ReadableBody(r) => ReadableBytes(r)
    case WebBody(w) => WebStreamBytes(w)
    case BlobBody(blob) => blob.bytes
  }

  /** The errors the handler's promise can reject with. */
  datatype HandlerError =
    | ObjectsEmpty                      // the request names no object
    | BodyEmpty                         // a GetObject reply had no Body
    | GetObjectFailed(reason: string)   // s3.send(GetObjectCommand) rejected
    | FinalizeFailed(reason: string)    // archive.finalize() rejected
    | UploadFailed(reason: string)      // uploader.done() rejected
    | PresignFailed(reason: string)     // getSignedUrl rejected

  /** The message of the Error the handler throws. */
  function Message(e: HandlerError): string {
    match e
    case ObjectsEmpty => "objects is empty"
    case BodyEmpty => "S3 Body is empty"
    case GetObjectFailed(reason) => reason
    case FinalizeFailed(reason) => reason
    case UploadFailed(reason) => reason
    case PresignFailed(reason) => reason
  }

  /** toNodeReadable: brings every Body shape to a Node.js Readable. */
  function ToNodeReadable(body: Body): (r: Result<Readable, HandlerError>)
    ensures r.Failure? <==> body.NoBody?
    ensures r.Failure? ==> r.error == BodyEmpty && Message(r.error) == "S3 Body is empty"
    ensures body.ReadableBody? ==> r == Success(body.readable)
    ensures body.BlobBody? ==> r == Success(FromWeb(BlobStream(body.blob)))
    ensures body.WebBody? ==> r == Success(FromWeb(body.web))
    ensures r.Success? ==> ReadableBytes(r.value) == BodyBytes(body)
  {
    match body
    case NoBody => Failure(BodyEmpty)
    case ReadableBody(readable) => Success(readable)
    case BlobBody(blob) => Success(FromWeb(BlobStream(blob)))
    case WebBody(web) => Success(FromWeb(web))
  }

  /** One entry of the request. */
  datatype ObjectSpec = ObjectSpec(s3Bucket: string, s3Key: string)

  /** The event payload; `objects` may be missing. */
  datatype EventPayload = EventPayload(objects: Option<seq<ObjectSpec>>)

  /** The record the handler resolves with. */
  datatype ZipResult = ZipResult(zipBucket: string, zipKey: string, downloadUrl: string, expiresIn: int)

  /** How s3.send(GetObjectCommand) resolves. */
  datatype GetObjectReply = Reply(body: Body) | Rejected(reason: string)

  /** Everything outside the handler's own code: the TMP_BUCKET variable, the
      clock, the UUID generator and the outcomes of the calls to S3, the
      archiver, the upload and the presigner. */
  datatype Env = Env(
    tmpBucket: string,                                  // process.env.TMP_BUCKET
    isoNow: string,                                     // new Date().toISOString()
    token: string,                                      // uuidv4()
    getObject: ObjectSpec -> GetObjectReply,            // s3.send(new GetObjectCommand(...))
    finalizeError: Option<string>,                      // archive.finalize() rejects with this
    uploadError: Option<string>,                        // uploader.done() rejects with this
    presign: (string, string, int) -> Result<string, string>)  // getSignedUrl(bucket, key, expiresIn)

  /** The external calls the handler makes, in the order it makes them. */
  datatype Call =
    | OpenUpload(bucket: string, key: string, contentType: string)   // new Upload({...})
    | OpenArchive(format: string, level: int)                         // archiver(...) piped into the upload
    | GetObject(bucket: string, key: string)
    | Append(source: Readable, name: string)                          // archive.append
    | Finalize                                                        // await archive.finalize()
    | UploadDone                                                      // await uploader.done()
    | Presign(bucket: string, key: string, expiresIn: int)            // await getSignedUrl(...)

  const ZipContentType := "application/zip"
  const ArchiveFormat := "zip"
  const CompressionLevel := 9
  const UrlExpirySeconds := 900

  // ---------------------------------------------------------------------------
  // The archive key
  // ---------------------------------------------------------------------------

  /** String.prototype.slice(0, n) on a string. */
  function Take(s: string, n: nat): (r: string)
    ensures |r| == if |s| <= n then |s| else n
    ensures r <= s
  {
    if |s| <= n then s else s[..n]
  }

  /** s.replace(/c/g, ""), for a single character c that is not special in a regular expression. */
  function RemoveAll(s: string, c: char): (r: string)
    ensures c !in r
    ensures |r| <= |s|
    ensures c !in s ==> r == s
    decreases |s|
  {
    assert s != [] ==> s == [s[0]] + s[1..];
    if s == [] then []
    else (if s[0] == c then [] else [s[0]]) + RemoveAll(s[1..], c)
  }

  /** RemoveAll drops every `c` and keeps every other character, as often
      as it occurs. */
  lemma {:induction false} RemoveAllKeepsOthers(s: string, c: char)
    ensures multiset(RemoveAll(s, c)) == multiset(s)[c := 0]
    decreases |s|
  {
    if s != [] {
      RemoveAllKeepsOthers(s[1..], c);
      assert s == [s[0]] + s[1..];
    }
  }

  lemma {:induction false} RemoveAllConcat(a: string, b: string, c: char)
    ensures RemoveAll(a + b, c) == RemoveAll(a, c) + RemoveAll(b, c)
    decreases |a|
  {
    if a != [] {
      assert (a + b)[1..] == a[1..] + b;
      RemoveAllConcat(a[1..], b, c);
    } else {
      assert a + b == b;
    }
  }

  predicate IsDigit(ch: char) { '0' <= ch <= '9' }

  /** The string starts like the value of Date.prototype.toISOString for a
      year from 0 to 9999: YYYY-MM-DD. */
  predicate HasIsoDatePrefix(iso: string) {
    && |iso| >= 10
    && IsDigit(iso[0]) && IsDigit(iso[1]) && IsDigit(iso[2]) && IsDigit(iso[3])
    && iso[4] == '-'
    && IsDigit(iso[5]) && IsDigit(iso[6])
    && iso[7] == '-'
    && IsDigit(iso[8]) && IsDigit(iso[9])
  }

  /** The date part of the archive key: the first ten characters of the ISO
      timestamp with every '-' removed. */
  function DateStamp(iso: string): (d: string)
    ensures '-' !in d && |d| <= 10
  {
    RemoveAll(Take(iso, 10), '-')
  }

  /** The archive key, `tmp/<date>-<token>.zip`. */
  function ZipKey(iso: string, token: string): string {
    "tmp/" + DateStamp(iso) + "-" + token + ".zip"
  }

  /** Removing the dashes of `a-b`, when `a` holds none. */
  lemma RemoveDashBetween(a: string, b: string)
    requires '-' !in a
    ensures RemoveAll(a + ['-'] + b, '-') == a + RemoveAll(b, '-')
  {
    var dash := ['-'];
    RemoveAllConcat(a + dash, b, '-');
    RemoveAllConcat(a, dash, '-');
    assert RemoveAll(dash, '-') == [] by {
      assert dash[1..] == [];
    }
    assert a + [] == a;
  }

  /** Removing the dashes of `y-m-d` leaves `ymd` when the pieces hold none. */
  lemma RemoveDashesOfPieces(y: string, m: string, d: string)
    requires '-' !in y && '-' !in m && '-' !in d
    ensures RemoveAll(y + ['-'] + m + ['-'] + d, '-') == y + m + d
  {
    assert y + ['-'] + m + ['-'] + d == y + ['-'] + (m + ['-'] + d);
    RemoveDashBetween(y, m + ['-'] + d);
    RemoveDashBetween(m, d);
  }

  /** The first ten characters of a YYYY-MM-DD timestamp, cut at the two dashes;
      the pieces hold no '-'. */
  lemma IsoDatePieces(iso: string)
    requires HasIsoDatePrefix(iso)
    ensures Take(iso, 10) == iso[0..4] + ['-'] + iso[5..7] + ['-'] + iso[8..10]
    ensures '-' !in iso[0..4] && '-' !in iso[5..7] && '-' !in iso[8..10]
  {
  }

  /** The date stamp of a YYYY-MM-DD timestamp is its year, month and day. */
  lemma DateStampIsPieces(iso: string)
    requires HasIsoDatePrefix(iso)
    ensures DateStamp(iso) == iso[0..4] + iso[5..7] + iso[8..10]
  {
    IsoDatePieces(iso);
    RemoveDashesOfPieces(iso[0..4], iso[5..7], iso[8..10]);
  }

  /** For a YYYY-MM-DD timestamp the date stamp is the eight digits YYYYMMDD. */
  lemma DateStampOfIsoDate(iso: string)
    requires HasIsoDatePrefix(iso)
    ensures DateStamp(iso) == iso[0..4] + iso[5..7] + iso[8..10]
    ensures |DateStamp(iso)| == 8
    ensures forall i :: 0 <= i < 8 ==> IsDigit(DateStamp(iso)[i])
  {
    DateStampIsPieces(iso);
    var r := iso[0..4] + iso[5..7] + iso[8..10];
    forall i | 0 <= i < 8 ensures IsDigit(r[i]) {
      if i < 4 { assert r[i] == iso[i]; }
      else if i < 6 { assert r[i] == iso[i + 1]; }
      else { assert r[i] == iso[i + 2]; }
    }
  }

  /** The archive key reads `tmp/`, eight date digits, `-`, the token, `.zip`. */
  lemma ZipKeyLayout(iso: string, token: string)
    requires HasIsoDatePrefix(iso)
    ensures var key := ZipKey(iso, token);
      && |key| == 17 + |token|
      && key[..4] == "tmp/"
      && key[4..12] == iso[0..4] + iso[5..7] + iso[8..10]
      && (forall i :: 4 <= i < 12 ==> IsDigit(key[i]))
      && key[12] == '-'
      && key[13..13 + |token|] == token
      && key[13 + |token|..] == ".zip"
  {
    DateStampOfIsoDate(iso);
    var key := ZipKey(iso, token);
    var d := DateStamp(iso);
    assert key == "tmp/" + d + "-" + token + ".zip";
    assert key[4..12] == d;
    forall i | 4 <= i < 12 ensures IsDigit(key[i]) {
      assert key[i] == d[i - 4];
    }
  }

  // ---------------------------------------------------------------------------
  // The specification of one invocation
  // ---------------------------------------------------------------------------

  /** Fetching one object: the GetObject call and toNodeReadable on its Body. */
  function Fetch(env: Env, o: ObjectSpec): Result<Readable, HandlerError> {
    match env.getObject(o)
    case Rejected(reason) => Failure(GetObjectFailed(reason))
    case Reply(body) => ToNodeReadable(body)
  }

  /** Whether fetching an object succeeds in `env`. */
  function FetchSucceeds(env: Env): ObjectSpec -> bool {
    o => Fetch(env, o).Success?
  }

  /** The calls of one iteration of the loop over the objects. */
  function StepCalls(env: Env, o: ObjectSpec): seq<Call> {
    [GetObject(o.s3Bucket, o.s3Key)]
    + match Fetch(env, o)
      case Success(stream) => [Append(stream, o.s3Key)]
      case Failure(_) => []
  }

  /** The calls of the iterations over `objs`, in order. */
  function LoopCalls(env: Env, objs: seq<ObjectSpec>): seq<Call>
    decreases |objs|
  {
    if objs == [] then []
    else LoopCalls(env, objs[..|objs| - 1]) + StepCalls(env, objs[|objs| - 1])
  }

  /** The calls made before the first fetch: the upload and the archive piped into it. */
  function OpeningCalls(env: Env): seq<Call> {
    [OpenUpload(env.tmpBucket, ZipKey(env.isoNow, env.token), ZipContentType),
     OpenArchive(ArchiveFormat, CompressionLevel)]
  }

  /** The calls made after the last append. */
  function ClosingCalls(env: Env): seq<Call> {
    if env.finalizeError.Some? then [Finalize]
    else if env.uploadError.Some? then [Finalize, UploadDone]
    else [Finalize, UploadDone, Presign(env.tmpBucket, ZipKey(env.isoNow, env.token), UrlExpirySeconds)]
  }

  /** The request is missing its objects or names none. */
  predicate IsEmptyRequest(event: EventPayload) {
    event.objects.None? || |event.objects.value| == 0
  }

  /** The index of the first object whose fetch fails, or the number of objects. */
  function FirstFailedFetch(event: EventPayload, env: Env): nat
    requires !IsEmptyRequest(event)
  {
    FirstFailure(event.objects.value, FetchSucceeds(env))
  }

  /** The objects the loop gets to: all of them up to the first whose fetch fails. */
  function AttemptedObjects(event: EventPayload, env: Env): seq<ObjectSpec>
    requires !IsEmptyRequest(event)
  {
    var objs, k := event.objects.value, FirstFailedFetch(event, env);
    if k < |objs| then objs[..k + 1] else objs
  }

  /** The calls after the loop: none if a fetch failed, otherwise the closing calls. */
  function AfterLoopCalls(event: EventPayload, env: Env): seq<Call>
    requires !IsEmptyRequest(event)
  {
    if FirstFailedFetch(event, env) < |event.objects.value| then [] else ClosingCalls(env)
  }

  /** All the external calls one invocation makes. */
  function HandlerCalls(event: EventPayload, env: Env): seq<Call> {
    if IsEmptyRequest(event) then []
    else OpeningCalls(env) + LoopCalls(env, AttemptedObjects(event, env)) + AfterLoopCalls(event, env)
  }

  /** What an invocation whose fetches all succeeded resolves or rejects with. */
  function ClosingOutcome(env: Env): Result<ZipResult, HandlerError> {
    var key := ZipKey(env.isoNow, env.token);
    if env.finalizeError.Some? then Failure(FinalizeFailed(env.finalizeError.value))
    else if env.uploadError.Some? then Failure(UploadFailed(env.uploadError.value))
    else match env.presign(env.tmpBucket, key, UrlExpirySeconds)
      case Failure(reason) => Failure(PresignFailed(reason))
      case Success(url) => Success(ZipResult(env.tmpBucket, key, url, UrlExpirySeconds))
  }

  /** What one invocation resolves or rejects with. */
  function HandlerOutcome(event: EventPayload, env: Env): Result<ZipResult, HandlerError> {
    if IsEmptyRequest(event) then Failure(ObjectsEmpty)
    else
      var objs, k := event.objects.value, FirstFailedFetch(event, env);
      if k < |objs| then Failure(Fetch(env, objs[k]).error)
      else ClosingOutcome(env)
  }

  /** The loop calls of one more object. */
  lemma LoopCallsSnoc(env: Env, objs: seq<ObjectSpec>, i: nat)
    requires i < |objs|
    ensures LoopCalls(env, objs[..i + 1]) == LoopCalls(env, objs[..i]) + StepCalls(env, objs[i])
  {
    assert objs[..i + 1][..i] == objs[..i];
  }

  /** The specification of an invocation whose fetches all succeed. */
  lemma CompletedSpec(event: EventPayload, env: Env)
    requires !IsEmptyRequest(event)
    requires forall j :: 0 <= j < |event.objects.value| ==> Fetch(env, event.objects.value[j]).Success?
    ensures HandlerCalls(event, env) == OpeningCalls(env) + LoopCalls(env, event.objects.value) + ClosingCalls(env)
    ensures HandlerOutcome(event, env) == ClosingOutcome(env)
  {
  }

  // ---------------------------------------------------------------------------
  // The handler
  // ---------------------------------------------------------------------------

  /** handler: one invocation of the Lambda function. */
  method Handler(event: EventPayload, env: Env) returns (outcome: Result<ZipResult, HandlerError>, calls: seq<Call>)
    ensures outcome == HandlerOutcome(event, env)
    ensures calls == HandlerCalls(event, env)
    ensures IsEmptyRequest(event) ==> outcome == Failure(ObjectsEmpty) && calls == []
    ensures IsEmptyRequest(event) ==> outcome.Failure? && Message(outcome.error) == "objects is empty"
  {
    calls := [];
    if event.objects.None? || |event.objects.value| == 0 {
      return Failure(ObjectsEmpty), calls;
    }
    var objects := event.objects.value;
    var zipKey := ZipKey(env.isoNow, env.token);
    calls := calls + [OpenUpload(env.tmpBucket, zipKey, ZipContentType)];
    calls := calls + [OpenArchive(ArchiveFormat, CompressionLevel)];

    assert calls == OpeningCalls(env);
    var failure, looped := AppendObjects(env, objects);
    assert looped == LoopCalls(env, AttemptedObjects(event, env));
    calls := calls + looped;
    if failure.Some? {
      assert AfterLoopCalls(event, env) == [];
      return Failure(failure.value), calls;
    }
    var closing;
    outcome, closing := Close(env);
    calls := calls + closing;
  }

  /** The loop of handler: fetch each object in input order and append it
      to the archive, named by its key, until a fetch fails; `failure` is
      the error of the first fetch that fails. */
  method AppendObjects(env: Env, objects: seq<ObjectSpec>) returns (failure: Option<HandlerError>, calls: seq<Call>)
    ensures var k := FirstFailure(objects, FetchSucceeds(env));
      && (failure.None? <==> k == |objects|)
      && (failure.Some? ==> k < |objects| && failure.value == Fetch(env, objects[k]).error)
      && calls == LoopCalls(env, if k < |objects| then objects[..k + 1] else objects)
  {
    calls := [];
    var i := 0;
    while i < |objects|
      invariant 0 <= i <= |objects|
      invariant forall j :: 0 <= j < i ==> Fetch(env, objects[j]).Success?
      invariant calls == LoopCalls(env, objects[..i])
    {
      var o := objects[i];
      LoopCallsSnoc(env, objects, i);
      calls := calls + [GetObject(o.s3Bucket, o.s3Key)];
      var stream := FetchObject(env, o);
      if stream.Failure? {
        FirstFailureIs(objects, FetchSucceeds(env), i);
        return Some(stream.error), calls;
      }
      calls := calls + [Append(stream.value, o.s3Key)];
      i := i + 1;
    }
    FirstFailureIs(objects, FetchSucceeds(env), |objects|);
    assert objects[..i] == objects;
    return None, calls;
  }

  /** The body of one iteration: send GetObject for the object and bring
      the Body of the reply to a Node.js Readable. */
  method FetchObject(env: Env, o: ObjectSpec) returns (stream: Result<Readable, HandlerError>)
    ensures stream == Fetch(env, o)
    ensures stream.Failure? <==> env.getObject(o).Rejected? || env.getObject(o).body.NoBody?
  {
    var reply := env.getObject(o);
    if reply.Rejected? {
      return Failure(GetObjectFailed(reply.reason));
    }
    stream := ToNodeReadable(reply.body);
  }

  /** The end of handler once every object was appended: finalize the
      archive, wait for the upload, presign the download URL and build the
      result record. */
  method Close(env: Env) returns (outcome: Result<ZipResult, HandlerError>, calls: seq<Call>)
    ensures outcome == ClosingOutcome(env)
    ensures calls == ClosingCalls(env)
  {
    var zipKey := ZipKey(env.isoNow, env.token);
    calls := [Finalize];
    if env.finalizeError.Some? {
      return Failure(FinalizeFailed(env.finalizeError.value)), calls;
    }
    calls := calls + [UploadDone];
    if env.uploadError.Some? {
      return Failure(UploadFailed(env.uploadError.value)), calls;
    }
    calls := calls + [Presign(env.tmpBucket, zipKey, UrlExpirySeconds)];
    var signed := env.presign(env.tmpBucket, zipKey, UrlExpirySeconds);
    if signed.Failure? {
      return Failure(PresignFailed(signed.error)), calls;
    }
    outcome := Success(ZipResult(env.tmpBucket, zipKey, signed.value, UrlExpirySeconds));
  }

  // ---------------------------------------------------------------------------
  // What the calls of an invocation show
  // ---------------------------------------------------------------------------

  /** The names of the archive entries appended by `calls`, in order. */
  function EntryNames(calls: seq<Call>): seq<string>
    decreases |calls|
  {
    if calls == [] then [] else
    var last := calls[|calls| - 1];
    EntryNames(calls[..|calls| - 1]) + (if last.Append? then [last.name] else [])
  }

  /** The objects fetched by `calls`, in order. */
  function FetchedObjects(calls: seq<Call>): seq<ObjectSpec>
    decreases |calls|
  {
    if calls == [] then [] else
    var last := calls[|calls| - 1];
    FetchedObjects(calls[..|calls| - 1]) + (if last.GetObject? then [ObjectSpec(last.bucket, last.key)] else [])
  }

  /** The keys of the objects, in order. */
  function Keys(objs: seq<ObjectSpec>): (keys: seq<string>)
    ensures |keys| == |objs|
    ensures forall i :: 0 <= i < |objs| ==> keys[i] == objs[i].s3Key
  {
    seq(|objs|, i requires 0 <= i < |objs| => objs[i].s3Key)
  }

  lemma OneCall(c: Call)
    ensures EntryNames([c]) == if c.Append? then [c.name] else []
    ensures FetchedObjects([c]) == if c.GetObject? then [ObjectSpec(c.bucket, c.key)] else []
  {
  }

  lemma {:induction false} EntryNamesConcat(a: seq<Call>, b: seq<Call>)
    ensures EntryNames(a + b) == EntryNames(a) + EntryNames(b)
    decreases |b|
  {
    if b == [] {
      assert a + b == a;
    } else {
      var b' := b[..|b| - 1];
      assert (a + b)[..|a + b| - 1] == a + b';
      EntryNamesConcat(a, b');
    }
  }

  lemma {:induction false} FetchedObjectsConcat(a: seq<Call>, b: seq<Call>)
    ensures FetchedObjects(a + b) == FetchedObjects(a) + FetchedObjects(b)
    decreases |b|
  {
    if b == [] {
      assert a + b == a;
    } else {
      var b' := b[..|b| - 1];
      assert (a + b)[..|a + b| - 1] == a + b';
      FetchedObjectsConcat(a, b');
    }
  }

  lemma EntryNamesOfThree(a: seq<Call>, b: seq<Call>, c: seq<Call>)
    ensures EntryNames(a + b + c) == EntryNames(a) + EntryNames(b) + EntryNames(c)
  {
    EntryNamesConcat(a + b, c);
    EntryNamesConcat(a, b);
  }

  lemma FetchedObjectsOfThree(a: seq<Call>, b: seq<Call>, c: seq<Call>)
    ensures FetchedObjects(a + b + c) == FetchedObjects(a) + FetchedObjects(b) + FetchedObjects(c)
  {
    FetchedObjectsConcat(a + b, c);
    FetchedObjectsConcat(a, b);
  }

  /** Calls that neither append nor fetch contribute no entry and no fetch. */
  lemma {:induction false} NoEntriesNoFetches(calls: seq<Call>)
    requires forall i :: 0 <= i < |calls| ==> !calls[i].Append? && !calls[i].GetObject?
    ensures EntryNames(calls) == [] && FetchedObjects(calls) == []
    decreases |calls|
  {
    if calls != [] {
      NoEntriesNoFetches(calls[..|calls| - 1]);
    }
  }

  /** Surrounding calls that neither append nor fetch leave the entries and
      the fetches as they are. */
  lemma EntriesBetween(a: seq<Call>, b: seq<Call>, c: seq<Call>)
    requires EntryNames(a) == [] && FetchedObjects(a) == []
    requires EntryNames(c) == [] && FetchedObjects(c) == []
    ensures EntryNames(a + b + c) == EntryNames(b)
    ensures FetchedObjects(a + b + c) == FetchedObjects(b)
  {
    EntryNamesOfThree(a, b, c);
    FetchedObjectsOfThree(a, b, c);
    assert [] + EntryNames(b) + [] == EntryNames(b);
    assert [] + FetchedObjects(b) + [] == FetchedObjects(b);
  }

  lemma OpeningAndClosingHaveNoEntries(env: Env)
    ensures EntryNames(OpeningCalls(env)) == [] && FetchedObjects(OpeningCalls(env)) == []
    ensures EntryNames(ClosingCalls(env)) == [] && FetchedObjects(ClosingCalls(env)) == []
  {
    NoEntriesNoFetches(OpeningCalls(env));
    NoEntriesNoFetches(ClosingCalls(env));
  }

  /** The loop makes only GetObject and Append calls. */
  lemma {:induction false} LoopCallsKinds(env: Env, objs: seq<ObjectSpec>)
    ensures forall i :: 0 <= i < |LoopCalls(env, objs)| ==> LoopCalls(env, objs)[i].GetObject? || LoopCalls(env, objs)[i].Append?
    decreases |objs|
  {
    if objs != [] {
      var front: seq<Call> := LoopCalls(env, objs[..|objs| - 1]);
      LoopCallsKinds(env, objs[..|objs| - 1]);
      var step: seq<Call> := StepCalls(env, objs[|objs| - 1]);
      var calls: seq<Call> := LoopCalls(env, objs);
      assert calls == front + step;
      forall i | 0 <= i < |calls|
        ensures calls[i].GetObject? || calls[i].Append?
      {
        if i >= |front| {
          assert calls[i] == step[i - |front|];
        } else {
          assert calls[i] == front[i];
        }
      }
    }
  }

  /** The calls of one iteration whose fetch succeeds: fetch, then append. */
  lemma SucceededStep(env: Env, o: ObjectSpec)
    requires Fetch(env, o).Success?
    ensures StepCalls(env, o) == [GetObject(o.s3Bucket, o.s3Key), Append(Fetch(env, o).value, o.s3Key)]
    ensures EntryNames(StepCalls(env, o)) == [o.s3Key]
    ensures FetchedObjects(StepCalls(env, o)) == [o]
  {
    var step := StepCalls(env, o);
    assert step == [step[0]] + [step[1]];
    EntryNamesConcat([step[0]], [step[1]]);
    FetchedObjectsConcat([step[0]], [step[1]]);
    OneCall(step[0]);
    OneCall(step[1]);
  }

  /** When every fetch succeeds, the loop fetches object i and then appends
      its stream as an entry named by its key, for each i in input order. */
  lemma {:induction false} LoopCallsAlternate(env: Env, objs: seq<ObjectSpec>)
    requires forall j :: 0 <= j < |objs| ==> Fetch(env, objs[j]).Success?
    ensures |LoopCalls(env, objs)| == 2 * |objs|
    ensures forall i :: 0 <= i < |objs| ==>
      && LoopCalls(env, objs)[2 * i] == GetObject(objs[i].s3Bucket, objs[i].s3Key)
      && LoopCalls(env, objs)[2 * i + 1] == Append(Fetch(env, objs[i]).value, objs[i].s3Key)
    decreases |objs|
  {
    if objs != [] {
      var n := |objs|;
      var front := objs[..n - 1];
      LoopCallsAlternate(env, front);
      SucceededStep(env, objs[n - 1]);
      var calls := LoopCalls(env, objs);
      assert calls == LoopCalls(env, front) + StepCalls(env, objs[n - 1]);
      forall i | 0 <= i < n
        ensures calls[2 * i] == GetObject(objs[i].s3Bucket, objs[i].s3Key)
        ensures calls[2 * i + 1] == Append(Fetch(env, objs[i]).value, objs[i].s3Key)
      {
        if i < n - 1 {
          assert objs[i] == front[i];
        }
      }
    }
  }

  /** When every fetch succeeds, the loop appends one entry per object, in
      input order, named by the object's key. */
  lemma {:induction false} LoopEntryNames(env: Env, objs: seq<ObjectSpec>)
    requires forall j :: 0 <= j < |objs| ==> Fetch(env, objs[j]).Success?
    ensures EntryNames(LoopCalls(env, objs)) == Keys(objs)
    decreases |objs|
  {
    if objs != [] {
      var n := |objs|;
      var front := objs[..n - 1];
      LoopEntryNames(env, front);
      SucceededStep(env, objs[n - 1]);
      EntryNamesConcat(LoopCalls(env, front), StepCalls(env, objs[n - 1]));
      assert Keys(front) + [objs[n - 1].s3Key] == Keys(objs);
    }
  }

  /** One iteration fetches its object once, whether or not the fetch succeeds. */
  lemma StepFetches(env: Env, o: ObjectSpec)
    ensures FetchedObjects(StepCalls(env, o)) == [o]
  {
    var step := StepCalls(env, o);
    if Fetch(env, o).Success? {
      SucceededStep(env, o);
    } else {
      assert step == [GetObject(o.s3Bucket, o.s3Key)];
      OneCall(step[0]);
    }
  }

  lemma FetchesOfSnoc(a: seq<Call>, b: seq<Call>, front: seq<ObjectSpec>, o: ObjectSpec)
    requires FetchedObjects(a) == front && FetchedObjects(b) == [o]
    ensures FetchedObjects(a + b) == front + [o]
  {
    FetchedObjectsConcat(a, b);
  }

  /** The loop fetches each object it gets to once, in input order. */
  lemma {:induction false} LoopFetchedObjects(env: Env, objs: seq<ObjectSpec>)
    ensures FetchedObjects(LoopCalls(env, objs)) == objs
    decreases |objs|
  {
    if objs != [] {
      var n := |objs|;
      var front := objs[..n - 1];
      var o := objs[n - 1];
      var loop, step := LoopCalls(env, front), StepCalls(env, o);
      assert LoopCalls(env, objs) == loop + step;
      assert FetchedObjects(loop + step) == front + [o] by {
        LoopFetchedObjects(env, front);
        StepFetches(env, o);
        FetchesOfSnoc(loop, step, front, o);
      }
      assert front + [o] == objs;
    }
  }

  /** The entries and fetches of a run over `objs` whose fetches all succeed. */
  lemma CompletedCallsFacts(env: Env, objs: seq<ObjectSpec>)
    requires forall j :: 0 <= j < |objs| ==> Fetch(env, objs[j]).Success?
    ensures EntryNames(OpeningCalls(env) + LoopCalls(env, objs) + ClosingCalls(env)) == Keys(objs)
    ensures FetchedObjects(OpeningCalls(env) + LoopCalls(env, objs) + ClosingCalls(env)) == objs
  {
    LoopEntryNames(env, objs);
    LoopFetchedObjects(env, objs);
    OpeningAndClosingHaveNoEntries(env);
    EntriesBetween(OpeningCalls(env), LoopCalls(env, objs), ClosingCalls(env));
  }

  /** After a successful invocation the archive holds one entry per requested
      object, in input order, named by the object's key; the objects were
      fetched in input order, each exactly once. */
  lemma SucceededRunEntries(event: EventPayload, env: Env)
    requires HandlerOutcome(event, env).Success?
    ensures !IsEmptyRequest(event)
    ensures EntryNames(HandlerCalls(event, env)) == Keys(event.objects.value)
    ensures FetchedObjects(HandlerCalls(event, env)) == event.objects.value
  {
    var objs := event.objects.value;
    assert FirstFailedFetch(event, env) == |objs|;
    CompletedSpec(event, env);
    CompletedCallsFacts(env, objs);
  }

  /** After a successful invocation the calls are: open the upload of the
      archive (the result's bucket and key, content type application/zip),
      open the archive, fetch and append each object in turn, and then
      finalize, upload done and presign, in that order; the URL returned is
      the one presigned for the result's bucket and key with expiry 900 s. */
  lemma SucceededRunOrder(event: EventPayload, env: Env)
    requires HandlerOutcome(event, env).Success?
    ensures !IsEmptyRequest(event)
    ensures var objs, calls, r := event.objects.value, HandlerCalls(event, env), HandlerOutcome(event, env).value;
      && |calls| == 2 * |objs| + 5
      && calls[0] == OpenUpload(r.zipBucket, r.zipKey, ZipContentType)
      && calls[1] == OpenArchive(ArchiveFormat, CompressionLevel)
      && (forall i :: 0 <= i < |objs| ==>
            && calls[2 + 2 * i] == GetObject(objs[i].s3Bucket, objs[i].s3Key)
            && calls[3 + 2 * i] == Append(Fetch(env, objs[i]).value, objs[i].s3Key))
      && calls[|calls| - 3] == Finalize
      && calls[|calls| - 2] == UploadDone
      && calls[|calls| - 1] == Presign(r.zipBucket, r.zipKey, UrlExpirySeconds)
      && r.zipBucket == env.tmpBucket
      && r.zipKey == ZipKey(env.isoNow, env.token)
      && r.expiresIn == UrlExpirySeconds
      && env.presign(r.zipBucket, r.zipKey, UrlExpirySeconds) == Success(r.downloadUrl)
      && env.finalizeError.None? && env.uploadError.None?
  {
    var objs := event.objects.value;
    assert FirstFailedFetch(event, env) == |objs|;
    CompletedSpec(event, env);
    CompletedCallsOrder(env, objs);
  }

  /** The calls of opening + loop + closing by position. */
  lemma ConcatPositions(opening: seq<Call>, loop: seq<Call>, closing: seq<Call>)
    requires |opening| == 2 && |closing| == 3
    ensures var calls := opening + loop + closing;
      && |calls| == |loop| + 5
      && calls[0] == opening[0] && calls[1] == opening[1]
      && (forall m :: 0 <= m < |loop| ==> calls[2 + m] == loop[m])
      && calls[|calls| - 3] == closing[0]
      && calls[|calls| - 2] == closing[1]
      && calls[|calls| - 1] == closing[2]
  {
  }

  /** The calls of a run over `objs` whose fetches, finalize and upload all succeed, by position. */
  lemma CompletedCallsOrder(env: Env, objs: seq<ObjectSpec>)
    requires forall j :: 0 <= j < |objs| ==> Fetch(env, objs[j]).Success?
    requires env.finalizeError.None? && env.uploadError.None?
    ensures var calls, key := OpeningCalls(env) + LoopCalls(env, objs) + ClosingCalls(env), ZipKey(env.isoNow, env.token);
      && |calls| == 2 * |objs| + 5
      && calls[0] == OpenUpload(env.tmpBucket, key, ZipContentType)
      && calls[1] == OpenArchive(ArchiveFormat, CompressionLevel)
      && (forall i :: 0 <= i < |objs| ==>
            && calls[2 + 2 * i] == GetObject(objs[i].s3Bucket, objs[i].s3Key)
            && calls[3 + 2 * i] == Append(Fetch(env, objs[i]).value, objs[i].s3Key))
      && calls[|calls| - 3] == Finalize
      && calls[|calls| - 2] == UploadDone
      && calls[|calls| - 1] == Presign(env.tmpBucket, key, UrlExpirySeconds)
  {
    var loop := LoopCalls(env, objs);
    LoopCallsAlternate(env, objs);
    ConcatPositions(OpeningCalls(env), loop, ClosingCalls(env));
    forall i | 0 <= i < |objs|
      ensures 2 + 2 * i == 2 + (2 * i) && 3 + 2 * i == 2 + (2 * i + 1)
    {
    }
  }

  /** The position of each kind of call in the sequence an invocation makes. */
  function Stage(c: Call): nat {
    match c
    case OpenUpload(_, _, _) => 0
    case OpenArchive(_, _) => 1
    case GetObject(_, _) => 2
    case Append(_, _) => 2
    case Finalize => 3
    case UploadDone => 4
    case Presign(_, _, _) => 5
  }

  /** The calls after the loop come one stage after another, starting at Finalize. */
  lemma AfterLoopStages(event: EventPayload, env: Env)
    requires !IsEmptyRequest(event)
    ensures var after := AfterLoopCalls(event, env);
      && |after| <= 3
      && (forall q :: 0 <= q < |after| ==> Stage(after[q]) == 3 + q)
      && (forall q :: 0 <= q < |after| && after[q].Presign? ==>
            && after == [Finalize, UploadDone, Presign(env.tmpBucket, ZipKey(env.isoNow, env.token), UrlExpirySeconds)]
            && env.finalizeError.None? && env.uploadError.None?)
  {
  }

  /** Where each stage sits in opening + loop + after. */
  lemma StagesByPosition(opening: seq<Call>, loop: seq<Call>, after: seq<Call>)
    requires |opening| == 2 && Stage(opening[0]) == 0 && Stage(opening[1]) == 1
    requires forall i :: 0 <= i < |loop| ==> Stage(loop[i]) == 2
    requires forall q :: 0 <= q < |after| ==> Stage(after[q]) == 3 + q
    ensures var calls := opening + loop + after;
      forall m :: 0 <= m < |calls| ==>
        Stage(calls[m]) == if m < 2 then m else if m < 2 + |loop| then 2 else 1 + m - |loop|
  {
  }

  /** Each stage of an invocation's calls, by position. */
  lemma HandlerStages(event: EventPayload, env: Env)
    requires !IsEmptyRequest(event)
    ensures var calls, loopLength := HandlerCalls(event, env), |LoopCalls(env, AttemptedObjects(event, env))|;
      forall m :: 0 <= m < |calls| ==>
        Stage(calls[m]) == if m < 2 then m else if m < 2 + loopLength then 2 else 1 + m - loopLength
  {
    var attempted := AttemptedObjects(event, env);
    LoopCallsKinds(env, attempted);
    AfterLoopStages(event, env);
    StagesByPosition(OpeningCalls(env), LoopCalls(env, attempted), AfterLoopCalls(event, env));
  }

  /** In every invocation the calls come in stage order: open the upload,
      open the archive, fetch and append, finalize, upload done, presign;
      every stage but fetch-and-append occurs at most once. */
  lemma CallsInStageOrder(event: EventPayload, env: Env)
    ensures var calls := HandlerCalls(event, env);
      forall i, j :: 0 <= i < j < |calls| ==>
        Stage(calls[i]) < Stage(calls[j]) || Stage(calls[i]) == Stage(calls[j]) == 2
  {
    if !IsEmptyRequest(event) {
      HandlerStages(event, env);
    }
  }

  /** A URL is presigned only as the last call, right after the archive was
      finalized and the upload reported done, for the archive's bucket and
      key and with expiry 900 s, whatever the number of objects; a
      successful result carries that same expiry. */
  lemma PresignFollowsBothSignals(event: EventPayload, env: Env)
    ensures var calls := HandlerCalls(event, env);
      forall p :: 0 <= p < |calls| && calls[p].Presign? ==>
        && p == |calls| - 1 && p >= 2
        && calls[p - 2] == Finalize
        && calls[p - 1] == UploadDone
        && calls[p] == Presign(env.tmpBucket, ZipKey(env.isoNow, env.token), UrlExpirySeconds)
        && env.finalizeError.None? && env.uploadError.None?
    ensures HandlerOutcome(event, env).Success? ==> HandlerOutcome(event, env).value.expiresIn == UrlExpirySeconds
  {
    if !IsEmptyRequest(event) {
      var calls := HandlerCalls(event, env);
      forall p | 0 <= p < |calls| && calls[p].Presign?
        ensures p == |calls| - 1 && p >= 2 && calls[p - 2] == Finalize && calls[p - 1] == UploadDone
        ensures calls[p] == Presign(env.tmpBucket, ZipKey(env.isoNow, env.token), UrlExpirySeconds)
        ensures env.finalizeError.None? && env.uploadError.None?
      {
        PresignAt(event, env, p);
      }
    }
  }

  /** A Presign call at position p of an invocation's calls. */
  lemma PresignAt(event: EventPayload, env: Env, p: nat)
    requires !IsEmptyRequest(event)
    requires p < |HandlerCalls(event, env)| && HandlerCalls(event, env)[p].Presign?
    ensures var calls := HandlerCalls(event, env);
      && p == |calls| - 1 && p >= 2
      && calls[p - 2] == Finalize && calls[p - 1] == UploadDone
      && calls[p] == Presign(env.tmpBucket, ZipKey(env.isoNow, env.token), UrlExpirySeconds)
      && env.finalizeError.None? && env.uploadError.None?
  {
    var loop := LoopCalls(env, AttemptedObjects(event, env));
    var after := AfterLoopCalls(event, env);
    var calls := HandlerCalls(event, env);
    HandlerStages(event, env);
    AfterLoopStages(event, env);
    assert Stage(calls[p]) == 5;
    assert calls[p] == after[p - 2 - |loop|];
  }

  /** When the fetch of object k is the first to fail (the GetObject call
      rejects or the reply has no Body), the invocation rejects with that
      error; exactly the entries of objects 0..k-1 were appended, objects
      0..k were fetched and no later one, and every call came before the
      finalize stage: the archive was never finalized, the upload never
      awaited and no URL presigned. */
  lemma AbortedRun(event: EventPayload, env: Env, k: nat)
    requires !IsEmptyRequest(event)
    requires k < |event.objects.value|
    requires forall j :: 0 <= j < k ==> Fetch(env, event.objects.value[j]).Success?
    requires Fetch(env, event.objects.value[k]).Failure?
    ensures HandlerOutcome(event, env) == Failure(Fetch(env, event.objects.value[k]).error)
    ensures EntryNames(HandlerCalls(event, env)) == Keys(event.objects.value[..k])
    ensures FetchedObjects(HandlerCalls(event, env)) == event.objects.value[..k + 1]
    ensures forall i :: 0 <= i < |HandlerCalls(event, env)| ==> Stage(HandlerCalls(event, env)[i]) < Stage(Finalize)
  {
    var objs := event.objects.value;
    FirstFailureIs(objs, FetchSucceeds(env), k);
    assert HandlerCalls(event, env) == OpeningCalls(env) + LoopCalls(env, objs[..k + 1]) + [];
    AbortedCallsFacts(env, objs, k);
    HandlerStages(event, env);
  }

  /** The entries and fetches of a run over `objs` whose fetch of object k is
      the first to fail. */
  lemma AbortedCallsFacts(env: Env, objs: seq<ObjectSpec>, k: nat)
    requires k < |objs|
    requires forall j :: 0 <= j < k ==> Fetch(env, objs[j]).Success?
    requires Fetch(env, objs[k]).Failure?
    ensures EntryNames(OpeningCalls(env) + LoopCalls(env, objs[..k + 1]) + []) == Keys(objs[..k])
    ensures FetchedObjects(OpeningCalls(env) + LoopCalls(env, objs[..k + 1]) + []) == objs[..k + 1]
  {
    AbortedLoopEntryNames(env, objs, k);
    LoopFetchedObjects(env, objs[..k + 1]);
    OpeningAndClosingHaveNoEntries(env);
    NoEntriesNoFetches([]);
    EntriesBetween(OpeningCalls(env), LoopCalls(env, objs[..k + 1]), []);
  }

  /** The loop up to a failing fetch appends the entries before it only. */
  lemma AbortedLoopEntryNames(env: Env, objs: seq<ObjectSpec>, k: nat)
    requires k < |objs|
    requires forall j :: 0 <= j < k ==> Fetch(env, objs[j]).Success?
    requires Fetch(env, objs[k]).Failure?
    ensures EntryNames(LoopCalls(env, objs[..k + 1])) == Keys(objs[..k])
  {
    LoopCallsSnoc(env, objs, k);
    var front := objs[..k];
    assert forall j :: 0 <= j < |front| ==> Fetch(env, front[j]).Success?;
    LoopEntryNames(env, front);
    var step := StepCalls(env, objs[k]);
    assert step == [step[0]];
    OneCall(step[0]);
    EntryNamesConcat(LoopCalls(env, front), step);
  }
}

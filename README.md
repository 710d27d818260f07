# codebox-npm package retrieval handler, modelled in Dafny

The model covers `GET /registry/{name}`, the handler of the codebox-npm private
registry that serves a package document. It looks in the private cache (an S3
bucket) first. If the package is not there, it asks the upstream npm registry.

- **Cache hit.** The handler reads `<decoded name>/index.json` and parses it.
  It sets `_attachments` to `{}` and answers 200.
- **Missing key.** A storage error with code `NoSuchKey` sends the handler to
  the registry. It calls `npm.package` with the configured registry and the
  raw, still-encoded path parameter. It answers 200 with the registry's
  document unchanged. If the registry fails, it answers with the registry's
  status and `{"error": message}`, and it logs the failure only when that
  status is 500.
- **Any other failure inside the `try`.** This covers a storage error with
  another code, a document that does not parse, and a parsed value that cannot
  take the attachments property. The handler logs the error for the caller and
  answers 500 with `{"error": message}`. It never asks the registry.

## How it is modelled

- `Json` (json.dfy) holds abstract JSON values. `ClearAttachments` is the
  strict-mode assignment `json._attachments = {}` as JSON.stringify sees its
  result:
  - an object gets the property;
  - an array accepts it but does not serialise it;
  - null and primitives throw a TypeError.
- `Effects` (effects.dfy) describes what an invocation does as an ordered trace:
  - `Read(key)` is `storage.get`;
  - `Fetch(registry, name)` is `npm.package`;
  - `Log(logger, user, error)` is `log.error`;
  - `Reply(err, response)` is `callback`;
  - `Throw(error)` is a rejection of the handler's promise.

  `Select` picks out the effects of one kind. No effect writes to storage, so
  no path can write to storage.
- `Adapters` (adapters.dfy) treats each collaborator as an oracle, and a
  `World` holds them all. The oracles are `decodeURIComponent`, `storage.get`,
  `JSON.parse`, `npm.package` and the runtime's TypeError message. A JavaScript
  property that may be `undefined` (`code`, `status`, the response's
  `statusCode`) is an `Option`.
- `Get` (get.dfy) defines the handler twice:
  - `Handle` is a pure function from configuration, request and world to the
    trace;
  - `HandleGet` is the step-by-step method. It runs against a `Host` object
    whose methods append to an effect log, and it is proved to produce exactly
    `Handle`'s trace.
- `GetProperties` (get_properties.dfy) proves what every invocation
  guarantees.
- `GetExamples` (get_examples.dfy) works through the test scenarios on the
  package fixture.

Details of the code the model keeps:

- The registry receives the raw path parameter, not the decoded name
  (src/get.js:28).
- `decodeURIComponent` runs outside the `try` (src/get.js:14). A malformed
  name therefore rejects the handler's promise and `callback` is never
  called. Every other path ends in a call to `callback`, provided `log.error`
  and `callback` themselves do not throw (see "## Left out").
- A cached document that does not parse, or that parses to null or to a
  primitive, ends in the generic 500 branch. It is never treated as a miss.
- A registry error without a `status` is answered with an undefined
  `statusCode` and is not logged.

## Model

| member | source | states |
|---|---|---|
| Json.ClearAttachments | src/get.js:19 | the assignment succeeds exactly on objects and arrays; an object comes back with `_attachments` equal to `{}` and every other property unchanged; an array comes back as it was |
| Json.ClearAttachmentsKeepsCleared | test/fixtures/package.js:29-51 | a parsed object whose `_attachments` is already `{}`, like the fixture without attachments, comes back unchanged |
| Get.Host.StorageGet | src/get.js:17 | records one read of the given key and returns what storage holds under it |
| Get.Host.NpmPackage | src/get.js:28 | records one registry call with the given registry and name and returns the registry's answer |
| Get.Host.LogError | src/get.js:36-48 | appends one log entry for the given logger, user and error |
| Get.Host.Callback | src/get.js:21-55 | appends one callback invocation with the given error argument and response |
| Get.Host.Reject | src/get.js:14 | appends one rejection of the handler's promise with the given error |
| Get.HandleGet | src/get.js:5-57 | the handler's effects, in order, are exactly the trace `Handle` gives for the same request and world |
| GetProperties.UndecodableNameRejects | src/get.js:14 | a name that decodeURIComponent rejects makes the handler throw that URIError; storage, the registry, the logger and callback are not used |
| GetProperties.ReadsOnlyTheIndexKey | src/get.js:14-17 | storage is read exactly once, as the first effect, under the decoded name followed by `/index.json` |
| GetProperties.UpstreamOnlyOnNoSuchKey | src/get.js:25-28 | the registry is called at most once, with the configured registry and the raw name, and it is called if and only if the storage read failed with code `NoSuchKey` |
| GetProperties.LogsIffAnswer500 | src/get.js:34-55 | at most one log entry is written, by the `package:get` logger and for the caller, and one is written if and only if the answer's status is 500 |
| GetProperties.DecodedNameAlwaysAnswered | src/get.js:21-55 | for a decodable name `callback` is called exactly once, with a null error, as the last effect, and nothing is thrown |
| GetProperties.CacheHitAnswersStripped | src/get.js:16-24 | a cached object is answered with 200 and a body equal to it except that `_attachments` is `{}`; the registry and the logger are not used |
| GetProperties.CachedArrayServedAsIs | src/get.js:18-23 | a cached array is answered with 200 and the array itself |
| GetProperties.UnusableCachedDocumentAnswers500 | src/get.js:16-55 | a cached document that does not parse, or parses to null or a primitive, is logged once and answered with 500 and the runtime error's message, with no registry call |
| GetProperties.StorageFailureAnswers500 | src/get.js:48-55 | a storage error whose code is not `NoSuchKey` is logged once for the caller and answered with 500 and `{"error": its message}`, with no registry call |
| GetProperties.UpstreamPackageVerbatim | src/get.js:26-33 | on a missing key the registry's document is answered with 200 exactly as received, attachments included, and nothing is logged |
| GetProperties.UpstreamErrorPassedThrough | src/get.js:34-44 | on a missing key a registry error is answered with its own status and `{"error": its message}`; it is logged, just before the answer, if and only if its status is 500 |
| GetExamples.CachedFixtureServedWithoutAttachments | test/get.test.js:128-146 | the fixture with an inline tarball, cached under `foo-bar-package/index.json`, is served as the fixture with empty attachments |
| GetExamples.MissingFixtureFetchedFromNpm | test/get.test.js:83-103 | on `NoSuchKey` npm is asked with `https://example.com` and `foo-bar-package`, and its document is served with 200 |
| GetExamples.NpmFailureLoggedAndAnswered | test/get.test.js:211-218 | an npm failure with status 500 and message `Npm error.` is logged for the caller and answered with 500 and `{"error":"Npm error."}` |
| GetExamples.StorageFailureLoggedAndAnswered | test/get.test.js:167-174 | a storage failure with message `Storage error.` is logged and answered with 500 and `{"error":"Storage error."}`, without an npm call |
| GetExamples.ScopedNameReadDecodedFetchedRaw | src/get.js:14-28 | for the path parameter `@scope%2Fpkg` storage is read at `@scope/pkg/index.json` while npm receives `@scope%2Fpkg` |

## Left out

- The S3, npm and Logger adapters are not modelled. They are network and SNS
  clients; the model takes their answers as oracles in `World`.
- decodeURIComponent, `Buffer.toString`, JSON.parse and JSON.stringify are
  library behaviour. The model takes their results (or errors) as oracles and
  does not model JSON text. Objects are maps, so property order, which
  JSON.stringify keeps, is not modelled.
- A failure of `log.error` itself is not modelled. Both awaits of it
  (src/get.js:36 and 48) are unguarded, so a failed log write would reject the
  handler without `callback` being called.
- Get.Host.Callback: the model's `callback` never throws. In the code each
  `return callback(...)` sits inside a `try` (src/get.js:21 inside the outer
  one, src/get.js:30 inside the inner one). An exception from `callback` would
  be caught there and `callback` called a second time: with a 500 after a log
  entry, or with whatever `status` the exception carries (often undefined).
  So the "exactly one callback" of `DecodedNameAlwaysAnswered` assumes a
  `callback` that returns normally.
- Thrown values that are not objects are not modelled. Every error is a record
  with optional `code` and `status` and a string `message`. If storage
  rejected with `null`, for example, reading `.code` in the `catch` would
  throw; the model does not cover that.
- The model leaves out `process.env` loading, the construction of the S3 client
  and the logger from region, bucket and topic, async scheduling and
  test-time dependency substitution. None of them holds logic.
- The value `callback` returns, which the handler passes on, is not modelled.
- JSON numbers are unbounded reals. The handler never inspects numbers.

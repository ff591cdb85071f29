# couchlib request assembly, in Dafny

couchlib is a small CouchDB client for Node.js. This project models the part
of it that decides which request goes to the server:

- **The client.** `new couchlib(options)` treats falsy options (`undefined`,
  `null`, `0`, `""`, `false`) as `{}`, and refuses any other options that
  are not a plain object. Otherwise it defaults `host` to `127.0.0.1` and
  `port` to `5984`, and copies `user` and `password` only when they are
  present. This is `Couchlib.Client`, whose fields are set once, and
  `Couchlib.NewClient`.
- **Request normalisation in `run`.** `run` updates the caller's options
  record in place:
  1. It fills in `host`, `port` and `auth` from the instance when the caller
     left them out.
  2. It replaces `data` by its JSON text.
  3. For a request with data, it defaults the `Accept` and `Content-Type`
     headers.

  `Couchlib.Client.Run` does these steps on a mutable `Couchlib.JsObject`.
  Instead of calling the transport, it returns the options it would pass
  and the body it would write. Its contract ties the new state to the
  functions `FillFromInstance`, `SerializeData` and `DefaultHeaders`, and
  the lemmas about those functions state what the library promises.
- **The request helpers.**
  - `get`, `put`, `post`, `create` and `destroy` normalise the path, then
    build a request literal and run it.
  - `delete` flags the caller's data with `_deleted: true` and sends the path
    as given.
  - `version`, `databases` and `uuid` are GETs of fixed paths.

  Each helper method's contract is `Couchlib.Sends`. It says exactly which
  keys the outgoing options carry, with which values, and which body is
  written.
- **Paths.** `"/" + path.replace(/\//g, "")` is `Paths.NormalizePath`. The
  lemmas prove:
  - it yields one leading slash and no other;
  - it keeps the other characters, in order and with their counts;
  - it is idempotent;
  - it leaves a normal path unchanged.
- **Responses.** `onRequest` concatenates the body segments in order and
  calls back on `end`. This is `Responses.OnRequest`, a loop proved against
  `Responses.EndOutcomes`. With a callback the outcomes are exactly
  `Responses.Deliveries`. Without one (`client.create("db")`, say) every
  `end` throws `TypeError` and nothing is delivered. `version` then picks the `version` field, or the
  fixed message `Unable To Get Version` (`Responses.VersionOf`).

JavaScript values are the datatype `JsValues.Value`. `JsValues` also models
the parts of the language's semantics the library relies on:

- truthiness (`Truthy`);
- the `in` operator (`HasProperty`), including its `TypeError` on a
  primitive;
- property reads and writes;
- `String()` conversion for `+` (`ToJsString`);
- `JSON.stringify` as a `Serializer` parameter, with the one fact the code
  depends on: `undefined` stays `undefined`, and any other value becomes
  non-empty, so truthy, text.

Behaviour of the code worth knowing, all of it modelled as written:

- Path normalisation removes inner slashes as well, so `db/doc` becomes
  `/dbdoc` (`Paths.NormalizePathDropsInnerSlash`).
- GET and DELETE data are sent as a JSON body, not encoded into a query
  string. A plain `get` always sends the body `{}` (`Couchlib.Client.Get`).
- A transport error is only logged. The callback is never called
  (`Responses.FailureDeliversNothing`).
- The media type is spelled `Application/json`.
- No configuration error is raised for a missing host or port. Whatever the
  instance holds, including a falsy value, decides.
- With caller headers, `Content-Type` is never added. The comment at
  couchlib.js:63 says a missing `Content-Type` is defaulted to JSON, but
  line 65 overwrites `Accept` instead (see Findings). `Run` keeps this
  behaviour, because the model describes what the library sends.

## Model

| member | source | states |
|---|---|---|
| Couchlib.ConstructorFields | couchlib.js:9-13 | construction succeeds exactly when the options are falsy (then treated as `{}`) or a plain object; otherwise the error has the library's message |
| Couchlib.NewClient | couchlib.js:9-23 | fails exactly for rejected options, with the library's message; otherwise `host`/`port` come from the options when the key is present, else `127.0.0.1`/`5984`, and `user`/`password` are set only when present |
| Couchlib.Client.constructor | couchlib.js:16-23 | each field is the option's value when the key is present (even a falsy one), otherwise the default (`host`, `port`) or absent (`user`, `password`) |
| Couchlib.Credential | couchlib.js:49 | the `auth` value is the user's string form, then `:`, then the password's string form |
| Couchlib.Prepared | couchlib.js:47-53 | after filling and serialising, `data` is present exactly when the caller gave it and is its JSON text, and `headers` is present and unchanged exactly when the caller gave it |
| Couchlib.Normalize | couchlib.js:47-68 | normalisation fails exactly when the request has `data` and a headers value that is not an object, and the failure is `TypeError` |
| Couchlib.FillFromInstance | couchlib.js:47-49 | a caller-supplied `host`/`port`/`auth` is kept; an absent one is added exactly when the instance value is truthy (both credentials truthy for `auth`, then `user:password`); all other keys are unchanged |
| Couchlib.Client.FillInstanceSettings | couchlib.js:47-49 | updates the options object in place, field by field, to `FillFromInstance` of its old contents |
| Couchlib.HeaderStepKeeps | couchlib.js:52-68 | when the header step succeeds, every entry other than `headers` is unchanged |
| Couchlib.CallerSettingsWin | couchlib.js:47-49 | whenever `run` succeeds, a `host`, `port` or `auth` the caller supplied reaches the transport unchanged |
| Couchlib.SerializeData | couchlib.js:52-53 | the keys are unchanged; `data`, when present, becomes its JSON text (`undefined` stays `undefined`); every other entry is unchanged |
| JsValues.Stringify | couchlib.js:53 | the result is `undefined` exactly for `undefined`; otherwise it is the serialiser's text, which is truthy |
| Couchlib.DefaultHeaders | couchlib.js:52-68 | without `data`, the request is unchanged; with `data` and no headers, headers become exactly the two JSON entries; a primitive headers value throws `TypeError`; a headers object goes through `DefaultCallerHeaders` |
| Couchlib.DefaultCallerHeaders | couchlib.js:58-67 | `Accept` is always present: a caller's `Accept` is kept only when `Content-Type` is present too, otherwise it is `Application/json`; `Content-Type`'s presence and value and every other header are unchanged (for a plain headers object, every other key, whatever its name; for an array, its elements and every other property) |
| Couchlib.Client.SetDefaultHeaders | couchlib.js:52-68 | reports whether the header step succeeds; on success the options are `DefaultHeaders` of the old ones, and when it throws they are unchanged |
| Couchlib.NoDataKeepsRequest | couchlib.js:52 | without `data`, normalisation cannot fail, `data` stays absent, headers are exactly as given, and no body is written |
| Couchlib.CallerHeadersKept | couchlib.js:58-67 | with `data` and a headers object, normalisation succeeds; the caller's `Content-Type` is kept, the caller's `Accept` is kept when `Content-Type` is present, and a missing `Accept` becomes `Application/json` |
| Couchlib.AcceptOverwrittenWithoutContentType | couchlib.js:64-65 | headers holding only `Accept` come out as just `Accept: Application/json`: the caller's value is lost and no `Content-Type` is added |
| Couchlib.IntendedCallerHeaders | couchlib.js:59-66 | the defaulting the comments describe: each missing header of the two becomes `Application/json`, each present one is kept, others are unchanged |
| Couchlib.IntendedAgreesWithContentType | couchlib.js:63-66 | the code and the intended defaulting give the same headers exactly when the caller already sent `Content-Type` |
| Couchlib.BodyOf | couchlib.js:93 | a body is written exactly when `data` is present and truthy; when `data` is JSON text, as it is after serialisation, that text itself is the body |
| Couchlib.Client.Run | couchlib.js:47-93 | when a step throws, the result is `TypeError` and the options are left as the first two steps made them; otherwise the options are `Normalize` of the old ones, and the result carries them with `BodyOf` |
| Couchlib.NormalizeRequestLiteral | couchlib.js:47-68 | normalising a helper's literal `{method, path[, data]}` never throws, and the result is what `Sends` describes |
| Couchlib.PreparedLiteral | couchlib.js:47-53 | before the header step, a helper's literal has the instance entries filled in, its own method and path, serialised data, and no headers |
| Couchlib.Client.Send | couchlib.js:109 | allocates a fresh options object for the literal, runs it, and sends exactly what `Sends` describes |
| Couchlib.Client.Get | couchlib.js:102-110 | a GET of the normalised path with data `{}`, so it carries the two JSON headers and always writes the body `json({})` |
| Couchlib.Client.GetWithData | couchlib.js:102-110 | a GET of the normalised path carrying the given data |
| Couchlib.Client.Put | couchlib.js:113-116 | a PUT of the normalised path carrying the given data |
| Couchlib.Client.Post | couchlib.js:119-122 | a POST of the normalised path carrying the given data |
| Couchlib.Client.Delete | couchlib.js:125-129 | the caller's data gains `_deleted: true` in place, every other key unchanged; a DELETE of the path exactly as given carries that data |
| Couchlib.Client.Create | couchlib.js:132-136 | a PUT of the normalised name without data, headers or body |
| Couchlib.Client.Destroy | couchlib.js:139-143 | a DELETE of the normalised name without data, headers or body |
| Couchlib.Client.VersionRequest | couchlib.js:146-147 | `version` sends a GET of `/` |
| Couchlib.RootPath | couchlib.js:147 | normalising `/` gives `/` |
| Couchlib.Client.DatabasesRequest | couchlib.js:163-167 | `databases` sends a GET of `/_all_dbs` |
| Couchlib.AllDbsPath | couchlib.js:164 | normalising `_all_dbs` gives `/_all_dbs` |
| Couchlib.Client.UuidRequest | couchlib.js:171-175 | `uuid(count)` sends a GET of the normalised `_uuids?count=` followed by the count's string form |
| Couchlib.UuidPath | couchlib.js:172 | the path `uuid` asks for is a normal path: one leading slash and no other |
| Couchlib.UuidPathOfNumber | couchlib.js:172 | for an integer count the path is `/_uuids?count=` followed by the count in decimal |
| JsValues.DecimalString | couchlib.js:172 | `String(n)`: non-empty, a leading `-` exactly for negative `n`, otherwise decimal digits without a leading zero |
| JsValues.NatDigitsValue | couchlib.js:172 | reading the digits of a natural number back gives the number |
| JsValues.DecimalStringValue | couchlib.js:172 | the digits of `String(n)` after the sign denote the magnitude of `n` |
| JsValues.ToJsString | couchlib.js:49 | the string form `+` uses: a string is itself, an integer is its decimal form, and `undefined`, `null`, an object and an empty array give `undefined`, `null`, `[object Object]` and the empty string |
| JsValues.Property | couchlib.js:151-152 | reading an absent property gives `undefined` |
| JsValues.WithProperty | couchlib.js:61 | after the assignment the property is present with the new value, and every other named property is unchanged; on a plain object every other key is unchanged, and on an array its elements and every other property |
| Paths.StripSlashes | couchlib.js:108 | the result has no `/` and is no longer than the argument (the expression shared by lines 108, 114, 120, 134 and 141) |
| Paths.NormalizePath | couchlib.js:108 | the result starts with `/` and has no other `/` (the expression shared by lines 108, 114, 120, 134 and 141) |
| Paths.StripSlashesAppend | couchlib.js:108 | stripping distributes over concatenation, so the kept characters stay in their original order (the expression shared by lines 108, 114, 120, 134 and 141) |
| Paths.StripSlashesChar | couchlib.js:108 | a single character is kept exactly when it is not `/` (the expression shared by lines 108, 114, 120, 134 and 141) |
| Paths.StripSlashesKeepsCount | couchlib.js:108 | every character other than `/` occurs as often in the result as in the argument (the expression shared by lines 108, 114, 120, 134 and 141) |
| Paths.StripSlashesOfSlashFree | couchlib.js:108 | a string without `/` is left unchanged (the expression shared by lines 108, 114, 120, 134 and 141) |
| Paths.NormalizePathIdempotent | couchlib.js:108 | normalising twice equals normalising once (the expression shared by lines 108, 114, 120, 134 and 141) |
| Paths.NormalizePathOfNormal | couchlib.js:108 | a path with one leading slash and no other is unchanged (the expression shared by lines 108, 114, 120, 134 and 141) |
| Paths.NormalizePathOfName | couchlib.js:108 | a name without slashes just gains a leading `/` (the expression shared by lines 108, 114, 120, 134 and 141) |
| Paths.NormalizePathDropsInnerSlash | couchlib.js:108 | an inner slash is removed too: `a/b` becomes `/ab` (the expression shared by lines 108, 114, 120, 134 and 141) |
| Responses.OnRequest | couchlib.js:71-82 | the accumulation loop yields exactly `EndOutcomes(events, hasCallback)`, one outcome per `end` event |
| Responses.OutcomesWithCallback | couchlib.js:79-81 | with a callback, the `i`-th outcome is the `i`-th delivery of `Deliveries`: the text buffered so far |
| Responses.OutcomesWithoutCallback | couchlib.js:79-81 | without a callback, every `end` event throws `TypeError`, so nothing is ever delivered |
| Responses.DeliveriesCount | couchlib.js:79-81 | there is exactly one delivery per `end` event |
| Responses.NoCallbackDeliversNothing | couchlib.js:80 | a helper called without a callback loses a complete reply to the `TypeError` thrown at the `end` event |
| Responses.BufferedDataEvents | couchlib.js:74-76 | after data events only, the buffer is the in-order concatenation of the segments, and nothing has been delivered |
| Responses.DeliveredOnceAtEnd | couchlib.js:71-82 | a body that ends normally is delivered exactly once, as the in-order concatenation of all its segments |
| Responses.FailureDeliversNothing | couchlib.js:85-88 | a request that fails before its end is never delivered |
| Responses.ConcatAppend | couchlib.js:75 | the concatenation of two runs of segments is the concatenation of their concatenations |
| Responses.ConcatLength | couchlib.js:75 | the delivered text is exactly as long as the segments together |
| Responses.VersionOf | couchlib.js:149-158 | text that is not JSON throws `SyntaxError`; a primitive reply throws `TypeError`; an object with `version` delivers that value; otherwise the fixed message |
| Responses.VersionDeliveries | couchlib.js:146-159 | one outcome of `version`'s `end` handler per delivery of the underlying GET: a `Success` is the value the callback receives, a `Failure` is the exception thrown before the callback is reached |
| Responses.VersionDeliveredOnce | couchlib.js:146-159 | a complete reply that parses to an object delivers its `version` exactly once, or the fixed message when the field is missing |

## Left out

- The transport is not modelled. The calls to `http.request`,
  `request.write`, `request.on` and `request.end` are replaced: `Run` returns
  the options and the body it would write. The response is a given sequence
  of `data`, `end` and `error` events.
- The `console.log` fallbacks are left out, because they only log. These
  are the fallbacks taken when a callback is missing in `version`,
  `databases` and `uuid`, and the error logger. The model gives the value
  such a callback would receive.
- `JSON.stringify` and `JSON.parse` are foreign functions. Serialisation is
  the `Serializer` parameter. A parse outcome is an `Option<Value>`, and
  `None` stands for a `SyntaxError`.
- The argument-count sniffing in `get` is left out. Its two forms are
  `Client.Get` and `Client.GetWithData`.
- Numbers are integers. Floating point, `NaN` and `Infinity` are not
  modelled. Neither are functions and symbols as values, or the key order of
  objects.
- Couchlib.Client.Run treats a nested headers object as a value. The library
  updates the caller's headers object in place, so a caller who reuses that
  object sees the added `Accept`. Only the top-level options record and the
  data of `delete` are mutable objects here.
- Couchlib.Client.Run takes its options as an object. `run` is callable
  directly, and with `undefined`, `null` or a primitive options value the
  first `in` test (couchlib.js:47) throws `TypeError` before any step runs.
  That case is not modelled.
- Couchlib.Client.Delete takes its data as an object. With `undefined` or
  `null` data the assignment of `_deleted` throws, and with a primitive it is
  silently lost. Neither case is modelled.
- JsValues.DecimalString prints every digit of an integer. JavaScript's
  `String(n)` switches to exponent form once the magnitude reaches 10^21
  (`1e+21`), so for such a count `uuid` asks for `/_uuids?count=1e+21`, while
  `Couchlib.UuidPathOfNumber` states the full digit string. This also
  affects `Credential` for numeric credentials of that size.
- Paths are strings. A non-string path, which makes `.replace` throw, is not
  modelled.
- The `in` operator does not see inherited properties here. Prototype-chain
  lookups are not modelled.
- Body segments are text. Decoding `Buffer` chunks into strings is not
  modelled.
- `tests.js` is not part of this model. It is an integration suite against a
  live server.

## Findings

| source | as written | input that shows it | evidently intended | confidence | as-written member | corrected member |
|---|---|---|---|---|---|---|
| couchlib.js:64-65 | when the caller's headers lack `Content-Type`, the code assigns `headers.Accept` again | `run({"method": "PUT", "path": "/db", "data": {}, "headers": {"Accept": "text/plain"}}, cb)` sends `Accept: Application/json` and no `Content-Type` at all | a missing `Content-Type` is set to `Application/json`, and `Accept` is left alone | high, not executed | Couchlib.AcceptOverwrittenWithoutContentType | Couchlib.IntendedCallerHeaders |

`Couchlib.IntendedAgreesWithContentType` proves the two definitions differ
exactly when `Content-Type` is missing. The helpers and `Run` keep the code's
behaviour, because the model describes what the library sends.

# azure_core request pipeline, modelled in Dafny

This project models the core of the `azure_core` prototype crate of the
azure-sdk-for-rust prototype, plus two small pieces outside it.

- **Headers.** The header map holds one value per name. Header names
  obey a lower-case rule. `from_static` checks it byte by byte, `From<&'static str>`
  checks it character by character, and both panic on a violation, while owned strings are
  lower-cased first. Typed lookups turn a missing or unparseable header
  into a `DataConversion` error.
- **Errors.** The error taxonomy has a closed `ErrorKind` and four
  representations (simple, message, custom, full). It comes with
  `Display`, `source` and the `ResultExt` adapters.
- **Requests.** A request is mutable: URL, method, headers and a byte body.
  Its request content is a byte wrapper typed by a phantom type.
- **Response bodies.** A response body is a lazy stream. A one-shot byte
  stream has a `bytes_read` cursor, and `collect` concatenates chunks and
  stops at the first error.
- **The policy chain.** It is assembled as the caller's per-call
  policies, the options' per-call policies, the caller's per-retry
  policies, the options' per-retry policies, then a transport. Each policy
  receives the rest of the chain. The in-memory transport answers with a
  canned 200 response.
- **Options.** Retry options, client options, and the three builder
  traits, whose setters replace one field or append to a policy list.
- **Etags.** Weak/strong classification and a string round-trip.
- **Typed response.** The typed `Response<T>` of the
  `client_new_method_params_context` client.
- **The `ClientBuilder` derive macro.** Its rule for which struct field
  `options()` returns.

Layout: one module per core source file, with these exceptions. `Policies` covers the three policy files and the `Policy` trait. `Wrappers`, `Primitives` and `Utf8` hold the Rust `Option`/`Result`, decimal text and UTF-8 encoding that the other modules use.

| module | file |
|---|---|
| `Wrappers` | `wrappers.dfy` |
| `Primitives` | `primitives.dfy` |
| `Utf8` | `utf8.dfy` |
| `Errors` | `errors.dfy` |
| `JsonFormat` | `json.dfy` |
| `Headers` | `headers.dfy` |
| `Requests` | `request.dfy` |
| `RequestContents` | `request_content.dfy` |
| `Streams` | `stream.dfy` |
| `Responses` | `response.dfy` |
| `Etags` | `etag.dfy` |
| `RequestContext` | `context.dfy` |
| `Retry` | `retry.dfy` |
| `Transports` | `transport_options.dfy` |
| `Policies` | `policies.dfy` |
| `Options` | `options.dfy` |
| `Pipelines` | `pipeline.dfy` |
| `ClientResponses` | `client_response.dfy` |
| `ClientBuilderDerive` | `client_builder_derive.dfy` |

How the source's shapes are modelled:

- **Mutated objects become classes.** `Headers`, `Request`,
  `BytesStream`, `ClientOptions`, `ClientMethodOptions` and the builders
  are classes, because the source updates them in place.
- **Values become datatypes.** Errors, etags, policies, retry options and
  the pipeline are datatypes.
- **Panics.** A Rust `assert!` becomes the `Checked` result
  `Completed(v)` or `Panicked(message)`. Indexing `next[0]` on an empty
  chain would panic, so the policy methods require a chain that reaches a
  transport.
- **`async` becomes sequential calls.** A `Stream` is a class with a ghost
  `Pending()` sequence of the items still to come.
- **serde is a function parameter.** Serialization and deserialization are
  function-typed parameters whose failure text becomes a `serde_json`
  cause.

## Behaviour worth noting

The model follows the code in each of these places.

- **The authentication policy changes nothing.** `ApiKeyAuthenticationPolicy::send` (sdk/core/src/policies/auth.rs:22-30) inserts no bearer-token header and never reads its credential or scope. It only delegates to `next[0]`, although its name suggests that it authenticates the request. `Policies.SendApiKeyAuthentication` therefore leaves the headers unchanged.
- **Etags are displayed without quotes.** `Display` for `Etag` (sdk/core/src/etag.rs:35-39) writes the stored text verbatim, and the crate's own test (sdk/core/src/etag.rs:57-61) expects `abcd1234` without quotes. No quotes are added or stripped anywhere.

## Model

| member | source | states |
|---|---|---|
| Primitives.DecimalRoundTrip | sdk/core/src/error.rs:32-37 | The decimal text used for an HTTP status reads back as the same number. |
| Primitives.DecimalInjective | sdk/core/src/error.rs:32-37 | Two statuses with the same decimal text are equal. |
| Utf8.EncodeChar | sdk/core/src/headers.rs:176-177 | Encoding a character as `as_bytes` does gives 1 to 4 bytes. An ASCII character is its own byte, and every byte of a multi-byte character is at least 0x80. |
| Utf8.Encode | sdk/core/src/headers.rs:177 | `as_bytes` gives at least one byte per character. |
| Utf8.EncodeAppend | sdk/core/src/headers.rs:177 | The bytes of a concatenation are the bytes of each part, in order. |
| Utf8.EncodeAscii | sdk/core/src/request_content.rs:51-60 | For an ASCII string the UTF-8 bytes are exactly its character codes, one per character. |
| Utf8.AsciiByteIsAsciiChar | sdk/core/src/headers.rs:176-187 | An ASCII byte value occurs in the encoding of a string exactly when that character occurs in the string. |
| Errors.KindText | sdk/core/src/error.rs:28-45 | An `HttpResponse` kind displays as `HttpResponse(<status in decimal>, <error code, or "unknown" when absent>)`. `Credential`, `DataConversion`, `Io` and `Other` each display as their own name. |
| Errors.KindTextInjective | sdk/core/src/error.rs:28-45 | Two kinds with the same `Display` text are the same kind. The one exception is `HttpResponse` with the same status where one error code is absent and the other is `"unknown"`. |
| Errors.IntoError | sdk/core/src/error.rs:20-26 | `into_error` builds a Simple error. Its `kind()` is the given kind, its `source()` is none, and it displays as the kind's text. |
| Errors.FromKind | sdk/core/src/error.rs:125-131 | `From<ErrorKind>` builds a Simple error with that kind and no source, displayed as the kind's text. |
| Errors.New | sdk/core/src/error.rs:53-63 | `Error::new` builds a Custom error with the given kind, and its source is the wrapped error. It displays as the wrapped error's text. |
| Errors.FromMessage | sdk/core/src/error.rs:75-85 | `Error::message` builds a Message error with the given kind and no source, displayed as the message. |
| Errors.WithMessage | sdk/core/src/error.rs:88-100 | `with_message` calls the closure. The error has the given kind, no source, and displays as the closure's result. |
| Errors.FromIoError | sdk/core/src/error.rs:133-137 | An I/O error converts to kind `Io` with that error as its source. |
| Errors.FromJsonError | sdk/core/src/error.rs:139-143 | A `serde_json` error converts to kind `DataConversion` with that error as its source. |
| Errors.FromUrlParseError | sdk/core/src/error.rs:145-149 | A URL parse error converts to kind `DataConversion` with that error as its source. |
| Errors.MapKind | sdk/core/src/error.rs:192-197 | `map_kind` leaves an `Ok` untouched. An `Err` becomes a Custom error with the new kind and the original error as source, displayed as that error's text. |
| Errors.Context | sdk/core/src/error.rs:199-213 | `context` leaves an `Ok` untouched. An `Err` becomes a Full error with the new kind and the original error as source, displayed as the message rather than the cause. |
| Errors.WithContext | sdk/core/src/error.rs:215-222 | `with_context(kind, f)` equals `context(kind, f())`. |
| Errors.Source | sdk/core/src/error.rs:114-123 | `source()` is `Some` exactly for the Custom and Full representations, and `None` for Simple and Message. |
| JsonFormat.ToJson | sdk/core/src/json.rs:4-9 | `to_json` returns the serialized bytes. A serializer failure becomes a `DataConversion` error whose source is the `serde_json` error. |
| JsonFormat.FromJson | sdk/core/src/json.rs:11-17 | `from_json` returns the deserialized value. A failure becomes a `DataConversion` error whose source is the `serde_json` error. |
| Headers.UppercaseByteIffChar | sdk/core/src/headers.rs:176-187 | The byte test (no byte in 65..=90) over the UTF-8 encoding accepts exactly the strings with no upper-case ASCII letter. |
| Headers.EnsureNoUppercase | sdk/core/src/headers.rs:176-187 | The byte loop completes exactly when the name has no upper-case ASCII letter (byte 65 to 90). Otherwise it panics with "header names must not contain uppercase letters". |
| Headers.FromStatic | sdk/core/src/headers.rs:154-157 | `from_static` keeps the string unchanged when it has no upper-case ASCII letter, and panics otherwise. |
| Headers.FromCow | sdk/core/src/headers.rs:159-169 | `from_cow` keeps the string when every letter is lower case. Otherwise it panics with "header names must be lowercase: " followed by the name. |
| Headers.FromStr | sdk/core/src/headers.rs:189-193 | `From<&'static str>` goes through `from_cow` without lower-casing: it panics on an upper-case ASCII letter, and under the ASCII case rule stores any other string unchanged. |
| Headers.ToLowercaseChar | sdk/core/src/headers.rs:195-199 | Lower-casing maps `A`-`Z` to `a`-`z` (plus 32), leaves every other character alone, and never yields an upper-case letter. |
| Headers.ToLowercase | sdk/core/src/headers.rs:195-199 | `to_lowercase` keeps the length and lower-cases each character in place. |
| Headers.FromString | sdk/core/src/headers.rs:195-199 | `From<String>` lower-cases before construction, and the resulting name holds no upper-case ASCII letter. Under the ASCII case rule `from_cow`'s assertion then holds; see "## Left out" for letters without case. |
| Headers.FromStringAgreesWithFromStatic | sdk/core/src/headers.rs:154-199 | Under the ASCII case rule, `From<String>` is idempotent, and `from_static` accepts a string exactly when lower-casing would not change it, and then both build the same name. |
| Headers.AsHeaders | sdk/core/src/headers.rs:9-31 | A header yields exactly its one pair, `None` yields no pair, and `Some(h)` yields exactly what `h` yields. |
| Headers.InsertAllLastWins | sdk/core/src/headers.rs:118-125 | Inserting pairs in order leaves each name with the value of its last pair. |
| Headers.InsertAllKeepsOthers | sdk/core/src/headers.rs:118-125 | Inserting pairs leaves a name none of them mentions exactly as it was, present or absent. |
| Headers.Headers.constructor | sdk/core/src/headers.rs:44-46 | `Headers::new` is empty. |
| Headers.Headers.FromMap | sdk/core/src/headers.rs:143-147 | `From<HashMap>` holds exactly the given entries. |
| Headers.Headers.Clone | sdk/core/src/headers.rs:39-41 | A clone is a new map object with the same entries. |
| Headers.Headers.Insert | sdk/core/src/headers.rs:108-115 | `insert` sets the value for the key, replacing any earlier one. Every other entry is unchanged. |
| Headers.Headers.Add | sdk/core/src/headers.rs:117-125 | `add` inserts the pairs of `as_headers` in order. A single header sets its one name, and `None` leaves the map unchanged. |
| Headers.Headers.GetOptionalWith | sdk/core/src/headers.rs:88-106 | An absent key gives `Ok(None)`, and a successful parse gives `Ok(Some(v))`. A parse failure gives a `DataConversion` error whose message names the header, the value and the type, with the parser's error as source. |
| Headers.Headers.GetWith | sdk/core/src/headers.rs:76-86 | An absent key gives a `DataConversion` error with no source and the message "header not found " followed by the name. A successful parse gives the value. A parse failure gives the `DataConversion` error of `get_optional_with`: the parser's error as source, and the message naming the header, the value and the type. |
| Headers.Headers.GetStr | sdk/core/src/headers.rs:52-54 | Gives the stored text of a present key. An absent key gives the `DataConversion` "header not found" error. |
| Headers.Headers.GetOptionalStr | sdk/core/src/headers.rs:56-58 | Gives `Some` of the stored text exactly when the key is present. |
| Wrappers.Result.ToOption | sdk/core/src/headers.rs:56-58 | `Result::ok` gives `Some` of the success value exactly for `Ok`, and `None` for `Err`. |
| Requests.Len | sdk/core/src/request.rs:12-17 | `len` is the number of body bytes. |
| Requests.IsEmpty | sdk/core/src/request.rs:19-21 | `is_empty` holds exactly when `len() == 0`, that is, when the body has no bytes. |
| Requests.PathAndQueryRoundTrip | sdk/core/src/request.rs:55-62 | The path-and-query text loses nothing: splitting it at its first `?` recovers the path and the query, or the absence of a query. |
| Requests.Request.constructor | sdk/core/src/request.rs:42-49 | `Request::new` stores the URL and method, with new empty headers and an empty body. |
| Requests.Request.PathAndQuery | sdk/core/src/request.rs:55-62 | Built by pushing: the path alone when there is no query. Otherwise it is the path, `?` and the query, with the matching length. |
| Requests.Request.InsertHeader | sdk/core/src/request.rs:72-78 | Adds or replaces exactly one header. URL, method, body and other headers are unchanged. |
| Requests.Request.InsertHeaders | sdk/core/src/request.rs:80-84 | Inserts every pair of `as_headers` in order, so a later duplicate wins. Nothing else changes. |
| Requests.Request.SetBody | sdk/core/src/request.rs:90-92 | Replaces the body only. |
| Requests.Request.SetJson | sdk/core/src/request.rs:94-100 | On success the body is the serialized bytes. On a serializer failure the result is a `DataConversion` error and the body is left as it was. |
| RequestContents.FromVec | sdk/core/src/request_content.rs:17-22 | `RequestContent::from(v).body()` is `v`. |
| RequestContents.TryFromBytes | sdk/core/src/request_content.rs:31-39 | Always succeeds and keeps the bytes exactly. |
| RequestContents.TryFromVec | sdk/core/src/request_content.rs:41-49 | Always succeeds and keeps the bytes exactly. |
| RequestContents.TryFromStr | sdk/core/src/request_content.rs:51-60 | Always succeeds with the UTF-8 bytes of the string. For ASCII text these are its character codes, one per character. |
| RequestContents.IntoBody | sdk/core/src/request_content.rs:25-29 | The body has the content's bytes, so the body length equals the content length. |
| Streams.OneChunk | sdk/core/src/stream.rs:30-43 | A byte stream yields at most one chunk, and none exactly when the buffer is empty. |
| Streams.BytesStream.constructor | sdk/core/src/stream.rs:13-18 | `new` starts with `bytes_read = 0`, so the whole buffer is still to come. |
| Streams.BytesStream.PollNext | sdk/core/src/stream.rs:30-43 | While bytes remain, the poll yields the rest of the buffer as one `Ok` chunk and moves the cursor to the end. Once at the end it yields `None` and keeps `bytes_read <= len`. |
| Streams.ChunkStream.PollNext | sdk/core/src/response.rs:7 | Any pinned stream: each poll yields the next pending item, or `None` when none is left. |
| Responses.CollectAllChunks | sdk/core/src/response.rs:51-58 | When no item is an error, `collect` gives the in-order concatenation of all chunks. An empty stream gives no bytes. |
| Responses.CollectStopsAtFirstError | sdk/core/src/response.rs:51-58 | When item `k` is the first error, `collect` returns that error, and the items after it are not read. |
| Responses.BytesStreamCollects | sdk/core/src/stream.rs:30-43 | Collecting a byte stream gives back exactly its bytes, because it never yields an error. |
| Responses.ResponseBody.PollNext | sdk/core/src/response.rs:53 | Polling the boxed stream yields its next pending item. |
| Responses.ResponseBody.Collect | sdk/core/src/response.rs:51-58 | The `while let` loop returns the collected result of the pending items. It consumes exactly the items up to and including the first error, or all of them. |
| Responses.ResponseBody.Json | sdk/core/src/response.rs:60-66 | A collect error is returned before any parsing. Otherwise the result is `from_json` of the collected bytes. |
| Responses.New | sdk/core/src/response.rs:16-34 | `status()`, `headers()` and `into_body()` return exactly what `Response::new` was given. |
| Responses.ResponseJson | sdk/core/src/response.rs:36-41 | `Response::json` is `into_body().json()`. |
| Etags.From | sdk/core/src/etag.rs:13-26 | `From` stores the string, and `as_ref` returns it. |
| Etags.FromStr | sdk/core/src/etag.rs:28-33 | `FromStr` never fails and stores its input. |
| Etags.Display | sdk/core/src/etag.rs:35-39 | The displayed text rebuilds the same etag. |
| Etags.DisplayRoundTrip | sdk/core/src/etag.rs:4-39 | `Etag::from(s).to_string() == s`, and parsing the text back gives the same etag. `is_weak` holds exactly when the text starts with `W/`. |
| Etags.WeakAndStrongExamples | sdk/core/src/etag.rs:45-61 | `"W/abcd1234"` is weak, `"abcd1234"` is strong and displays unquoted. |
| RequestContext.New | sdk/core/src/context.rs:12-24 | `Context::new` and `Default` hold no values. |
| Retry.ExponentialRetry | sdk/core/src/options/retry.rs:7-11 | `exponential(o)` has mode `Exponential(o)`. |
| Retry.FixedRetry | sdk/core/src/options/retry.rs:13-17 | `fixed(o)` has mode `Fixed(o)`. |
| Retry.NoRetry | sdk/core/src/options/retry.rs:19-23 | `none()` has mode `None`. |
| Retry.DefaultMode | sdk/core/src/options/retry.rs:34-38 | The default mode is exponential. |
| Retry.DefaultOptions | sdk/core/src/options/retry.rs:1-4 | The default options hold the default mode, so they equal `exponential` with default settings. |
| Transports.New | sdk/core/src/options/transport.rs:15-18 | `new(b)` answers with the bytes `b`. |
| Transports.Default | sdk/core/src/options/transport.rs:39-45 | `Default` answers with an empty body. |
| Transports.Send | sdk/core/src/options/transport.rs:20-36 | `send` always returns `Ok`: status 200, new empty headers and a new byte stream of the configured bytes. The context and the request play no part. |
| Transports.CannedBodyCollects | sdk/core/src/options/transport.rs:31 | Collecting the canned body gives exactly the configured bytes. |
| Policies.TerminatesIffHasTransport | sdk/core/src/policies/custom_header.rs:36 | A chain can be walked without indexing past its end exactly when it holds a transport. |
| Policies.InsertAllAppend | sdk/core/src/headers.rs:118-125 | Inserting a list of pairs is inserting its first part, then the rest. |
| Policies.HeadersAfterInsertsPairs | sdk/core/src/policies/custom_header.rs:25-37 | Running a chain inserts, in chain order, the header of every custom-header policy before the first transport. |
| Policies.TransportShortCircuits | sdk/core/src/policies/transport.rs:21-30 | Policies after the first transport never run. They change neither the headers nor which transport answers. |
| Policies.Send | sdk/core/src/policies/mod.rs:10-17 | A policy's `send` with the rest of the chain returns `Ok` with the first transport's canned response. The request's headers become those the chain inserts. |
| Policies.SendCustomHeader | sdk/core/src/policies/custom_header.rs:25-37 | Inserts the header, with its name lower-cased by `From<String>`, then returns what `next[0]` returns for `next[1..]`. |
| Policies.SendApiKeyAuthentication | sdk/core/src/policies/auth.rs:22-30 | Returns what `next[0]` returns for `next[1..]` and inserts no header of its own. |
| Policies.SendTransport | sdk/core/src/policies/transport.rs:21-30 | Returns the transport options' canned response and never looks at `next`. |
| Options.ClientOptions.Default | sdk/core/src/options/mod.rs:15-23 | The default options have an empty context, default retry and transport, and empty per-call and per-retry lists. |
| Options.ClientMethodOptions.Default | sdk/core/src/options/mod.rs:25-49 | The default method options, read through the accessors, have an empty context, default retry and empty policy lists. |
| Options.ClientBuilder.WithContext | sdk/core/src/options/mod.rs:58-61 | Replaces the context. The other four fields are unchanged. |
| Options.ClientBuilder.WithRetry | sdk/core/src/options/mod.rs:63-66 | Replaces the retry options. The other four fields are unchanged. |
| Options.ClientBuilder.WithTransport | sdk/core/src/options/mod.rs:68-71 | Replaces the transport. The other four fields are unchanged. |
| Options.ClientOptionsBuilder.WithContext | sdk/core/src/options/mod.rs:83-86 | Replaces the context. Every other getter is unchanged. |
| Options.ClientOptionsBuilder.WithRetry | sdk/core/src/options/mod.rs:92-95 | Replaces the retry options. Every other getter is unchanged. |
| Options.ClientOptionsBuilder.WithTransport | sdk/core/src/options/mod.rs:101-104 | Replaces the transport. Every other getter is unchanged. |
| Options.ClientOptionsBuilder.WithPerCallPolicies | sdk/core/src/options/mod.rs:110-118 | Appends after the existing per-call policies, which are kept in order. Every other getter is unchanged. |
| Options.ClientOptionsBuilder.WithPerRetryPolicies | sdk/core/src/options/mod.rs:124-132 | Appends after the existing per-retry policies, which are kept in order. Every other getter is unchanged. |
| Options.ClientMethodOptionsBuilder.WithContext | sdk/core/src/options/mod.rs:144-147 | Replaces the context. Every other getter is unchanged. |
| Options.ClientMethodOptionsBuilder.WithRetry | sdk/core/src/options/mod.rs:153-156 | Replaces the retry options. Every other getter is unchanged. |
| Options.ClientMethodOptionsBuilder.WithPerCallPolicies | sdk/core/src/options/mod.rs:162-170 | Appends after the existing per-call policies. Every other getter is unchanged. |
| Options.ClientMethodOptionsBuilder.WithPerRetryPolicies | sdk/core/src/options/mod.rs:176-184 | Appends after the existing per-retry policies. Every other getter is unchanged. |
| Pipelines.CustomPairsAppend | sdk/core/src/pipeline.rs:32-39 | The custom headers of concatenated lists are those of each list, in order. |
| Pipelines.TrailingTransport | sdk/core/src/pipeline.rs:41-42 | A transport-free list followed by a transport is runnable. Every custom header of the list is applied, and the appended transport answers. |
| Pipelines.New | sdk/core/src/pipeline.rs:17-45 | The chain is, in order: the per-call argument, the options' per-call list, the per-retry argument, the options' per-retry list, then one transport built from `options.transport`. Its length is the sum of the list lengths plus one, it ends in a transport, and it is runnable. The crate name and version play no part. |
| Pipelines.Pipeline.Send | sdk/core/src/pipeline.rs:47-51 | Runs policy 0 with the rest of the chain and returns its result: `Ok` with the first transport's canned response, after inserting the chain's custom headers in order. |
| Pipelines.AssembledPipelineAnswers | sdk/core/src/pipeline.rs:17-51 | When no input list holds a transport, the custom headers of the four lists are applied in assembly order. The options' transport then answers, and its body collects to exactly its configured bytes. |
| ClientResponses.FromCoreResponse | sdk/client_new_method_params_context/src/response.rs:26-35 | Keeps the status. The headers are a new map with the same entries, and the body is moved across unchanged. |
| ClientBuilderDerive.FindOptionsAttr | sdk/core_macros/src/lib.rs:14-18 | Finds an attribute whose path is `options` exactly when one exists, and it is the first such attribute, so its arguments decide the outcome. |
| ClientBuilderDerive.FirstAttributed | sdk/core_macros/src/lib.rs:13-26 | Gives the index of the first field carrying an `options` attribute, or none when no field carries one. |
| ClientBuilderDerive.Derive | sdk/core_macros/src/lib.rs:10-47 | The `for` loop with `break` and early returns yields exactly the selection rule `Selected`. |
| ClientBuilderDerive.AttributedFieldWins | sdk/core_macros/src/lib.rs:13-29 | The first attributed field is selected, even when a field named `options` comes earlier. An attribute with arguments gives "`options` accepts no arguments". |
| ClientBuilderDerive.NamedFieldFallback | sdk/core_macros/src/lib.rs:27-39 | With no attributed field, the field named `options` is selected. Without one either, the error is "no field named `options` or attributed with `#[options]`". |
| ClientBuilderDerive.SelectedIsAField | sdk/core_macros/src/lib.rs:40-54 | Only structs with named fields succeed; the others give "ClientBuilder valid only on struct with named fields". What `options()` returns is a field of the struct that carries the attribute or the name `options`. |

## Left out

- Headers.ToLowercaseChar, Headers.ToLowercase: Unicode case rules are not modelled. `is_lowercase`, `is_alphabetic` and `to_lowercase` are defined for ASCII letters only. A non-ASCII upper-case letter, which `from_cow` would reject and `to_lowercase` would map, is treated as having no case.
- Headers.FromCow: the check is stated on ASCII letters only, for the reason above.
- Headers.FromString: a name holding an alphabetic character without case, such as `中`, is left unchanged by `to_lowercase`. `from_cow` then rejects it, because the character is alphabetic but not lower-case, so the source panics, and `CustomHeaderPolicy::send` with that name panics too. The model classifies letters as ASCII only, so it returns a name here instead.
- Headers.FromStringAgreesWithFromStatic: the agreement holds under the ASCII case rule only. In the source, `from_static("É")` keeps `É` because its byte test sees no byte in 65 to 90, while `From<String>` lower-cases it to `é`. `From<String>` on `中` panics in `from_cow`.
- Policies.SendCustomHeader, Policies.Send, Pipelines.Pipeline.Send: a custom header whose name holds a non-ASCII letter that is not lower-case, such as `中`, makes `CustomHeaderPolicy::send` panic in the source. These members ensure a successful result there instead.
- Headers.FromStr: `from_cow` panics on any alphabetic character that is not lower-case, such as `É` or `中`. The model classifies letters as ASCII only, so `FromStr` stores such a name instead of panicking.
- Errors.Kind, Errors.Display, Etags.IsWeak, Etags.AsRef, Retry.ModeOf and RequestContents.Body are observers with no contract of their own. What they return is stated in the contracts of the members that build the values: the error constructors and adapters, `Etags.From` and `Etags.DisplayRoundTrip`, the retry constructors, and the request-content conversions.
- Headers.Headers.GetOptionalWith: the Rust type name that `std::any::type_name` supplies is a parameter. The `{:?}` escaping of the name and value in the message is simplified to quoting.
- `get_as`, `get_optional_as` and `get_optional_string` are `get_with` and `get_optional_with` with the `FromStr` parser. The parser is a parameter, so they are not separate members.
- `Headers::iter` and `into_iter` are not modelled: the `entries` map stands for what they enumerate, in no particular order.
- The `HeaderValue` constructors (`from_static`, `from_cow`, the `From` impls) wrap the text unchanged and are the `HeaderValue` datatype constructor.
- The well-known header-name constants are declared but have no lemma of their own.
- `async`, `Pin`, `Poll`, `Arc` and `Send`/`Sync` are not modelled: every await is a sequential call, and a pending poll never happens. The boxed `dyn Stream` of a response body is either a `BytesStream` or a general chunk stream.
- `serde` and `serde_json` are foreign code. Serialization and deserialization are function parameters, and their failures are error texts.
- `url::Url` is reduced to its path and optional query, so URL parsing is not part of this model.
- A boxed `dyn std::error::Error` cause is reduced to its kind and text, or to a nested `azure_core` error.
- `Context` (sdk/core/src/context.rs) has only its empty constructor. Its insertion and lookup functions are not part of this model.
- `TokenCredential` and token acquisition are not part of this model. A credential is an opaque identity, as the source never calls it.
- The `&mut Self` that every builder setter returns for chaining is the builder itself and is not modelled. The builder traits are classes that hold the options they update, standing for `options_mut()`.
- The getter functions of `ClientMethodOptions` and the builders have no contract of their own: they read a field.
- Token generation by `syn` and `quote` in the derive macro is foreign code. Only the field-selection rule is modelled, and the span of an error is not.
- The `Policy` trait is a datatype of its three implementations. The mismatch between `&Context` in the trait's signature and `&mut Context` in the implementations' signatures is resolved to one by-value context that no policy changes.
- Transports.TransportOptionsImpl: the single variant is called `InMemory` rather than `Bytes`, to avoid a clash with the byte-sequence type.
- The typed response's `status()`, `headers()` and `into_body()` read fields and have no contract of their own.
- The client crates, their models and examples, and the binary are call-site code over this core. They are not part of this model.

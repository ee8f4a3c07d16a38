# Flare profiling connection, modelled in Dafny

This project models `ProfilingConnection`, the client side of an upload session with the
Flare profiling service. The connection opens a session by posting a creation payload to
`/create`, optionally framed together with sender metadata. It keeps the `id` and `key` the
service answers with. It then posts profile data to `/<id>/<key>` and timeline data to
`/<id>/<key>/timeline`. Every body is GZIP-compressed. Every answer is classified in a fixed
order: it must parse as JSON, the status must be 200, and the `error` flag must be clear.

Modules, one per concern of that class:

- `Sizes`: the total size of a sequence of sequences, shared by framed bodies and joined paths.
- `Bytes`: octets, Java `int`, and the 4-byte big-endian encoding of `writeInt`/`readInt`.
- `Framing`: the multi-payload body (`Frame`), its reader (`Unframe`), the read-back of the
  first payload (`ReadFirst`), and `ByteSink`, the append-only buffer the bodies are written into.
- `Paths`: `"/" + String.join("/", segments)` and its inverse `Split`.
- `Json`: parsed values and minimal-json's `getString`/`getBoolean` lookups.
- `Transport`: URIs and their resolution by `java.net.URI`, credentials, requests and responses.
- `Responses`: the failures a call can end in, and `Classify` (the body of `postBytesRequest`
  after the send).
- `Connection`: `request` and `multiDataRequest` as specification functions and as methods
  that build the body step by step, session establishment, and the `ProfilingConnection`
  class with write-once (`const`) `id` and `key`.

The compressor, the JSON parser and the HTTP exchange are parameters of type
`seq<byte> -> seq<byte>`, `string -> Option<Value>` and `Request -> Response`. The Java
constructor, which can throw, is the static method `ProfilingConnection.Open`, which returns a
`Result`.

Behaviour of the code that is easy to miss:

- A creation answer `{"id":null,"key":"x"}` is not refused as a missing session. In the
  code, `getString("id", null)` asks the JSON `null` for a string. That throws minimal-json's
  unchecked `UnsupportedOperationException`, which escapes the constructor. The model returns
  `Unsupported("string", Null)` (lemma `CreationAnswers`). Only an absent `id` or `key` gives
  "Received invalid response from Flare server, please check logs".
- A body that parses to something other than an object (`Json.parse(body).asObject()`), a
  non-boolean `error` member, and a non-string `message` member also throw that unchecked
  exception. `request` and `multiDataRequest` catch only `IOException` and
  `InterruptedException`, so these are not wrapped either.
- The request path is resolved as a URI reference, not appended as a path. An empty session
  id turns "/" + id + "/" + key into "//key", a network-path reference: the request is
  addressed to the authority named by the key, so when the key is a host name the data and the
  token go to that host (lemma `EmptyId`). With an empty key as well, "//" is not a URI and
  `URI.create` throws the unchecked `IllegalArgumentException`.
- The diagnostic excerpt of an unparsable body is cut after 100 UTF-16 code units, so it can
  end in half of a surrogate pair (lemma `ExcerptSplitsPair`).

## Model

| member | source | states |
|---|---|---|
| Bytes.WriteIntBytes | src/main/java/co/technove/flare/internal/profiling/ProfilingConnection.java:88 | `writeInt` emits exactly four octets |
| Bytes.ReadIntBytes | src/main/java/co/technove/flare/internal/profiling/ProfilingConnection.java:92 | `readInt` gives a negative `int` exactly when the first octet has its top bit set |
| Bytes.ReadWriteInt | src/main/java/co/technove/flare/internal/profiling/ProfilingConnection.java:88 | reading back the four octets of any `int` gives that `int` |
| Bytes.WriteReadInt | src/main/java/co/technove/flare/internal/profiling/ProfilingConnection.java:92 | writing the `int` read from any four octets reproduces them, so the encoding is a bijection |
| Bytes.LengthField | src/main/java/co/technove/flare/internal/profiling/ProfilingConnection.java:88 | an array length is written with a clear sign bit and reads back as the same length |
| Framing.Frame | src/main/java/co/technove/flare/internal/profiling/ProfilingConnection.java:86-90 | the framed body is `4 * n` bytes plus the payload bytes, for `n` payloads |
| Framing.ReadFirst | src/main/java/co/technove/flare/internal/profiling/ProfilingConnection.java:91-93 | the read-back succeeds exactly when four length bytes are there, the length is non-negative and that many bytes follow; it then yields those bytes |
| Framing.FrameConcat | src/main/java/co/technove/flare/internal/profiling/ProfilingConnection.java:87-90 | the loop's output for a sequence of payloads is the concatenation of its output for any split of it, so nothing lies between or after the chunks |
| Framing.UnframeFrame | src/main/java/co/technove/flare/internal/profiling/ProfilingConnection.java:86-90 | reading lengths and bytes until the end recovers exactly the payloads, in order |
| Framing.FrameUnframe | src/main/java/co/technove/flare/internal/profiling/ProfilingConnection.java:86-90 | any body the reader accepts is the framing of what it reads, so the encoding is canonical |
| Framing.FrameAt | src/main/java/co/technove/flare/internal/profiling/ProfilingConnection.java:87-90 | payload `i` sits right after the chunks of payloads `0..i-1`: its 4-byte big-endian length, which reads back as its size, then its bytes |
| Framing.ReadFirstOfFrame | src/main/java/co/technove/flare/internal/profiling/ProfilingConnection.java:91-93 | on a framed body the read-back yields the first payload; with no payloads it fails |
| Framing.ThreeAndFive | src/main/java/co/technove/flare/internal/profiling/ProfilingConnection.java:86-90 | payloads of 3 and 5 bytes frame into 16 bytes |
| Framing.ByteSink.constructor | src/main/java/co/technove/flare/internal/profiling/ProfilingConnection.java:86 | a new buffer is empty |
| Framing.ByteSink.Write | src/main/java/co/technove/flare/internal/profiling/ProfilingConnection.java:89 | `write(byte[])` appends the bytes and changes nothing else |
| Framing.ByteSink.WriteInt | src/main/java/co/technove/flare/internal/profiling/ProfilingConnection.java:88 | `writeInt` appends the four big-endian octets, and the last four bytes then read back as the value |
| Paths.Join | src/main/java/co/technove/flare/internal/profiling/ProfilingConnection.java:108 | the joined string has the segments' characters plus one separator between each pair of neighbours |
| Paths.RequestPath | src/main/java/co/technove/flare/internal/profiling/ProfilingConnection.java:108 | the path is "/" followed by the joined segments, one character per segment longer than they are together |
| Paths.SplitJoin | src/main/java/co/technove/flare/internal/profiling/ProfilingConnection.java:108 | splitting the joined string at '/' gives back the segments, when none of them holds a '/' |
| Paths.JoinSplit | src/main/java/co/technove/flare/internal/profiling/ProfilingConnection.java:108 | joining the pieces of any string split at '/' gives back the string |
| Paths.SessionPaths | src/main/java/co/technove/flare/internal/profiling/ProfilingConnection.java:108 | the three calls post to "/create", "/id/key" and "/id/key/timeline" |
| Paths.DataPathDeterminesSession | src/main/java/co/technove/flare/internal/profiling/ProfilingConnection.java:60 | two sessions whose ids and keys hold no '/' post data to the same path only if they are the same session |
| Json.GetString | src/main/java/co/technove/flare/internal/profiling/ProfilingConnection.java:52-53 | an absent member gives the default, a string member gives its text, and any other member throws, carrying that value |
| Json.GetBoolean | src/main/java/co/technove/flare/internal/profiling/ProfilingConnection.java:127 | an absent member gives the default, a boolean member gives its value, and any other member throws |
| Transport.Resolve | src/main/java/co/technove/flare/internal/profiling/ProfilingConnection.java:108 | only "//" is refused; a reference not starting with "//", or starting with "///", keeps the service's scheme and authority and gives the path unchanged; otherwise the reference is "//", a non-empty authority without '/', and a path that is empty or absolute, and that authority replaces the service's |
| Transport.ResolveNetworkPath | src/main/java/co/technove/flare/internal/profiling/ProfilingConnection.java:108 | a reference "//" + authority + path, with a non-empty authority free of '/' and an empty or absolute path, resolves to that authority and that path under the service's scheme |
| Transport.Authorization | src/main/java/co/technove/flare/internal/profiling/ProfilingConnection.java:111 | the header value is "token " followed by the token |
| Responses.Excerpt | src/main/java/co/technove/flare/internal/profiling/ProfilingConnection.java:120 | the excerpt is a prefix of the body's UTF-16 code units, at most 100 of them, and all of them when there are fewer |
| Responses.Utf16Concat | src/main/java/co/technove/flare/internal/profiling/ProfilingConnection.java:120 | the UTF-16 code units of a concatenation are those of the parts, in order |
| Responses.Utf16BasicPlane | src/main/java/co/technove/flare/internal/profiling/ProfilingConnection.java:120 | a text below U+10000 has one code unit per character, equal to it |
| Responses.ExcerptBasicPlane | src/main/java/co/technove/flare/internal/profiling/ProfilingConnection.java:120 | for a text below U+10000 the excerpt is its first 100 characters, or all of them |
| Responses.ExcerptSplitsPair | src/main/java/co/technove/flare/internal/profiling/ProfilingConnection.java:120 | a character above U+FFFF at position 99 leaves the excerpt ending in a lone high surrogate |
| Responses.Classify | src/main/java/co/technove/flare/internal/profiling/ProfilingConnection.java:117-131 | a success needs status 200 and a parsed object with a clear `error` flag, and returns that object; an `IOException` only comes from a parsed answer and carries its status; nothing here is a read-back or URI failure |
| Responses.ParseFailureFirst | src/main/java/co/technove/flare/internal/profiling/ProfilingConnection.java:117-121 | a body that does not parse is "invalid data" with the URI and the excerpt, whatever the status, so never an `IOException` |
| Responses.BadStatusIff | src/main/java/co/technove/flare/internal/profiling/ProfilingConnection.java:123-125 | an `IOException` comes out exactly when the body parses to an object and the status is not 200; it carries that status and object |
| Responses.SuccessIff | src/main/java/co/technove/flare/internal/profiling/ProfilingConnection.java:127-131 | success exactly when the body is an object, the status is 200 and `error` is absent or false; the object is returned unchanged |
| Responses.ServerErrorMessage | src/main/java/co/technove/flare/internal/profiling/ProfilingConnection.java:127-129 | with status 200 and `error` true the failure is "Error from Flare server: " with the `message` text, or with "unknown error" when absent; a non-string message throws |
| Responses.UncheckedShapes | src/main/java/co/technove/flare/internal/profiling/ProfilingConnection.java:118 | a body that parses to a non-object, or an `error` member that is not a boolean, throws the unchecked exception |
| Responses.QuotaExceeded | src/main/java/co/technove/flare/internal/profiling/ProfilingConnection.java:127-129 | `{"error":true,"message":"quota exceeded"}` with status 200 fails with "Error from Flare server: quota exceeded" |
| Connection.WrapIo | src/main/java/co/technove/flare/internal/profiling/ProfilingConnection.java:75-76 | no `IOException` leaves `request`: it becomes "Failed connecting to Flare server" with the same cause, and every other outcome passes unchanged |
| Connection.PostBytes | src/main/java/co/technove/flare/internal/profiling/ProfilingConnection.java:107-131 | a success means the request was built, sent with the token and the compressed bytes, answered with 200 and an object whose `error` flag is clear, which is returned; an unresolvable path is exactly the `IllegalArgumentException`; an `IOException` is a send fault or a bad status |
| Connection.RequestResult | src/main/java/co/technove/flare/internal/profiling/ProfilingConnection.java:67-78 | no `IOException` and no read-back failure leaves `request`; it succeeds exactly when the POST of the compressed payload does, with the same object |
| Connection.MultiDataResult | src/main/java/co/technove/flare/internal/profiling/ProfilingConnection.java:80-104 | the read-back fails exactly when there are no payloads; otherwise the outcome is that of posting the compressed `Frame` of the payloads, with `IOException`s wrapped |
| Connection.Establish | src/main/java/co/technove/flare/internal/profiling/ProfilingConnection.java:45-56 | a session exactly when the creation call succeeds with string `id` and `key`, made of those strings; a failed creation call fails the same way |
| Connection.SessionOf | src/main/java/co/technove/flare/internal/profiling/ProfilingConnection.java:52-56 | a session exactly when `id` and `key` are both strings, made of those strings; the missing-session error exactly when one is absent and neither is of another kind; otherwise the unchecked string-lookup failure |
| Connection.CreationBodyShape | src/main/java/co/technove/flare/internal/profiling/ProfilingConnection.java:46-50 | without metadata the compressor receives the payload itself, so an empty payload gives an empty body; with metadata it receives a body that decodes to the two payloads and is 8 bytes longer than they are |
| Connection.CreationPost | src/main/java/co/technove/flare/internal/profiling/ProfilingConnection.java:45-50 | either form of the creation call is one POST to "/create" of the compressed creation body: the read-back never fails there |
| Connection.RequestsOfSession | src/main/java/co/technove/flare/internal/profiling/ProfilingConnection.java:108-112 | the create request, and the data and timeline requests of a session whose id is non-empty, does not start with '/' and holds no '?' or '#', go to the service's scheme and authority at "/create", "/id/key" and "/id/key/timeline", with "token " and the token, carrying exactly the compressed bytes |
| Connection.EmptyId | src/main/java/co/technove/flare/internal/profiling/ProfilingConnection.java:108-112 | with an empty id the data and timeline requests, token included, are addressed to the authority named by the key, which is where they go when the key is a host name; with an empty key too the request cannot be built |
| Connection.RequestSendsOnly | src/main/java/co/technove/flare/internal/profiling/ProfilingConnection.java:67-74 | `request` depends on the server only through its answer to the one POST of the compressed payload |
| Connection.BadStatusReported | src/main/java/co/technove/flare/internal/profiling/ProfilingConnection.java:123-125 | a parsed answer with a status other than 200 ends `request` as "Failed connecting to Flare server", caused by that status and object |
| Connection.CreationAnswers | src/main/java/co/technove/flare/internal/profiling/ProfilingConnection.java:52-56 | `{"id":"abc","key":"def"}` gives the session abc/def; a `null` id throws the unchecked exception; a missing id is the missing-session error |
| Connection.SendRequest | src/main/java/co/technove/flare/internal/profiling/ProfilingConnection.java:67-78 | writing the payload into the compressing stream hands the compressor exactly the payload; the outcome is that of `RequestResult` |
| Connection.SendMultiData | src/main/java/co/technove/flare/internal/profiling/ProfilingConnection.java:80-104 | the loop appends each length and payload, so the buffer is `Frame` of the payloads; then the read-back, compression and post give the outcome of `MultiDataResult` |
| Connection.ProfilingConnection.constructor | src/main/java/co/technove/flare/internal/profiling/ProfilingConnection.java:52-53 | the connection keeps the credentials and the session's id and key |
| Connection.ProfilingConnection.Open | src/main/java/co/technove/flare/internal/profiling/ProfilingConnection.java:34-57 | fails exactly as `Establish` does; otherwise it gives a new connection whose `GetId` (lines 134-136) and key are the established session's |
| Connection.ProfilingConnection.SendNewData | src/main/java/co/technove/flare/internal/profiling/ProfilingConnection.java:59-61 | posts the payload through `request` with segments `[id, key]`, dropping the returned object |
| Connection.ProfilingConnection.SendTimelineData | src/main/java/co/technove/flare/internal/profiling/ProfilingConnection.java:63-65 | posts the payload through `request` with segments `[id, key, "timeline"]`, dropping the returned object |
| Wrappers.Discard | src/main/java/co/technove/flare/internal/profiling/ProfilingConnection.java:59-61 | a `void` call passes exactly when the request succeeded, and fails with the same failure otherwise |

## Left out

- The HTTP client and its 10-second connect timeout (lines 41-43), and `client.send` (lines 109-113). The network exchange is the `server` parameter. A fault while connecting or sending, an `IOException` or an `InterruptedException`, is the single answer `SendFault`.
- GZIP compression (lines 70 and 96) is the `gzip` parameter. An `IOException` from compressing into memory is not modelled.
- JSON parsing (line 118) is the `parse` parameter. An object is a map, so a body with repeated member names is seen through the last of them, as minimal-json's lookups do.
- Protobuf serialisation (`writeTo`, `toByteArray`) is not modelled. Payloads are given as byte sequences.
- Connection.EmptyId: a key that is not a host name (for example "a_b") gives an authority without a host. `HttpRequest.Builder.uri` at line 110 then throws the unchecked `IllegalArgumentException` and nothing is sent. The model does not check host names, so it hands such a request to the server. For the same reason, `PostBytes`'s "exactly the `IllegalArgumentException`" covers only `URI.create` refusing the path.
- Transport.Resolve: a '?' or '#' in an id or key starts a query or a fragment, and characters that are illegal in a URI (a space, say) make `URI.create` throw `IllegalArgumentException`; neither is modelled, so ids and keys are taken as plain path text. `RequestsOfSession` therefore assumes neither character.
- The response body is given as text. `BodyHandlers.ofString` decodes it from the response's bytes, replacing malformed input, so it never holds a lone surrogate; the decoding is not modelled.
- Octets are unsigned 0..255. Java's `byte` is signed, but `readInt` assembles its value from unsigned octets, so only the bit pattern matters.
- Concurrent use of one connection and thread interruption as such are not modelled. The model is sequential.
- Connection.ProfilingConnection.Open: the Java constructor either returns a connection or throws. Here it is a static method returning a `Result`, because a Dafny constructor cannot fail.
- build.gradle.kts is build configuration and holds no logic.

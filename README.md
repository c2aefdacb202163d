# SBProxy relay core in Dafny

SBProxy forwards messages from an Azure Service Bus topic subscription to a
ZeroMQ PUB socket. It can GZIP-compress each body before sending it.
This project models the relay core of `SBProxy.java` and proves what it
promises:

- `proxyMessage` polls the subscription once. It skips a null result and a
  message with a null id. Otherwise it sends exactly one payload: the raw
  body, or the GZIP encoding of a body of at most `maxMsgSize` bytes. It
  throws, and sends nothing, when the receive fails, when the body stream
  fails while it is read, or when the body is over the limit.
- `gzipCompress` reads at most `maxMsgSize` bytes and encodes them. It then
  probes the stream for one more byte and fails with "message too long" if
  that byte exists.
- `proxyLoop` repeats `proxyMessage` until the first exception, then stops
  for good.
- The two constructors set the fields, and the getters return them.

Files:

- `streams.dfy` (module `Streams`): the byte type and an `InputStream`
  class that is read one byte at a time and may throw past its last byte. It also holds Guava's
  `copy(limit(is, n), os)` as `CopyLimited` and `toByteArray(is)` as
  `ToByteArray`, both loops.
- `relay.dfy` (module `Relay`): the messages, poll results, faults and
  outcomes as datatypes. `BoundedGzip`, `Step` and `Run` say what
  `gzipCompress`, `proxyMessage` and `proxyLoop` do, as functions of values.
  `Forwards` is an independent definition of the payloads the relay
  forwards. The file ends with the lemmas about the loop.
- `sbproxy.dfy` (module `Proxy`): the classes. `ServiceBus` is the
  subscription, a fixed list of poll results with a cursor. `Socket` is the
  ZeroMQ socket, the list of payloads sent so far. `SBProxy` holds the
  constructors, the getters and the three methods. Each method is proved
  against the matching function of `Relay`.
- `sbproxy_tests.dfy` (module `ProxyTests`): clients that replay the unit
  tests' scenarios from the contracts alone, plus one `proxyLoop` scenario.

The GZIP encoder (`GZIPOutputStream`, the RFC 1952 container over RFC 1951
deflate) is not modelled. It is a function value `gzip` given to the
constructor, and the proofs assume nothing about it.

Only the compressed path is limited: the uncompressed path forwards a body
of any size (`SBProxy.java:158-160`).

A message body is a stream that yields its bytes and then either ends or
throws an IOException (`Message.bodyFails`). A stream that breaks after k
bytes is the message whose body is those k bytes, with `bodyFails` set.
Such a failure can stop the loop (`SBProxy.java:123-125`); it never sends a
partial payload, because the body is read in full before anything is sent.

## Model

| member | source | states |
|---|---|---|
| `Streams.InputStream.Read` | src/main/java/org/plannerstack/sbproxy/SBProxy.java:168 | `is.read()` returns the next byte and advances the stream; past the last byte it returns -1, or throws an IOException when the stream fails, and leaves the stream unchanged |
| `Streams.CopyLimited` | src/main/java/org/plannerstack/sbproxy/SBProxy.java:166 | the copy through `limit(is, n)` receives the first `min(n, |body|)` bytes, and the stream keeps exactly the rest; it throws exactly when the stream fails before n bytes, since the limited stream never reads past n |
| `Streams.ToByteArray` | src/main/java/org/plannerstack/sbproxy/SBProxy.java:159 | `toByteArray` reads the whole remaining body, with no size limit, leaves the stream at its end, and throws exactly when the stream fails there |
| `Relay.BoundedGzip` | src/main/java/org/plannerstack/sbproxy/SBProxy.java:164-169 | succeeds if and only if `0 <= maxMsgSize`, `|{body}| <= maxMsgSize` and the body stream reads to its end, so a body of exactly `maxMsgSize` bytes is accepted; on success the output is `gzip` of the whole body, nothing truncated; a longer body fails with MessageTooLong, even from a failing stream, because the probe finds a byte; a failing stream within the limit fails with BodyReadFailure; a negative limit fails as Guava's `limit` does |
| `Relay.StepSends` | src/main/java/org/plannerstack/sbproxy/SBProxy.java:143-161 | a payload is sent only for a message with an id whose body reads to its end; with compression off that payload is the whole body, whatever its size; with compression on it is `gzip(body)`, and the body is within the limit; a null result and a null id are skipped with nothing sent |
| `Relay.StepFails` | src/main/java/org/plannerstack/sbproxy/SBProxy.java:136-168 | the call throws exactly on a service fault, on a message with an id whose body stream fails, or on the compressed path for a body over the limit or a negative limit; which fault it reports in each case: ServiceFault, NegativeLimit, MessageTooLong for a body over the limit, BodyReadFailure for a failing stream otherwise |
| `Relay.DriveFrom` | src/main/java/org/plannerstack/sbproxy/SBProxy.java:119-128 | the loop uses polls in order and stops right after the first fault, reporting that fault as the one raised by the last poll it used; every poll before it returned normally; without a fault every poll is used |
| `Relay.DriveFromSendsForwards` | src/main/java/org/plannerstack/sbproxy/SBProxy.java:119-128 | what the loop adds to the socket is the payloads of exactly the polls it handled before the first fault, in order |
| `Relay.RunSendsForwardsBeforeFault` | src/main/java/org/plannerstack/sbproxy/SBProxy.java:119-128 | the sink receives exactly the payloads of the forwarded polls before the first fault, in order |
| `Relay.RunStopsAtFirstFault` | src/main/java/org/plannerstack/sbproxy/SBProxy.java:120-126 | if poll i fails and no earlier poll does, the loop uses exactly i + 1 polls, reports poll i's fault, and sends the payloads of polls 0..i-1 only |
| `Relay.RunWithoutFaultUsesAllPolls` | src/main/java/org/plannerstack/sbproxy/SBProxy.java:143-150 | skipped polls (a null result or a null id) never stop the loop; with no fault every poll is used and all their forwarded payloads are sent |
| `Relay.OversizedMessageStopsRelay` | src/main/java/org/plannerstack/sbproxy/SBProxy.java:164-169 | on the compressed path, a body longer than `maxMsgSize` ends the loop at that message with MessageTooLong; its payload and every later poll are never sent |
| `Relay.UnreadableBodyStopsRelay` | src/main/java/org/plannerstack/sbproxy/SBProxy.java:119-128 | a message with an id whose body stream fails ends the loop at that message with BodyReadFailure, unless its body is over the limit on the compressed path; nothing from it or any later poll is sent |
| `Relay.SentPayloadsHaveIds` | src/main/java/org/plannerstack/sbproxy/SBProxy.java:147-161 | every payload the loop sends comes from a message with an id whose body read to its end, received before the loop stopped; it is that message's body, or, with compression, the GZIP encoding of a body within the limit |
| `Relay.ForwardsHaveSources` | src/main/java/org/plannerstack/sbproxy/SBProxy.java:154-161 | every forwarded payload is the payload of some poll that `proxyMessage` forwards |
| `Proxy.ServiceBus.ReceiveSubscriptionMessage` | src/main/java/org/plannerstack/sbproxy/SBProxy.java:141 | each receive returns the next poll result of the subscription and uses it up |
| `Proxy.Socket.Send` | src/main/java/org/plannerstack/sbproxy/SBProxy.java:161 | a send appends exactly one payload to what the socket has sent |
| `Proxy.SBProxy.WithDefaults` | src/main/java/org/plannerstack/sbproxy/SBProxy.java:58-60 | the two-argument constructor keeps the service and the socket, and the getters report a maximum message size of 1048576 and compression on |
| `Proxy.SBProxy.constructor` | src/main/java/org/plannerstack/sbproxy/SBProxy.java:72-77 | the four-argument constructor stores its arguments unchanged, and `getAzureService`, `getZmqSocket`, `getMaxMsgSize` and `usesCompression` return them |
| `Proxy.SBProxy.ProxyMessage` | src/main/java/org/plannerstack/sbproxy/SBProxy.java:139-162 | uses exactly one poll; its outcome is `Step` of that poll; the socket gains exactly the forwarded payload, and nothing on a skip or a fault |
| `Proxy.SBProxy.GzipCompress` | src/main/java/org/plannerstack/sbproxy/SBProxy.java:164-169 | reading through the limit, encoding and probing one more byte gives `BoundedGzip` of the stream's remaining bytes |
| `Proxy.SBProxy.ProxyLoop` | src/main/java/org/plannerstack/sbproxy/SBProxy.java:119-128 | the loop's fault, the polls it used and the payloads the socket received are exactly those of `Run` on the pending polls; no poll after the failing one is used |

## Left out

- `createAzureService` and `createZmqSocket` build network clients through the Azure SDK and JeroMQ, which are foreign libraries.
- `Options.java` and `CmdLine.java` parse arguments, load a properties file and close the socket at exit. This is library and resource plumbing.
- GZIP and deflate internals are left out. `GZIPOutputStream` is the function value `gzip`, so decompression round trips and the encoding's byte format are not stated.
- Logging (`log.debug`, `log.warn`, `log.error`) has no effect on behaviour and is left out. `proxyLoop`'s logged exception is returned as its fault instead.
- Faults of the ZeroMQ socket are left out: `Socket.Send` always succeeds, and its boolean result, which `proxyMessage` ignores, is not modelled.
- Proxy.ServiceBus.ReceiveSubscriptionMessage: requires a pending poll result. A real receive blocks until one arrives, and blocking is not modelled.
- Proxy.SBProxy.ProxyMessage: requires a pending poll result, for the same reason.
- Proxy.SBProxy.ProxyLoop: returns None when the poll results run out. The real `while (true)` loop would go on polling and never return.
- The topic and subscription names are passed along but select nothing: `ServiceBus` stands for the one subscription being polled.
- Guava's `copy` moves bytes in chunks. `CopyLimited` and `ToByteArray` move one byte at a time, with the same result.
- The message body stream is made from the message's bytes and its failure flag when the body is read. Any other behaviour of the stream (a body that cannot be obtained at all, a failing close) is not modelled.
- Threads, blocking and the socket's linger period are concurrency and transport concerns outside this sequential model.

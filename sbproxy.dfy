/**
  The proxy object: it holds its Service Bus contract, its ZeroMQ socket,
  the maximum message size and the compression flag, and relays messages
  from the one to the other. Its methods are proved against the functions
  of module Relay.
 */
module Proxy {
  import opened Streams
  import opened Relay

  /**
    The Service Bus contract, reduced to the subscription being polled: the
    results its receiveSubscriptionMessage returns, one per call, in order.
    A receive blocks until it has a result, so only polls that complete are
    listed.
   */
  class ServiceBus {
    const polls: seq<Poll>
    var cursor: nat

    ghost predicate Valid()
      reads this
    {
      cursor <= |polls|
    }

    /** The results the next calls of receiveSubscriptionMessage return. */
    function Pending(): (r: seq<Poll>)
      reads this
      requires Valid()
      ensures |r| == |polls| - cursor
    {
      polls[cursor..]
    }

    constructor (polls: seq<Poll>)
      ensures Valid() && Pending() == polls
    {
      this.polls := polls;
      cursor := 0;
    }

    method ReceiveSubscriptionMessage(topic: string, subscription: string) returns (p: Poll)
      requires Valid() && Pending() != []
      modifies this
      ensures Valid()
      ensures p == old(Pending())[0] && Pending() == old(Pending())[1..]
    {
      p := polls[cursor];
      cursor := cursor + 1;
    }
  }

  /** The ZeroMQ PUB socket, reduced to the payloads sent on it, in order. */
  class Socket {
    var sent: seq<seq<byte>>

    constructor ()
      ensures sent == []
    {
      sent := [];
    }

    method Send(data: seq<byte>)
      modifies this
      ensures sent == old(sent) + [data]
    {
      sent := sent + [data];
    }
  }

  class SBProxy {
    const azureService: ServiceBus
    const zmqSocket: Socket
    const maxMsgSize: Int32
    const useCompression: bool
    /** The GZIP encoder that GZIPOutputStream implements. */
    const gzip: seq<byte> -> seq<byte>

    /** The convenience constructor: the default maximum message size, with compression. */
    constructor WithDefaults(azureService: ServiceBus, zmqSocket: Socket, gzip: seq<byte> -> seq<byte>)
      ensures GetAzureService() == azureService && GetZmqSocket() == zmqSocket
      ensures GetMaxMsgSize() == 1048576 && UsesCompression()
      ensures this.gzip == gzip
    {
      this.azureService := azureService;
      this.zmqSocket := zmqSocket;
      this.maxMsgSize := DEFAULT_MAX_MSG_SIZE;
      this.useCompression := true;
      this.gzip := gzip;
    }

    constructor (azureService: ServiceBus, zmqSocket: Socket, maxMsgSize: Int32, useCompression: bool,
                 gzip: seq<byte> -> seq<byte>)
      ensures GetAzureService() == azureService && GetZmqSocket() == zmqSocket
      ensures GetMaxMsgSize() == maxMsgSize && UsesCompression() == useCompression
      ensures this.gzip == gzip
    {
      this.azureService := azureService;
      this.zmqSocket := zmqSocket;
      this.maxMsgSize := maxMsgSize;
      this.useCompression := useCompression;
      this.gzip := gzip;
    }

    function GetAzureService(): ServiceBus { azureService }

    function GetZmqSocket(): Socket { zmqSocket }

    function GetMaxMsgSize(): Int32 { maxMsgSize }

    function UsesCompression(): bool { useCompression }

    /** The settings every call of proxyMessage reads. */
    function Settings(): Config { Config(maxMsgSize, useCompression, gzip) }

    /**
      proxyLoop: call proxyMessage until the first call that throws, then
      stop. Returns the fault it stopped on, or None once the subscription's
      results run out.
     */
    method ProxyLoop(topic: string, subscription: string) returns (fault: Option<Fault>)
      requires azureService.Valid()
      modifies azureService, zmqSocket
      ensures azureService.Valid()
      ensures var t := Run(Settings(), old(azureService.Pending()));
        && fault == t.fault
        && azureService.Pending() == old(azureService.Pending())[t.consumed..]
        && zmqSocket.sent == old(zmqSocket.sent) + t.sent
    {
      ghost var polls := azureService.Pending();
      ghost var target := DriveFrom(Outcomes(Settings(), polls), 0, old(zmqSocket.sent));
      ghost var used := 0;
      fault := None;
      while azureService.Pending() != []
        invariant azureService.Valid()
        invariant used <= |polls| && azureService.Pending() == polls[used..]
        invariant DriveFrom(Outcomes(Settings(), polls), used, zmqSocket.sent) == target
        decreases |polls| - used
      {
        RunTurn(Settings(), polls, used, zmqSocket.sent);
        var outcome := ProxyMessage(topic, subscription);
        if outcome.Fatal? {
          fault := Some(outcome.fault);
          used := used + 1;
          break;
        }
        used := used + 1;
      }
      DriveFromSocket(Outcomes(Settings(), polls), old(zmqSocket.sent));
    }

    /**
      proxyMessage: poll the subscription once, skip a null result or a
      message without an id, otherwise send the body (raw, or GZIP-encoded
      within the size limit) as one payload.
     */
    method ProxyMessage(topic: string, subscription: string) returns (outcome: Outcome)
      requires azureService.Valid() && azureService.Pending() != []
      modifies azureService, zmqSocket
      ensures azureService.Valid()
      ensures azureService.Pending() == old(azureService.Pending())[1..]
      ensures outcome == Step(Settings(), old(azureService.Pending())[0])
      ensures zmqSocket.sent == old(zmqSocket.sent) + Sent(outcome)
    {
      var result := azureService.ReceiveSubscriptionMessage(topic, subscription);
      if result.ServiceError? {
        return Fatal(ServiceFault);
      }
      var msg := result.value;
      if msg.None? {
        return SkippedEmpty;
      }
      if msg.value.messageId.None? {
        return SkippedNoId(msg.value.messageLabel);
      }
      assert Step(Settings(), result) == Deliver(Settings(), msg.value);
      var body := new InputStream(msg.value.body, msg.value.bodyFails);
      var output: seq<byte>;
      if useCompression {
        var compressed := GzipCompress(body);
        if compressed.Failure? {
          return Fatal(compressed.error);
        }
        output := compressed.value;
      } else {
        var failed;
        output, failed := ToByteArray(body);
        if failed {
          return Fatal(BodyReadFailure);
        }
      }
      zmqSocket.Send(output);
      return Forwarded(output);
    }

    /**
      gzipCompress: encode at most maxMsgSize bytes of the stream, then fail
      with "message too long" if the stream still has a byte. A read that
      throws fails the call with BodyReadFailure.
     */
    method GzipCompress(src: InputStream) returns (r: Result<seq<byte>, Fault>)
      requires src.Valid()
      modifies src
      ensures src.Valid()
      ensures r == BoundedGzip(Settings(), old(src.Remaining()), src.fails)
    {
      if maxMsgSize < 0 {
        return Failure(NegativeLimit);
      }
      var read, failed := CopyLimited(src, maxMsgSize);
      if failed {
        return Failure(BodyReadFailure);
      }
      var encoded := gzip(read);
      var next := src.Read();
      if next.ReadFailure? {
        return Failure(BodyReadFailure);
      }
      if next != EndOfStream {
        return Failure(MessageTooLong);
      }
      return Success(encoded);
    }
  }
}

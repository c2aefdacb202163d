/**
  Clients of the proxy that replay the scenarios of the unit tests: what a
  caller can prove from the contracts of SBProxy alone.
 */
module ProxyTests {
  import opened Streams
  import opened Relay
  import opened Proxy

  /** The bytes String.getBytes gives for ASCII text. */
  function AsciiBytes(s: string): (r: seq<byte>)
    ensures |r| == |s|
  {
    seq(|s|, i requires 0 <= i < |s| => (s[i] as int % 256) as byte)
  }

  method TestConvenienceConstructor(gzip: seq<byte> -> seq<byte>) {
    var azureService := new ServiceBus([]);
    var zmqSocket := new Socket();
    var proxy := new SBProxy.WithDefaults(azureService, zmqSocket, gzip);
    assert proxy.GetAzureService() == azureService && proxy.GetZmqSocket() == zmqSocket;
    assert proxy.GetMaxMsgSize() == 1048576 && proxy.UsesCompression();
  }

  method TestConstructor(gzip: seq<byte> -> seq<byte>) {
    var azureService := new ServiceBus([]);
    var zmqSocket := new Socket();
    var proxy := new SBProxy(azureService, zmqSocket, 1337, false, gzip);
    assert proxy.GetAzureService() == azureService && proxy.GetZmqSocket() == zmqSocket;
    assert proxy.GetMaxMsgSize() == 1337 && !proxy.UsesCompression();
  }

  method TestProxyMessage(gzip: seq<byte> -> seq<byte>) {
    var content := AsciiBytes("message");
    var message := Message(Some("messageId1"), None, content, false);
    var azureService := new ServiceBus([Received(Some(message))]);
    var zmqSocket := new Socket();
    var proxy := new SBProxy(azureService, zmqSocket, 1024, false, gzip);
    var outcome := proxy.ProxyMessage("topic", "subscription");
    assert zmqSocket.sent == [content];
  }

  method TestSkipNullMessage(gzip: seq<byte> -> seq<byte>) {
    var azureService := new ServiceBus([Received(None)]);
    var zmqSocket := new Socket();
    var proxy := new SBProxy(azureService, zmqSocket, 1024, false, gzip);
    var outcome := proxy.ProxyMessage("topic", "subscription");
    assert outcome == SkippedEmpty && zmqSocket.sent == [];
  }

  method TestSkipNullMessageId(gzip: seq<byte> -> seq<byte>) {
    var message := Message(None, None, AsciiBytes("message"), false);
    var azureService := new ServiceBus([Received(Some(message))]);
    var zmqSocket := new Socket();
    var proxy := new SBProxy(azureService, zmqSocket, 1024, false, gzip);
    var outcome := proxy.ProxyMessage("topic", "subscription");
    assert outcome.SkippedNoId? && zmqSocket.sent == [];
  }

  method TestCompressedProxyMessage(gzip: seq<byte> -> seq<byte>) {
    var content := AsciiBytes("message2");
    var message := Message(Some("messageId2"), None, content, false);
    var azureService := new ServiceBus([Received(Some(message))]);
    var zmqSocket := new Socket();
    var proxy := new SBProxy(azureService, zmqSocket, 1024, true, gzip);
    var outcome := proxy.ProxyMessage("topic", "subscription");
    assert zmqSocket.sent == [gzip(content)];
  }

  method TestMessageSizeTooLong(gzip: seq<byte> -> seq<byte>) {
    var content := AsciiBytes("a message longer than 10 bytes");
    var message := Message(Some("messageId3"), None, content, false);
    var azureService := new ServiceBus([Received(Some(message))]);
    var zmqSocket := new Socket();
    var proxy := new SBProxy(azureService, zmqSocket, 10, true, gzip);
    var outcome := proxy.ProxyMessage("topic", "subscription");
    assert outcome == Fatal(MessageTooLong) && zmqSocket.sent == [];
  }

  /** A body whose stream throws while it is read fails the call, on either path, and nothing is sent. */
  method TestBodyReadFailure(gzip: seq<byte> -> seq<byte>, useCompression: bool) {
    var message := Message(Some("messageId4"), None, AsciiBytes("message"), true);
    var azureService := new ServiceBus([Received(Some(message))]);
    var zmqSocket := new Socket();
    var proxy := new SBProxy(azureService, zmqSocket, 1024, useCompression, gzip);
    var outcome := proxy.ProxyMessage("topic", "subscription");
    assert outcome == Fatal(BodyReadFailure) && zmqSocket.sent == [];
  }

  /** The loop skips, forwards, and stops for good on the first oversized message. */
  method TestProxyLoopStopsOnFirstFault(gzip: seq<byte> -> seq<byte>) {
    var small := AsciiBytes("message");
    var large := AsciiBytes("a message longer than 10 bytes");
    var polls := [
      Received(None),
      Received(Some(Message(None, Some("label"), small, false))),
      Received(Some(Message(Some("messageId1"), None, small, false))),
      Received(Some(Message(Some("messageId2"), None, large, false))),
      Received(Some(Message(Some("messageId3"), None, small, false)))
    ];
    var azureService := new ServiceBus(polls);
    var zmqSocket := new Socket();
    var proxy := new SBProxy(azureService, zmqSocket, 10, true, gzip);
    var fault := proxy.ProxyLoop("topic", "subscription");
    RunStopsAtFirstFault(proxy.Settings(), polls, 3);
    var done := Outcomes(proxy.Settings(), polls[..3]);
    assert done == [SkippedEmpty, SkippedNoId(Some("label")), Forwarded(gzip(small))];
    assert Forwards(done[2..]) == [gzip(small)];
    assert Forwards(done) == Forwards(done[1..]) == Forwards(done[2..]);
    assert fault == Some(MessageTooLong);
    assert zmqSocket.sent == [gzip(small)];
    assert azureService.Pending() == [polls[4]];
  }
}

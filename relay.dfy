/**
  The relay from an Azure Service Bus subscription to a ZeroMQ socket, as
  values: what one call of proxyMessage does with one poll of the
  subscription (Step), what proxyLoop does with a run of polls (Run), and
  the properties the relay promises about them.
 */
module Relay {
  import opened Streams

  /** Java's int, the type of maxMsgSize. */
  type Int32 = x: int | -0x8000_0000 <= x < 0x8000_0000

  /** The maximum message size the two-argument constructor uses: 1 MiB. */
  const DEFAULT_MAX_MSG_SIZE: Int32 := 1 * 1024 * 1024

  datatype Option<T> = None | Some(value: T)

  datatype Result<T, E> = Success(value: T) | Failure(error: E)

  /**
    A brokered message: its id and label may be null, its body is a byte
    stream that yields the bytes body and then ends, or, when bodyFails
    holds, throws an IOException where it would have ended.
   */
  datatype Message = Message(messageId: Option<string>, messageLabel: Option<string>, body: seq<byte>, bodyFails: bool)

  /**
    One call of receiveSubscriptionMessage: it throws a ServiceException, or
    it returns a result whose value is a message or null.
   */
  datatype Poll = ServiceError | Received(value: Option<Message>)

  /** Why a call of proxyMessage throws. */
  datatype Fault =
    | ServiceFault     // the ServiceException of receiveSubscriptionMessage
    | NegativeLimit    // Guava's limit refuses a negative maxMsgSize
    | MessageTooLong   // the IOException "message too long" of gzipCompress
    | BodyReadFailure  // an IOException from reading the message body

  /** How one call of proxyMessage ends: it sends a payload, returns early, or throws. */
  datatype Outcome =
    | Forwarded(payload: seq<byte>)
    | SkippedEmpty
    | SkippedNoId(messageLabel: Option<string>)
    | Fatal(fault: Fault)

  /** What the socket receives for an outcome: its payload if it is Forwarded, nothing otherwise. */
  function Sent(o: Outcome): (r: seq<seq<byte>>)
    ensures |r| <= 1 && (r != [] <==> o.Forwarded?)
  {
    if o.Forwarded? then [o.payload] else []
  }

  /** The settings of a proxy; gzip stands for GZIPOutputStream, which is not modelled. */
  datatype Config = Config(maxMsgSize: Int32, useCompression: bool, gzip: seq<byte> -> seq<byte>)

  /**
    gzipCompress on a body stream: read at most maxMsgSize bytes through the
    limited stream, encode them, then probe the stream for one more byte.
    A read past the body's bytes throws when the stream fails.
   */
  function BoundedGzip(c: Config, body: seq<byte>, fails: bool): (r: Result<seq<byte>, Fault>)
    ensures r.Success? <==> 0 <= c.maxMsgSize && |body| <= c.maxMsgSize && !fails
    ensures r.Success? ==> r.value == c.gzip(body)
    ensures c.maxMsgSize < 0 ==> r == Failure(NegativeLimit)
    ensures 0 <= c.maxMsgSize < |body| ==> r == Failure(MessageTooLong)
    ensures 0 <= c.maxMsgSize && |body| <= c.maxMsgSize && fails ==> r == Failure(BodyReadFailure)
  {
    if c.maxMsgSize < 0 then
      Failure(NegativeLimit)
    else
      var read, rest := Take(body, c.maxMsgSize), Drop(body, c.maxMsgSize);
      if fails && |read| < c.maxMsgSize then Failure(BodyReadFailure)  // the copy reads past the bytes
      else if rest != [] then Failure(MessageTooLong)                   // the probe returns a byte
      else if fails then Failure(BodyReadFailure)                       // the probe reads past the bytes
      else Success(c.gzip(read))
  }

  /** What one call of proxyMessage does with the result of its poll. */
  function Step(c: Config, p: Poll): Outcome
  {
    match p
    case ServiceError => Fatal(ServiceFault)
    case Received(None) => SkippedEmpty
    case Received(Some(m)) =>
      if m.messageId.None? then SkippedNoId(m.messageLabel) else Deliver(c, m)
  }

  /**
    What proxyMessage does with a received message that has an id: read the
    whole body, or with compression on GZIP-encode it within the limit.
   */
  function Deliver(c: Config, m: Message): Outcome
  {
    if !c.useCompression then
      if m.bodyFails then Fatal(BodyReadFailure) else Forwarded(m.body)
    else
      match BoundedGzip(c, m.body, m.bodyFails)
      case Success(out) => Forwarded(out)
      case Failure(f) => Fatal(f)
  }

  /** A message with an id, as a poll delivers it. */
  predicate HasId(p: Poll)
  {
    p.Received? && p.value.Some? && p.value.value.messageId.Some?
  }

  /** A body within the limit on the compressed path; any body on the uncompressed path. */
  predicate WithinLimit(c: Config, m: Message)
  {
    !c.useCompression || (0 <= c.maxMsgSize && |m.body| <= c.maxMsgSize)
  }

  /**
    What proxyMessage sends: nothing for a fault, a null result or a null
    id; for a message with an id whose body reads to its end, the whole body
    with compression off, whatever its size, and with compression on the
    GZIP encoding of the whole body, which is within the limit.
   */
  lemma StepSends(c: Config, p: Poll)
    ensures Step(c, p).Forwarded? ==> HasId(p) && !p.value.value.bodyFails && WithinLimit(c, p.value.value)
    ensures HasId(p) && !p.value.value.bodyFails && !c.useCompression ==> Step(c, p) == Forwarded(p.value.value.body)
    ensures HasId(p) && !p.value.value.bodyFails && c.useCompression && WithinLimit(c, p.value.value) ==>
      Step(c, p) == Forwarded(c.gzip(p.value.value.body))
    ensures p.Received? && p.value.None? ==> Step(c, p) == SkippedEmpty
    ensures p.Received? && p.value.Some? && p.value.value.messageId.None? ==>
      Step(c, p) == SkippedNoId(p.value.value.messageLabel)
  {
  }

  /**
    proxyMessage throws exactly on a service fault, on a body stream that
    fails, or on the compressed path for a body over the limit (or a
    negative limit); a skip or a send is a normal return. A body over the
    limit is reported as too long even when its stream would fail later.
   */
  lemma StepFails(c: Config, p: Poll)
    ensures Step(c, p).Fatal? <==>
      p.ServiceError? || (HasId(p) && (p.value.value.bodyFails || !WithinLimit(c, p.value.value)))
    ensures p.ServiceError? ==> Step(c, p) == Fatal(ServiceFault)
    ensures HasId(p) && c.useCompression && c.maxMsgSize < 0 ==> Step(c, p) == Fatal(NegativeLimit)
    ensures HasId(p) && c.useCompression && 0 <= c.maxMsgSize < |p.value.value.body| ==>
      Step(c, p) == Fatal(MessageTooLong)
    ensures HasId(p) && p.value.value.bodyFails && WithinLimit(c, p.value.value) ==>
      Step(c, p) == Fatal(BodyReadFailure)
  {
  }

  /** What proxyLoop did: the payloads it sent, the polls it used, and the fault it stopped on. */
  datatype Trace = Trace(sent: seq<seq<byte>>, consumed: nat, fault: Option<Fault>) {
    /** The number of calls of proxyMessage that returned normally. */
    function Completed(): nat {
      if fault.Some? && consumed > 0 then consumed - 1 else consumed
    }
  }

  /** The outcome Step gives each poll, in order. */
  function Outcomes(c: Config, polls: seq<Poll>): (os: seq<Outcome>)
    ensures |os| == |polls|
    ensures forall i :: 0 <= i < |polls| ==> os[i] == Step(c, polls[i])
  {
    seq(|polls|, i requires 0 <= i < |polls| => Step(c, polls[i]))
  }

  /** The payloads of the Forwarded outcomes in os, in order, ignoring every fault. */
  function Forwards(os: seq<Outcome>): seq<seq<byte>>
    decreases |os|
  {
    if os == [] then [] else Sent(os[0]) + Forwards(os[1..])
  }

  /**
    The driver of proxyLoop on the outcomes of successive calls of
    proxyMessage, from outcome `used` on, with `sent` already on the socket:
    go on after every normal return, stop for good after the first Fatal.
   */
  function DriveFrom(os: seq<Outcome>, used: nat, sent: seq<seq<byte>>): (t: Trace)
    requires used <= |os|
    ensures used <= t.consumed <= |os|
    ensures t.fault.None? ==> t.consumed == |os|
    ensures t.fault.Some? ==> used < t.consumed && os[t.consumed - 1] == Fatal(t.fault.value)
    ensures forall i :: used <= i < t.Completed() ==> !os[i].Fatal?
    decreases |os| - used
  {
    if used == |os| then
      Trace(sent, used, None)
    else if os[used].Fatal? then
      Trace(sent, used + 1, Some(os[used].fault))
    else
      DriveFrom(os, used + 1, sent + Sent(os[used]))
  }

  /** The whole drive, starting from an empty socket. */
  function Drive(os: seq<Outcome>): Trace
  {
    DriveFrom(os, 0, [])
  }

  /** One normal return: the driver carries on with the turn's payload added to the socket. */
  lemma DriveFromUnfold(os: seq<Outcome>, used: nat, sent: seq<seq<byte>>)
    requires used < |os| && !os[used].Fatal?
    ensures DriveFrom(os, used, sent) == DriveFrom(os, used + 1, sent + Sent(os[used]))
  {
  }

  /** Forwards of a non-empty slice: the first outcome's payload, then the rest. */
  lemma ForwardsUnfold(os: seq<Outcome>, i: nat, k: nat)
    requires i < k <= |os|
    ensures Forwards(os[i..k]) == Sent(os[i]) + Forwards(os[i + 1..k])
  {
    assert os[i..k][1..] == os[i + 1..k];
  }

  /** When the driver stops, and why, does not depend on what the socket already holds. */
  lemma {:induction false} DriveFromStopsAlike(os: seq<Outcome>, used: nat, s1: seq<seq<byte>>, s2: seq<seq<byte>>)
    requires used <= |os|
    ensures DriveFrom(os, used, s1).consumed == DriveFrom(os, used, s2).consumed
    ensures DriveFrom(os, used, s1).fault == DriveFrom(os, used, s2).fault
    decreases |os| - used
  {
    if used < |os| && !os[used].Fatal? {
      DriveFromUnfold(os, used, s1);
      DriveFromUnfold(os, used, s2);
      DriveFromStopsAlike(os, used + 1, s1 + Sent(os[used]), s2 + Sent(os[used]));
    }
  }

  /** The inductive step of DriveFromSendsForwards: one normal return, then what the rest of the drive sends. */
  lemma DriveFromSendsOneMore(os: seq<Outcome>, used: nat, sent: seq<seq<byte>>)
    requires used < |os| && !os[used].Fatal?
    requires var t := DriveFrom(os, used + 1, sent + Sent(os[used]));
      used + 1 <= t.Completed() && t.sent == (sent + Sent(os[used])) + Forwards(os[used + 1..t.Completed()])
    ensures used <= DriveFrom(os, used, sent).Completed()
    ensures DriveFrom(os, used, sent).sent == sent + Forwards(os[used..DriveFrom(os, used, sent).Completed()])
  {
    var head := Sent(os[used]);
    var k := DriveFrom(os, used + 1, sent + head).Completed();
    DriveFromUnfold(os, used, sent);
    ForwardsUnfold(os, used, k);
    var rest := Forwards(os[used + 1..k]);
    assert (sent + head) + rest == sent + (head + rest);
  }

  /**
    What the driver adds to the socket is the payloads of exactly the
    outcomes it handles before the first fault, in order.
   */
  lemma {:induction false} DriveFromSendsForwards(os: seq<Outcome>, used: nat, sent: seq<seq<byte>>)
    requires used <= |os|
    ensures used <= DriveFrom(os, used, sent).Completed()
    ensures DriveFrom(os, used, sent).sent == sent + Forwards(os[used..DriveFrom(os, used, sent).Completed()])
    decreases |os| - used
  {
    if used < |os| && !os[used].Fatal? {
      DriveFromSendsForwards(os, used + 1, sent + Sent(os[used]));
      DriveFromSendsOneMore(os, used, sent);
    } else {
      assert os[used..used] == [];
    }
  }

  /** proxyLoop over a finite run of polls: repeat Step until the first Fatal, or until the polls run out. */
  function Run(c: Config, polls: seq<Poll>): Trace
  {
    Drive(Outcomes(c, polls))
  }

  /**
    One call of proxyMessage inside proxyLoop, on poll `used`: after a normal
    return the driver carries on from the next poll with the payload added;
    after a fault it stops there.
   */
  lemma RunTurn(c: Config, polls: seq<Poll>, used: nat, sent: seq<seq<byte>>)
    requires used < |polls|
    ensures var o := Step(c, polls[used]);
      if o.Fatal? then DriveFrom(Outcomes(c, polls), used, sent) == Trace(sent, used + 1, Some(o.fault))
      else DriveFrom(Outcomes(c, polls), used, sent) == DriveFrom(Outcomes(c, polls), used + 1, sent + Sent(o))
  {
  }

  /** Driving with `sent` already on the socket is driving from an empty socket, after `sent`. */
  lemma DriveFromSocket(os: seq<Outcome>, sent: seq<seq<byte>>)
    ensures DriveFrom(os, 0, sent).fault == Drive(os).fault
    ensures DriveFrom(os, 0, sent).consumed == Drive(os).consumed
    ensures DriveFrom(os, 0, sent).sent == sent + Drive(os).sent
  {
    DriveFromSendsForwards(os, 0, sent);
    DriveFromSendsForwards(os, 0, []);
    DriveFromStopsAlike(os, 0, sent, []);
  }

  /** The sink receives the payloads of exactly the polls before the first fault, in order. */
  lemma RunSendsForwardsBeforeFault(c: Config, polls: seq<Poll>)
    ensures Run(c, polls).sent == Forwards(Outcomes(c, polls)[..Run(c, polls).Completed()])
  {
    DriveFromSendsForwards(Outcomes(c, polls), 0, []);
  }

  /** The loop stops on the first failing poll: it uses that poll and no later one. */
  lemma RunStopsAtFirstFault(c: Config, polls: seq<Poll>, i: nat)
    requires i < |polls| && Step(c, polls[i]).Fatal?
    requires forall j :: 0 <= j < i ==> !Step(c, polls[j]).Fatal?
    ensures Run(c, polls).consumed == i + 1
    ensures Run(c, polls).fault == Some(Step(c, polls[i]).fault)
    ensures Run(c, polls).sent == Forwards(Outcomes(c, polls[..i]))
  {
    var os := Outcomes(c, polls);
    RunSendsForwardsBeforeFault(c, polls);
    assert os[..i] == Outcomes(c, polls[..i]);
  }

  /** Skips never stop the loop: when no poll fails, every poll is used and no fault is reported. */
  lemma RunWithoutFaultUsesAllPolls(c: Config, polls: seq<Poll>)
    requires forall j :: 0 <= j < |polls| ==> !Step(c, polls[j]).Fatal?
    ensures Run(c, polls).consumed == |polls| && Run(c, polls).fault == None
    ensures Run(c, polls).sent == Forwards(Outcomes(c, polls))
  {
    var os := Outcomes(c, polls);
    RunSendsForwardsBeforeFault(c, polls);
    assert os[..|os|] == os;
  }

  /** An oversized body on the compressed path ends the loop there, and its payload is never sent. */
  lemma OversizedMessageStopsRelay(c: Config, polls: seq<Poll>, i: nat, m: Message)
    requires c.useCompression && 0 <= c.maxMsgSize
    requires i < |polls| && polls[i] == Received(Some(m)) && m.messageId.Some? && |m.body| > c.maxMsgSize
    requires forall j :: 0 <= j < i ==> !Step(c, polls[j]).Fatal?
    ensures Run(c, polls).consumed == i + 1 && Run(c, polls).fault == Some(MessageTooLong)
    ensures Run(c, polls).sent == Forwards(Outcomes(c, polls[..i]))
  {
    StepFails(c, polls[i]);
    RunStopsAtFirstFault(c, polls, i);
  }

  /**
    A message with an id whose body stream fails ends the loop there, unless
    its body is over the limit on the compressed path, which ends it first.
   */
  lemma UnreadableBodyStopsRelay(c: Config, polls: seq<Poll>, i: nat, m: Message)
    requires i < |polls| && polls[i] == Received(Some(m)) && m.messageId.Some? && m.bodyFails && WithinLimit(c, m)
    requires forall j :: 0 <= j < i ==> !Step(c, polls[j]).Fatal?
    ensures Run(c, polls).consumed == i + 1 && Run(c, polls).fault == Some(BodyReadFailure)
    ensures Run(c, polls).sent == Forwards(Outcomes(c, polls[..i]))
  {
    StepFails(c, polls[i]);
    RunStopsAtFirstFault(c, polls, i);
  }

  /** Every payload in Forwards(os) is the payload of some Forwarded outcome of os. */
  lemma {:induction false} ForwardsHaveSources(os: seq<Outcome>, j: nat)
    requires j < |Forwards(os)|
    ensures exists i :: 0 <= i < |os| && os[i] == Forwarded(Forwards(os)[j])
    decreases |os|
  {
    if j < |Sent(os[0])| {
      assert os[0] == Forwarded(Forwards(os)[j]);
    } else {
      ForwardsHaveSources(os[1..], j - |Sent(os[0])|);
      var i :| 0 <= i < |os[1..]| && os[1..][i] == Forwarded(Forwards(os[1..])[j - |Sent(os[0])|]);
      assert os[i + 1] == Forwarded(Forwards(os)[j]);
    }
  }

  /**
    No payload without an id: everything proxyLoop sends comes from a message
    with an id whose body read to its end, received before the loop
    stopped, and is that message's body, or its GZIP encoding of a body
    within the limit.
   */
  lemma SentPayloadsHaveIds(c: Config, polls: seq<Poll>, j: nat)
    requires j < |Run(c, polls).sent|
    ensures exists i ::
              && 0 <= i < Run(c, polls).Completed()
              && HasId(polls[i]) && !polls[i].value.value.bodyFails
              && Run(c, polls).sent[j] ==
                   (if c.useCompression then c.gzip(polls[i].value.value.body) else polls[i].value.value.body)
              && (c.useCompression ==> |polls[i].value.value.body| <= c.maxMsgSize)
  {
    var os := Outcomes(c, polls);
    var done := os[..Run(c, polls).Completed()];
    RunSendsForwardsBeforeFault(c, polls);
    ForwardsHaveSources(done, j);
    var i :| 0 <= i < |done| && done[i] == Forwarded(Forwards(done)[j]);
    assert os[i] == Step(c, polls[i]);
    StepSends(c, polls[i]);
  }
}

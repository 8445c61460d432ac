/** A message of the case and the reply of one earbud, on one link: the transmission sets the
    thresholds and opens the windows with which the reply is then recorded. */
module Exchange {
  import opened Bits
  import opened Framing
  import opened Demodulator
  import opened EdgeRecorder
  import opened Reception
  import opened Transmitter

  /** The side on which the reply comes, and the other one. */
  function Near(link: ChargerLink, onLeft: bool): EarbudChannel {
    if onLeft then link.left else link.right
  }

  function Far(link: ChargerLink, onLeft: bool): EarbudChannel {
    if onLeft then link.right else link.left
  }

  /** So many ticks the case waits for a reply to begin. */
  function Limit(link: ChargerLink): nat {
    link.replyTimeoutMs * OVERSAMPLES % 0x1_0000
  }

  /** The link listens, and nothing comes from the other side. */
  ghost predicate Listens(link: ChargerLink, onLeft: bool)
    reads link, link.txBuf, link.left, link.right, link.left.adcBuf, link.right.adcBuf
  {
    && link.Valid() && !link.Sending()
    && Far(link, onLeft).samples == [] && !Far(link, onLeft).startReading
    && (link.state == Reading ==> Near(link, onLeft).wait <= Limit(link))
  }

  /** One tick with a sample for each side. */
  method ListenTick(link: ChargerLink, onLeft: bool, near: nat, far: nat)
    requires Listens(link, onLeft) && near < 0x8000 && far < 0x8000
    requires far <= Far(link, onLeft).adcThres
    requires !link.Overrun(Near(link, onLeft), near)
    requires link.state == Reading && !Near(link, onLeft).startReading ==> Near(link, onLeft).wait < Limit(link)
    modifies link, link.left, link.right, link.left.adcBuf, link.right.adcBuf
    ensures Listens(link, onLeft)
    ensures Far(link, onLeft).adcThres == old(Far(link, onLeft).adcThres)
    ensures Near(link, onLeft).View() ==
      Over(if old(link.state) == Reading then Sampled(old(Near(link, onLeft).View()), near)
           else old(Near(link, onLeft).View()),
           old(link.state) == Reading && link.state != Reading)
    ensures old(link.state) == Reading && link.state != Reading ==>
      old(Near(link, onLeft).endIdx as int <= |Near(link, onLeft).samples|)
    ensures old(link.state) != Reading ==> link.state != Reading
  {
    var completed, fault := link.Tick(if onLeft then far else near, if onLeft then near else far);
  }

  /** The line on the near side is quiet and then rises, in time. */
  method AwaitReply(link: ChargerLink, onLeft: bool, quiet: seq<nat>, rise: nat, far: seq<nat>)
    requires Listens(link, onLeft) && link.state == Reading && link.Untouched(Near(link, onLeft))
    requires Near(link, onLeft).endIdx == EndOfPacket(MAX_MSG_LEN) as uint16
    requires |far| == |quiet| + 1 <= Limit(link)
    requires forall j :: 0 <= j < |quiet| ==> quiet[j] <= Near(link, onLeft).adcThres && quiet[j] < 0x8000
    requires Near(link, onLeft).adcThres < rise < 0x8000
    requires forall j :: 0 <= j < |far| ==> far[j] <= Far(link, onLeft).adcThres && far[j] < 0x8000
    modifies link, link.left, link.right, link.left.adcBuf, link.right.adcBuf
    ensures Listens(link, onLeft) && link.state == Reading
    ensures Near(link, onLeft).View() == old(Near(link, onLeft).View()).(startReading := true, wait := |far|)
    ensures Far(link, onLeft).adcThres == old(Far(link, onLeft).adcThres)
  {
    ghost var start := Near(link, onLeft).View();
    for n := 0 to |quiet|
      invariant Listens(link, onLeft) && link.state == Reading
      invariant Near(link, onLeft).View() == start.(wait := n)
      invariant Far(link, onLeft).adcThres == old(Far(link, onLeft).adcThres)
    {
      ListenTick(link, onLeft, quiet[n], far[n]);
    }
    ListenTick(link, onLeft, rise, far[|quiet|]);
  }

  /** The link listens to a reply of which n samples have come. */
  ghost predicate Hears(link: ChargerLink, onLeft: bool, samples: seq<int>, n: nat)
    reads link, link.txBuf, link.left, link.right, link.left.adcBuf, link.right.adcBuf
  {
    && Listens(link, onLeft) && Heard(Near(link, onLeft), samples, n)
    && (Near(link, onLeft).isReadingHeader ==> 100 < |Near(link, onLeft).samples|)
    && (link.state != Reading ==> Near(link, onLeft).endIdx as int <= |Near(link, onLeft).samples|)
  }

  lemma NoOverrun(link: ChargerLink, onLeft: bool, samples: seq<int>, n: nat, starts: seq<nat>, base: int,
                  msg: seq<bv8>, idle: seq<bool>)
    requires Heard(Near(link, onLeft), samples, n) && n < |samples|
    requires Reply(samples, Near(link, onLeft).adcThres, starts, base, msg, idle)
    ensures !link.Overrun(Near(link, onLeft), samples[n])
  {
    var ch := Near(link, onLeft);
    if |ch.samples| == n {
      RoomForMessage(samples, ch.adcThres, starts, base, msg, idle, n + 1);
      assert samples[..n] + [samples[n]] == samples[..n + 1];
    }
  }

  method HearTick(link: ChargerLink, onLeft: bool, samples: seq<int>, n: nat, far: nat,
                  ghost starts: seq<nat>, ghost base: int, ghost msg: seq<bv8>, ghost idle: seq<bool>)
    requires Hears(link, onLeft, samples, n) && n < |samples|
    requires Reply(samples, Near(link, onLeft).adcThres, starts, base, msg, idle)
    requires far <= Far(link, onLeft).adcThres && far < 0x8000
    modifies link, link.left, link.right, link.left.adcBuf, link.right.adcBuf
    ensures Hears(link, onLeft, samples, n + 1)
    ensures n == 100 < Near(link, onLeft).endIdx as int ==> Near(link, onLeft).isReadingHeader
    ensures old(Near(link, onLeft).isReadingHeader) ==> Near(link, onLeft).isReadingHeader
    ensures Near(link, onLeft).adcThres == old(Near(link, onLeft).adcThres)
    ensures Near(link, onLeft).endIdx == old(Near(link, onLeft).endIdx)
    ensures Near(link, onLeft).numRxOctets == old(Near(link, onLeft).numRxOctets)
    ensures Far(link, onLeft).adcThres == old(Far(link, onLeft).adcThres)
  {
    NoOverrun(link, onLeft, samples, n, starts, base, msg, idle);
    assert samples[..n] + [samples[n]] == samples[..n + 1];
    ListenTick(link, onLeft, samples[n], far);
  }

  method HearReply(link: ChargerLink, onLeft: bool, samples: seq<int>, from: nat, to: nat, far: seq<nat>,
                   ghost starts: seq<nat>, ghost base: int, ghost msg: seq<bv8>, ghost idle: seq<bool>)
    requires Hears(link, onLeft, samples, from) && from <= to <= |samples| == |far|
    requires Reply(samples, Near(link, onLeft).adcThres, starts, base, msg, idle)
    requires forall j :: 0 <= j < |far| ==> far[j] <= Far(link, onLeft).adcThres && far[j] < 0x8000
    modifies link, link.left, link.right, link.left.adcBuf, link.right.adcBuf
    ensures Hears(link, onLeft, samples, to)
    ensures from <= 100 < to && 100 < Near(link, onLeft).endIdx as int ==> Near(link, onLeft).isReadingHeader
    ensures Near(link, onLeft).adcThres == old(Near(link, onLeft).adcThres)
    ensures Near(link, onLeft).endIdx == old(Near(link, onLeft).endIdx)
    ensures Near(link, onLeft).numRxOctets == old(Near(link, onLeft).numRxOctets)
    ensures Far(link, onLeft).adcThres == old(Far(link, onLeft).adcThres)
  {
    for n := from to to
      invariant Hears(link, onLeft, samples, n)
      invariant from <= 100 < n && 100 < Near(link, onLeft).endIdx as int ==> Near(link, onLeft).isReadingHeader
      invariant Near(link, onLeft).adcThres == old(Near(link, onLeft).adcThres)
      invariant Near(link, onLeft).endIdx == old(Near(link, onLeft).endIdx)
      invariant Near(link, onLeft).numRxOctets == old(Near(link, onLeft).numRxOctets)
      invariant Far(link, onLeft).adcThres == old(Far(link, onLeft).adcThres)
    {
      HearTick(link, onLeft, samples, n, far[n], starts, base, msg, idle);
    }
  }

  /** The header is read while the reply comes in, at any time after the recorder has asked
      for it, which is when the first ten periods are over. */
  method ReadReplyHeader(link: ChargerLink, onLeft: bool, ghost samples: seq<int>, ghost n: nat,
                         ghost starts: seq<nat>, ghost base: int, ghost msg: seq<bv8>, ghost idle: seq<bool>)
    requires Hears(link, onLeft, samples, n) && Near(link, onLeft).isReadingHeader
    requires Reply(samples, Near(link, onLeft).adcThres, starts, base, msg, idle)
    requires Near(link, onLeft).endIdx == EndOfPacket(MAX_MSG_LEN) as uint16
    modifies link.left, link.right
    ensures Hears(link, onLeft, samples, n)
    ensures Near(link, onLeft).adcThres == old(Near(link, onLeft).adcThres)
    ensures Near(link, onLeft).numRxOctets == |msg| && Near(link, onLeft).endIdx == EndOfPacket(|msg|) as uint16
    ensures Far(link, onLeft).adcThres == old(Far(link, onLeft).adcThres)
  {
    HearHeader(Near(link, onLeft), samples, n, starts, base, msg, idle);
  }

  /** The case sends a message and receives the reply of the earbud on one side, while the
      other side is silent. The samples of the reply are those of a line that is high above
      the average current of the transmission and the offset. */
  method SendAndReceive(link: ChargerLink, sent: seq<bv8>, rights: seq<nat>, lefts: seq<nat>, onLeft: bool,
                        quiet: seq<nat>, rise: nat, samples: seq<int>, at: nat, far: seq<nat>, buf: array<bv8>,
                        ghost starts: seq<nat>, ghost base: int, ghost msg: seq<bv8>, ghost idle: seq<bool>)
    requires link.Channels() && |sent| <= MAX_MSG_LEN == link.txBuf.Length == buf.Length
    requires buf != link.txBuf && buf as object != link.left.adcBuf && buf as object != link.right.adcBuf
    requires |rights| == |lefts| == MessageTicks(|sent|)
    requires forall i :: 0 <= i < |lefts| ==> rights[i] < 0x8000 && lefts[i] < 0x8000
    requires CurrentCount(rights) > 0 && CurrentCount(lefts) > 0
    requires |quiet| + 1 <= Limit(link) && 100 < at <= |samples| && |far| == |quiet| + 1 + |samples|
    requires var thres := ThresholdAfter(if onLeft then lefts else rights, link.adcThreshold);
      && Reply(samples, thres, starts, base, msg, idle) && thres < rise < 0x8000
      && forall j :: 0 <= j < |quiet| ==> quiet[j] <= thres && quiet[j] < 0x8000
    requires var thres := ThresholdAfter(if onLeft then rights else lefts, link.adcThreshold);
      forall j :: 0 <= j < |far| ==> far[j] <= thres && far[j] < 0x8000
    modifies link, link.txBuf, link.left, link.right, link.left.adcBuf, link.right.adcBuf, buf
    ensures Near(link, onLeft).numRxOctets == |msg| && msg <= buf[..]
  {
    CurrentsOfReadings(lefts);
    CurrentsOfReadings(rights);
    var fault := SendMessage(link, sent, true, rights, lefts);
    AwaitReply(link, onLeft, quiet, rise, far[..|quiet| + 1]);
    var rest := far[|quiet| + 1..];
    HearReply(link, onLeft, samples, 0, at, rest, starts, base, msg, idle);
    ReadReplyHeader(link, onLeft, samples, at, starts, base, msg, idle);
    HearReply(link, onLeft, samples, at, |samples|, rest, starts, base, msg, idle);
    FetchReply(link, onLeft, samples, buf, starts, base, msg, idle);
  }

  method FetchReply(link: ChargerLink, onLeft: bool, ghost samples: seq<int>, buf: array<bv8>,
                    ghost starts: seq<nat>, ghost base: int, ghost msg: seq<bv8>, ghost idle: seq<bool>)
    requires buf.Length == MAX_MSG_LEN && buf as object != Near(link, onLeft).adcBuf
    requires Heard(Near(link, onLeft), samples, |samples|)
    requires Reply(samples, Near(link, onLeft).adcThres, starts, base, msg, idle)
    requires Near(link, onLeft).endIdx == EndOfPacket(|msg|) as uint16
    modifies buf
    ensures msg <= buf[..]
  {
    var ch := Near(link, onLeft);
    EndCoversMessage(samples, ch.adcThres, starts, base, msg, idle, |ch.samples|);
    ChannelDecodes(ch, starts, base, msg, idle);
    ch.FetchRxData(buf);
  }

  /** The limit is an even number, so that the waiting time can pass it before it wraps. */
  lemma LimitIsEven(ms: nat)
    ensures ms * 10 % 0x1_0000 < 0xFFFF
  {
    var r := ms * 10 % 0x1_0000;
    assert r == 2 * (ms * 5 - 0x8000 * (ms * 10 / 0x1_0000));
  }

  /** The link listens on both sides, and n quiet samples have come. */
  ghost predicate Waits(link: ChargerLink, n: nat)
    reads link, link.txBuf, link.left, link.right, link.left.adcBuf, link.right.adcBuf
  {
    && link.Valid() && link.state == Reading
    && link.left.samples == link.right.samples == [] && !link.left.startReading && !link.right.startReading
    && link.left.endIdx > 0 && link.right.endIdx > 0 && link.left.wait == link.right.wait == n
  }

  method QuietTick(link: ChargerLink, n: nat, rightVal: nat, leftVal: nat)
    requires Waits(link, n) && n <= Limit(link)
    requires rightVal <= link.right.adcThres && leftVal <= link.left.adcThres && rightVal < 0x8000 && leftVal < 0x8000
    modifies link, link.left, link.right, link.left.adcBuf, link.right.adcBuf
    ensures if n < Limit(link) then Waits(link, n + 1)
            else link.state == NotActive && !link.left.dataValid && !link.right.dataValid
    ensures link.left.adcThres == old(link.left.adcThres) && link.right.adcThres == old(link.right.adcThres)
  {
    LimitIsEven(link.replyTimeoutMs);
    var completed, fault := link.Tick(rightVal, leftVal);
  }

  /** Without a reply the case listens for exactly one tick more than the limit, and then
      has no valid data on either side. */
  method ListenInVain(link: ChargerLink, rights: seq<nat>, lefts: seq<nat>) returns (ticks: nat)
    requires Waits(link, 0) && |rights| == |lefts| == Limit(link) + 1
    requires forall j :: 0 <= j < |rights| ==> rights[j] <= link.right.adcThres && rights[j] < 0x8000
    requires forall j :: 0 <= j < |lefts| ==> lefts[j] <= link.left.adcThres && lefts[j] < 0x8000
    modifies link, link.left, link.right, link.left.adcBuf, link.right.adcBuf
    ensures ticks == Limit(link) + 1 && link.state == NotActive && !link.left.dataValid && !link.right.dataValid
  {
    ticks := 0;
    while link.state == Reading
      invariant ticks <= Limit(link) + 1 && (link.state == Reading ==> Waits(link, ticks) && ticks <= Limit(link))
      invariant link.state != Reading ==>
        ticks == Limit(link) + 1 && link.state == NotActive && !link.left.dataValid && !link.right.dataValid
      invariant link.left.adcThres == old(link.left.adcThres) && link.right.adcThres == old(link.right.adcThres)
      decreases Limit(link) + 1 - ticks
    {
      QuietTick(link, ticks, rights[ticks], lefts[ticks]);
      ticks := ticks + 1;
    }
  }
}

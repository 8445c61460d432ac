/** The receiving half of one earbud channel: the edge recorder that runs on every
    sample, the fetch of a received message and the early read of its header. */
module EdgeRecorder {
  import opened Bits
  import opened Framing
  import opened Demodulator

  const ADC_BUF_LEN := 512

  /** A sample and its predecessor lie on different sides of the threshold. */
  predicate Crosses(previous: int, this_: int, thres: int) {
    (this_ > thres && previous <= thres) || (this_ < thres && previous >= thres)
  }

  /** The sample before sample j; the recorder starts from 0. */
  function Previous(samples: seq<int>, j: nat): int
    requires j <= |samples|
  {
    if j == 0 then 0 else samples[j - 1]
  }

  /** The sample indices recorded among the first j samples. */
  function Crossings(samples: seq<int>, thres: int, j: nat): (c: seq<nat>)
    requires j <= |samples|
  {
    if j == 0 then []
    else Crossings(samples, thres, j - 1)
         + (if Crosses(Previous(samples, j - 1), samples[j - 1], thres) then [j - 1] else [])
  }

  lemma {:induction false} CrossingsAppend(samples: seq<int>, s: int, thres: int, j: nat)
    requires j <= |samples|
    ensures Crossings(samples + [s], thres, j) == Crossings(samples, thres, j)
  {
    if j > 0 { CrossingsAppend(samples, s, thres, j - 1); }
  }

  /** Which samples read as high. */
  function Highs(samples: seq<int>, thres: int): (h: seq<bool>)
    ensures |h| == |samples| && forall j :: 0 <= j < |h| ==> h[j] == (samples[j] > thres)
  {
    seq(|samples|, j requires 0 <= j < |samples| => samples[j] > thres)
  }

  /** A stream that never equals its threshold. */
  predicate Clean(samples: seq<int>, thres: int) {
    thres > 0 && forall j :: 0 <= j < |samples| ==> samples[j] != thres
  }

  /** On a clean stream the recorder finds exactly the edges of the level stream,
      starting from low. */
  lemma {:induction false} CrossingsAreEdges(samples: seq<int>, thres: int, j: nat)
    requires Clean(samples, thres) && j <= |samples|
    ensures Crossings(samples, thres, j) == EdgesBelow(false, Highs(samples, thres), j)
  {
    if j > 0 { CrossingsAreEdges(samples, thres, j - 1); }
  }

  /** A level is the parity of the edges at or before it. */
  lemma {:induction false} LevelIsParity(initial: bool, levels: seq<bool>, p: nat)
    requires p < |levels|
    ensures levels[p] == (if |EdgesBelow(initial, levels, p + 1)| % 2 == 1 then !initial else initial)
  {
    if p > 0 {
      LevelIsParity(initial, levels, p - 1);
    } else {
      assert EdgesBelow(initial, levels, 0) == [];
    }
  }

  /** The recorder loses nothing: recorded indices strictly increase, and sample j
      is high exactly when an odd number of them lie at or before it. */
  lemma RecorderIsLossless(samples: seq<int>, thres: int, j: nat)
    requires Clean(samples, thres) && j < |samples|
    ensures var c, upTo := Crossings(samples, thres, |samples|), Crossings(samples, thres, j + 1);
      && Increasing(c)
      && (samples[j] > thres <==> |upTo| % 2 == 1)
      && upTo <= c
      && (forall i :: 0 <= i < |c| ==> (c[i] <= j <==> i < |upTo|))
  {
    var h := Highs(samples, thres);
    CrossingsAreEdges(samples, thres, |samples|);
    EdgesBelowSound(false, h, |samples|);
    CrossingsAreEdges(samples, thres, j + 1);
    LevelIsParity(false, h, j);
    EdgesBelowPrefix(false, h, j + 1, |samples|);
  }

  /** The side of the last of the first j samples that was off the threshold; the line
      starts from below. */
  function HighBefore(samples: seq<int>, thres: int, j: nat): bool
    requires j <= |samples|
  {
    if j == 0 then false
    else if samples[j - 1] == thres then HighBefore(samples, thres, j - 1)
    else samples[j - 1] > thres
  }

  /** Sample j leaves the threshold for the side from which the line came to it. */
  predicate Returns(samples: seq<int>, thres: int, j: nat)
    requires j < |samples|
  {
    samples[j] != thres && Previous(samples, j) == thres && (samples[j] > thres) == HighBefore(samples, thres, j)
  }

  /** How many of the first j samples do that. */
  function ReturnsBelow(samples: seq<int>, thres: int, j: nat): nat
    requires j <= |samples|
  {
    if j == 0 then 0 else ReturnsBelow(samples, thres, j - 1) + (if Returns(samples, thres, j - 1) then 1 else 0)
  }

  predicate Odd(n: nat) {
    n % 2 == 1
  }

  lemma OddNext(n: nat)
    ensures Odd(n + 1) <==> !Odd(n)
  {
  }

  /** A sample is recorded when it is on another side than the last one off the
      threshold, and also when it returns. */
  lemma CrossesExactly(samples: seq<int>, thres: nat, j: nat)
    requires j < |samples|
    ensures Crosses(Previous(samples, j), samples[j], thres) <==>
      samples[j] != thres && ((samples[j] > thres) != HighBefore(samples, thres, j) || Returns(samples, thres, j))
  {
  }

  /** The number of recorded edges is odd on the high side, except that every return
      has turned it over. */
  lemma {:induction false} ParityBelow(samples: seq<int>, thres: nat, j: nat)
    requires j <= |samples|
    ensures Odd(|Crossings(samples, thres, j)|) <==>
      (HighBefore(samples, thres, j) != Odd(ReturnsBelow(samples, thres, j)))
  {
    if j > 0 {
      ParityBelow(samples, thres, j - 1);
      CrossesExactly(samples, thres, j - 1);
      OddNext(|Crossings(samples, thres, j - 1)|);
      OddNext(ReturnsBelow(samples, thres, j - 1));
    }
  }

  /** Sample j is high exactly when an odd number of edges lie at or before it. */
  predicate ParityTells(samples: seq<int>, thres: nat, j: nat)
    requires j < |samples|
  {
    samples[j] > thres <==> Odd(|Crossings(samples, thres, j + 1)|)
  }

  /** Off the threshold the parity of the recorded edges tells the side of a sample
      exactly when the line has returned from the threshold an even number of times. */
  lemma ParityExactly(samples: seq<int>, thres: nat, j: nat)
    requires j < |samples| && samples[j] != thres
    ensures ParityTells(samples, thres, j) <==> !Odd(ReturnsBelow(samples, thres, j + 1))
  {
    ParityBelow(samples, thres, j + 1);
  }

  lemma {:induction false} NoReturns(samples: seq<int>, thres: nat, j: nat)
    requires j <= |samples| && forall k :: 0 <= k < j ==> !Returns(samples, thres, k)
    ensures ReturnsBelow(samples, thres, j) == 0
  {
    if j > 0 { NoReturns(samples, thres, j - 1); }
  }

  lemma {:induction false} FirstReturn(samples: seq<int>, thres: nat, j: nat) returns (k: nat)
    requires j < |samples| && Returns(samples, thres, j)
    ensures k < |samples| && Returns(samples, thres, k) && ReturnsBelow(samples, thres, k + 1) == 1
  {
    if i :| 0 <= i < j && Returns(samples, thres, i) {
      k := FirstReturn(samples, thres, i);
    } else {
      NoReturns(samples, thres, j);
      k := j;
    }
  }

  /** So it tells the side of every sample off the threshold exactly when no stay on the
      threshold ends on the side on which it began. */
  lemma ParityEverywhere(samples: seq<int>, thres: nat)
    ensures (forall j :: 0 <= j < |samples| && samples[j] != thres ==> ParityTells(samples, thres, j)) <==>
            (forall j :: 0 <= j < |samples| ==> !Returns(samples, thres, j))
  {
    if j :| 0 <= j < |samples| && Returns(samples, thres, j) {
      var k := FirstReturn(samples, thres, j);
      ParityExactly(samples, thres, k);
    } else {
      forall j | 0 <= j < |samples| && samples[j] != thres ensures ParityTells(samples, thres, j) {
        NoReturns(samples, thres, j + 1);
        ParityExactly(samples, thres, j);
      }
    }
  }

  /** A line that touches the threshold on its way up keeps the parity; one that falls
      back to the threshold and rises again has its rise recorded twice. */
  lemma ThresholdSampleBreaksParity()
    ensures !Returns([399, 400, 401], 400, 2) && Crossings([399, 400, 401], 400, 3) == [2]
    ensures Returns([401, 400, 401], 400, 2) && Crossings([401, 400, 401], 400, 3) == [0, 2]
  {
    var s, r := [401, 400, 401], [399, 400, 401];
    assert Crossings(s, 400, 1) == [0] && Crossings(s, 400, 2) == [0];
    assert Crossings(r, 400, 1) == [] && Crossings(r, 400, 2) == [];
    assert HighBefore(s, 400, 1) && HighBefore(s, 400, 2);
    assert !HighBefore(r, 400, 1) && !HighBefore(r, 400, 2);
  }

  /** The shorter edge list is the part of the longer one that lies below p. */
  lemma {:induction false} EdgesBelowPrefix(initial: bool, levels: seq<bool>, p: nat, q: nat)
    requires p <= q <= |levels|
    ensures EdgesBelow(initial, levels, p) <= EdgesBelow(initial, levels, q)
    ensures forall i :: 0 <= i < |EdgesBelow(initial, levels, q)| ==>
      (EdgesBelow(initial, levels, q)[i] < p <==> i < |EdgesBelow(initial, levels, p)|)
  {
    if p < q {
      EdgesBelowPrefix(initial, levels, p, q - 1);
    } else {
      EdgesBelowSound(initial, levels, p);
    }
  }

  /** The buffer is too short for the edges of these samples and the next one. */
  predicate Overruns(samples: seq<int>, thres: int, next: int) {
    |Crossings(samples + [next], thres, |samples| + 1)| > ADC_BUF_LEN
  }

  lemma OverrunsNow(samples: seq<int>, thres: int, next: int)
    requires |Crossings(samples, thres, |samples|)| <= ADC_BUF_LEN
    ensures Overruns(samples, thres, next) <==>
      Crosses(Previous(samples, |samples|), next, thres) && |Crossings(samples, thres, |samples|)| == ADC_BUF_LEN
  {
    CrossingsAppend(samples, next, thres, |samples|);
  }

  lemma {:induction false} CrossingsOfPrefix(samples: seq<int>, thres: int, k: nat, j: nat)
    requires j <= k <= |samples|
    ensures Crossings(samples[..k], thres, j) == Crossings(samples, thres, j)
  {
    if j > 0 { CrossingsOfPrefix(samples, thres, k, j - 1); }
  }

  lemma {:induction false} CrossingsGrow(samples: seq<int>, thres: int, j: nat, k: nat)
    requires j <= k <= |samples|
    ensures |Crossings(samples, thres, j)| <= |Crossings(samples, thres, k)|
  {
    if j < k { CrossingsGrow(samples, thres, j, k - 1); }
  }

  /** The edges among the samples that a channel with this end index records of xs. */
  function EdgesInWindow(xs: seq<int>, thres: int, end: nat): nat {
    |Crossings(xs, thres, if |xs| < end then |xs| else end)|
  }

  /** One more sample of a stream overruns the buffer only if the edges of its window do
      not fit. */
  lemma WindowOverruns(xs: seq<int>, thres: int, end: nat, n: nat)
    requires n < |xs| && n < end
    ensures Overruns(xs[..n], thres, xs[n]) ==> EdgesInWindow(xs, thres, end) > ADC_BUF_LEN
    ensures |Crossings(xs[..n], thres, n)| <= EdgesInWindow(xs, thres, end)
  {
    assert xs[..n] + [xs[n]] == xs[..n + 1];
    CrossingsOfPrefix(xs, thres, n + 1, n + 1);
    CrossingsOfPrefix(xs, thres, n, n);
    CrossingsGrow(xs, thres, n + 1, if |xs| < end then |xs| else end);
    CrossingsGrow(xs, thres, n, n + 1);
  }

  /** A channel whose line has risen takes samples until its window ends. It writes behind
      its buffer exactly when the window has more than 512 edges. */
  method RecordAll(ch: EarbudChannel, xs: seq<int>) returns (overrun: bool)
    requires ch.Valid() && ch.startReading && ch.samples == []
    requires forall j :: 0 <= j < |xs| ==> 0 <= xs[j] < 0x8000
    modifies ch, ch.adcBuf
    ensures overrun <==> EdgesInWindow(xs, ch.adcThres, ch.endIdx as nat) > ADC_BUF_LEN
    ensures ch.adcThres == old(ch.adcThres) && ch.endIdx == old(ch.endIdx)
    ensures !overrun ==> ch.Valid() && ch.samples == xs[..if |xs| < ch.endIdx as nat then |xs| else ch.endIdx as nat]
  {
    overrun := false;
    ghost var end, thres := ch.endIdx as nat, ch.adcThres;
    for n := 0 to |xs|
      invariant ch.Valid() && ch.startReading && ch.adcThres == thres && ch.endIdx as nat == end
      invariant ch.samples == xs[..if n < end then n else end]
    {
      if n < end { WindowOverruns(xs, thres, end, n); }
      var active;
      active, overrun := ch.Process(xs[n]);
      if overrun {
        return;
      }
      assert n < end ==> xs[..n] + [xs[n]] == xs[..n + 1];
    }
    var k := if |xs| < end then |xs| else end;
    CrossingsOfPrefix(xs, thres, k, k);
  }

  /** A line that crosses the threshold at every sample. */
  function Alternating(n: nat, thres: int): (s: seq<int>)
    ensures |s| == n && forall j :: 0 <= j < n ==> s[j] == if j % 2 == 0 then thres + 1 else thres - 1
  {
    seq(n, j requires 0 <= j < n => if j % 2 == 0 then thres + 1 else thres - 1)
  }

  lemma {:induction false} AlternatingCrosses(n: nat, thres: nat, k: nat)
    requires k <= n
    ensures |Crossings(Alternating(n, thres), thres, k)| == k
  {
    if k > 0 { AlternatingCrosses(n, thres, k - 1); }
  }

  /** Such a line overruns the buffer, with samples that can occur, within the recording
      window of any packet of five octets or more. */
  lemma AlternatingOverruns(xs: seq<int>, thres: nat, octets: nat)
    requires 1 <= thres < 0x7FFF && 5 <= octets && xs == Alternating(ADC_BUF_LEN + 1, thres)
    ensures forall j :: 0 <= j < |xs| ==> 0 <= xs[j] < 0x8000
    ensures EdgesInWindow(xs, thres, EndOfPacket(octets)) > ADC_BUF_LEN
  {
    AlternatingCrosses(ADC_BUF_LEN + 1, thres, ADC_BUF_LEN + 1);
  }

  /** What is fetched from a channel that holds `count` recorded edge times. */
  function Received(adc: seq<uint16>, count: nat): (buf: seq<bv8>)
    requires 2 <= |adc| && count <= |adc|
    ensures |buf| == MAX_MSG_LEN
  {
    WriteBits(Zeros(), Demodulate(adc, count, 2, adc[1], 2))
  }

  function Zeros(): (z: seq<bv8>)
    ensures |z| == MAX_MSG_LEN
  {
    seq(MAX_MSG_LEN, _ => 0)
  }

  /** The end of the packet, in samples, for a packet of n octets. */
  function EndOfPacket(n: nat): nat {
    (n * GROUP + 15) * OVERSAMPLES
  }

  /** What a channel has recorded, and what tells it how to go on. */
  datatype Recording = Recording(samples: seq<int>, startReading: bool, wait: nat, isReadingHeader: bool,
                                 endIdx: nat, adcThres: nat, numRxOctets: nat, dataValid: bool)

  /** One sample: nothing after the end of the packet; before the line rises only the
      waiting time counts. */
  function Sampled(r: Recording, val: int): Recording {
    if |r.samples| >= r.endIdx then r
    else
      var t := r.(isReadingHeader := r.isReadingHeader || |r.samples| == 10 * OVERSAMPLES);
      if t.startReading then t.(samples := t.samples + [val])
      else t.(startReading := val > t.adcThres, wait := (t.wait + 1) % 0x1_0000)
  }

  class EarbudChannel {
    var allIdx: uint16
    var endIdx: uint16
    var readIdx: nat
    var startReading: bool
    var dataValid: bool
    var previous: int
    const adcBuf: array<uint16>
    var wait: nat
    var isReadingHeader: bool
    var numRxOctets: nat
    var adcThres: nat
    var adcCalCnt: nat
    var adcCalibrate: nat
    /** The samples seen since the line first rose above the threshold. */
    ghost var samples: seq<int>

    ghost predicate Valid()
      reads this, adcBuf
    {
      && adcBuf.Length == ADC_BUF_LEN
      && allIdx == |samples|
      && previous == Previous(samples, |samples|)
      && readIdx == |Crossings(samples, adcThres, |samples|)| <= ADC_BUF_LEN
      && adcBuf[..readIdx] == Crossings(samples, adcThres, |samples|)
      && (!startReading ==> samples == [])
    }

    ghost function View(): Recording
      reads this
    {
      Recording(samples, startReading, wait, isReadingHeader, endIdx as nat, adcThres, numRxOctets, dataValid)
    }

    constructor ()
      ensures Valid() && endIdx == 0 && adcThres == 400 && !startReading
    {
      adcBuf := new uint16[ADC_BUF_LEN](_ => 0);
      allIdx, endIdx, readIdx, wait, numRxOctets := 0, 0, 0, 0, 0;
      adcCalCnt, adcCalibrate := 0, 0;
      startReading, dataValid, isReadingHeader := false, false, false;
      previous, adcThres, samples := 0, 400, [];
    }

    /** Ready for a new transmission; the recorded times stay in the buffer. */
    method Reset()
      requires adcBuf.Length == ADC_BUF_LEN
      modifies this
      ensures Valid() && endIdx == 0 && readIdx == 0 && adcThres == 400 && samples == []
      ensures !startReading && !dataValid && !isReadingHeader && wait == 0 && numRxOctets == 0
      ensures adcCalCnt == 0 && adcCalibrate == 0
    {
      allIdx, endIdx, readIdx, dataValid, previous, wait := 0, 0, 0, false, 0, 0;
      numRxOctets, startReading, isReadingHeader := 0, false, false;
      adcThres, adcCalibrate, adcCalCnt := 400, 0, 0;
      samples := [];
    }

    /** One reading of the current drawn while the case transmits; zeros are skipped. */
    method Calibrate(adcVal: nat)
      requires Valid()
      modifies this`adcCalibrate, this`adcCalCnt
      ensures Valid()
      ensures adcCalCnt == if adcVal > 0 then (old(adcCalCnt) + 1) % 0x1_0000 else old(adcCalCnt)
      ensures adcCalibrate == if adcVal > 0 then (old(adcCalibrate) + adcVal) % 0x1_0000_0000 else old(adcCalibrate)
    {
      if adcVal > 0 {
        adcCalibrate := (adcCalibrate + adcVal) % 0x1_0000_0000;
        adcCalCnt := (adcCalCnt + 1) % 0x1_0000;
      }
    }

    /** Sets the threshold above the average reading and opens the recording window
        for a packet of the greatest length. */
    method Arm(threshold: nat)
      requires Valid() && adcCalCnt > 0 && samples == []
      modifies this`adcThres, this`endIdx
      ensures Valid()
      ensures adcThres == (adcCalibrate / adcCalCnt + threshold) % 0x1_0000
      ensures endIdx == EndOfPacket(MAX_MSG_LEN)
    {
      adcThres := (adcCalibrate / adcCalCnt + threshold) % 0x1_0000;
      endIdx := EndOfPacket(MAX_MSG_LEN);
    }

    /** Records the time of a sample that crosses the threshold. The buffer is not checked
        for space: `overrun` says that the source writes behind its end. */
    method Record(adcVal: int) returns (overrun: bool)
      requires Valid() && 0 <= adcVal < 0x8000 && allIdx < 0xFFFF && startReading
      modifies this`readIdx, this`allIdx, this`previous, this`samples, adcBuf
      ensures Valid() && (overrun <==> Overruns(old(samples), adcThres, adcVal))
      ensures samples == if overrun then old(samples) else old(samples) + [adcVal]
    {
      OverrunsNow(samples, adcThres, adcVal);
      CrossingsAppend(samples, adcVal, adcThres, |samples|);
      if (adcVal > adcThres && previous <= adcThres) || (adcVal < adcThres && previous >= adcThres) {
        if readIdx == ADC_BUF_LEN {
          return true;
        }
        adcBuf[readIdx] := allIdx;
        readIdx := readIdx + 1;
      }
      allIdx := allIdx + 1;
      previous := adcVal;
      samples := samples + [adcVal];
      return false;
    }

    /** One sample. */
    method Process(adcVal: int) returns (active: bool, overrun: bool)
      requires Valid() && 0 <= adcVal < 0x8000
      modifies this, adcBuf
      ensures Valid()
      ensures active == (old(allIdx) < endIdx)
      ensures overrun <==> old(allIdx < endIdx && startReading) && Overruns(old(samples), adcThres, adcVal)
      ensures samples ==
        if old(allIdx < endIdx && startReading) && !overrun then old(samples) + [adcVal] else old(samples)
      ensures startReading == (old(startReading) || (active && adcVal > adcThres))
      ensures wait == if active && !old(startReading) then (old(wait) + 1) % 0x1_0000 else old(wait)
      ensures isReadingHeader == (old(isReadingHeader) || (active && old(allIdx) == 10 * OVERSAMPLES))
      ensures endIdx == old(endIdx) && adcThres == old(adcThres)
      ensures dataValid == old(dataValid) && numRxOctets == old(numRxOctets)
      ensures !overrun ==> View() == Sampled(old(View()), adcVal)
    {
      overrun := false;
      if allIdx >= endIdx {
        return false, false;
      }
      if allIdx == 10 * OVERSAMPLES {
        isReadingHeader := true;
      }
      if startReading {
        overrun := Record(adcVal);
      } else {
        if adcVal > adcThres {
          readIdx := 0;
          startReading := true;
          previous := 0;
        }
        wait := (wait + 1) % 0x1_0000;
      }
      return true, overrun;
    }

    /** Demodulates whatever has been recorded so far. */
    method FetchRxData(buf: array<bv8>)
      requires Valid() && buf.Length == MAX_MSG_LEN
      modifies buf
      ensures buf[..] == Received(old(adcBuf[..]), readIdx)
    {
      var times := adcBuf[..];
      forall k | 0 <= k < MAX_MSG_LEN { buf[k] := 0; }
      assert buf[..] == Zeros();
      var _ := ProcessBits(times, readIdx, 2, times[1], 2, buf);
    }

    /** Reads the payload length out of the header, as far as it has arrived. */
    method ReadHeader() returns (header: bv8)
      requires Valid()
      modifies this`numRxOctets, this`endIdx, this`isReadingHeader
      ensures Valid()
      ensures header == Received(adcBuf[..], readIdx)[0]
      ensures numRxOctets == (header & 0xf) as int + 1 && 1 <= numRxOctets <= MAX_MSG_LEN
      ensures endIdx == EndOfPacket(numRxOctets) && 240 <= endIdx <= 1590
      ensures !isReadingHeader
    {
      var rxBuf := new bv8[MAX_MSG_LEN];
      FetchRxData(rxBuf);
      LowNibble(rxBuf[0]);
      numRxOctets := (rxBuf[0] & 0xf) as int + 1;
      endIdx := EndOfPacket(numRxOctets);
      isReadingHeader := false;
      header := rxBuf[0];
    }
  }

  lemma LowNibble(h: bv8)
    ensures (h & 0xf) as int <= 15
  {
    assert h & 0xf <= 15;
  }
}

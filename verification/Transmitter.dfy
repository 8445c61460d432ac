/** The tick-driven half of the link: it times the start sequence, sends the framed
    message one period at a time and then hands over to the two recorders. */
module Transmitter {
  import opened Bits
  import opened Framing
  import opened Demodulator
  import opened EdgeRecorder

  const VCHG_WAKE_IDX := 0
  const VCHG_OFF_IDX := 10
  const VCHG_HIGH_TIME := 5
  const VCHG_LOW_TIME := 4
  const VCHG_HIGH_IDX := VCHG_OFF_IDX + VCHG_HIGH_TIME
  const VCHG_LOW_IDX := VCHG_HIGH_IDX + VCHG_LOW_TIME

  datatype LinkState = NotActive | StartSequence | Transmitting | Reading
  datatype Vreg = Low | High | Wake

  function Drive(level: bool): Vreg {
    if level then High else Low
  }

  /** The regulator after write tick k + 1 of a transmission: ten periods off, five
      high, five low, the framed message starting from low, and then high. */
  function LevelOnTick(msg: seq<bv8>, k: nat): Vreg
    requires k <= 20 + GROUP * |msg|
  {
    if k < 10 then Wake
    else if k < 15 then High
    else if k < 20 then Low
    else if k < 20 + GROUP * |msg| then Drive(LevelAt(false, msg, k - 20))
    else High
  }

  /** The number of write ticks a message of n octets takes. */
  function SendTicks(n: nat): nat {
    GROUP * n + 21
  }

  /** The timer ticks it takes, ten to a write tick. */
  function MessageTicks(n: nat): nat {
    10 * SendTicks(n)
  }

  /** The data bit of period p, found by counting the data bits sent before it. */
  lemma DataBitOfPeriod(msg: seq<bv8>, p: nat)
    requires p < GROUP * |msg| && p % GROUP != 0
    ensures DataCount(p) < 8 * |msg|
    ensures LevelAt(false, msg, p) == BitOf(msg[DataCount(p) / 8], DataCount(p) % 8)
  {
    assert DataCount(p) == 8 * (p / GROUP) + (p % GROUP - 1);
  }

  lemma AllSentExactlyAtEnd(p: nat, n: nat)
    requires p <= GROUP * n
    ensures DataCount(p) == 8 * n <==> p == GROUP * n
  {
  }

  /** How many of these readings are not zero. */
  function Currents(readings: seq<nat>): (n: nat)
    ensures n <= |readings|
  {
    if readings == [] then 0
    else Currents(readings[..|readings| - 1]) + (if readings[|readings| - 1] > 0 then 1 else 0)
  }

  lemma CurrentsAppend(readings: seq<nat>, val: nat)
    ensures Currents(readings + [val]) == Currents(readings) + (if val > 0 then 1 else 0)
  {
    assert (readings + [val])[..|readings|] == readings;
  }

  /** The sum of these readings. */
  function Total(readings: seq<nat>): nat {
    if readings == [] then 0
    else Total(readings[..|readings| - 1]) + readings[|readings| - 1]
  }

  lemma TotalAppend(readings: seq<nat>, val: nat)
    ensures Total(readings + [val]) == Total(readings) + val
  {
    assert (readings + [val])[..|readings|] == readings;
  }

  /** The level above which a sample is high: the average of the readings that are not zero,
      and an offset. */
  function Threshold(readings: seq<nat>, offset: nat): nat {
    if Currents(readings) == 0 then 0 else (Total(readings) / Currents(readings) + offset) % 0x1_0000
  }

  /** The sum kept for a threshold, with the reading of period b. */
  function Summed(b: nat, sum: nat, val: nat): nat {
    if b >= 5 && val > 0 then (sum + val) % 0x1_0000_0000 else sum
  }

  /** The readings counted for a threshold, with the one of period b. */
  function Counted(b: nat, count: nat, val: nat): nat {
    if b >= 5 && val > 0 then (count + 1) % 0x1_0000 else count
  }

  /** The readings of one side with that of period b. */
  ghost function Taken(b: nat, readings: seq<nat>, val: nat): seq<nat> {
    if b >= 5 then readings + [val] else readings
  }

  lemma CountedOnce(b: nat, count: nat, val: nat)
    requires count < 0xFFFF
    ensures Counted(b, count, val) == count + (if b >= 5 && val > 0 then 1 else 0)
  {
  }

  lemma CountedTaken(b: nat, readings: seq<nat>, val: nat)
    requires |readings| < 0xFFFF
    ensures Counted(b, Currents(readings), val) == Currents(Taken(b, readings, val))
  {
    CountedOnce(b, Currents(readings), val);
    CurrentsAppend(readings, val);
  }

  lemma SummedOnce(b: nat, sum: nat, val: nat)
    requires sum < 0x8000_0000 && val < 0x8000
    ensures Summed(b, sum, val) == sum + (if b >= 5 then val else 0)
  {
  }

  lemma SummedTaken(b: nat, readings: seq<nat>, val: nat)
    requires Total(readings) < 0x8000_0000 && val < 0x8000
    ensures Summed(b, Total(readings), val) == Total(Taken(b, readings, val))
  {
    SummedOnce(b, Total(readings), val);
    TotalAppend(readings, val);
  }

  /** So many readings cannot make the sum wrap. */
  predicate Small(readings: seq<nat>) {
    |readings| <= 150 && Total(readings) <= 0x7FFF * |readings|
  }

  lemma SmallTaken(b: nat, readings: seq<nat>, val: nat)
    requires Small(readings) && |readings| < 150 && val < 0x8000
    ensures Small(Taken(b, readings, val)) && Total(readings) < 0x8000_0000
  {
    TotalAppend(readings, val);
  }

  /** At the end of reading a side has valid data if it has recorded an edge. */
  function Over(r: Recording, completed: bool): Recording {
    if completed then r.(dataValid := |Crossings(r.samples, r.adcThres, |r.samples|)| > 0) else r
  }

  class ChargerLink {
    var state: LinkState
    var vreg: Vreg
    var startIdx: nat
    var writeIdx: nat
    var bitIdx: nat
    var timerIdx: nat
    var numTxBits: nat
    const txBuf: array<bv8>
    var expectReply: bool
    const left: EarbudChannel
    const right: EarbudChannel
    const adcThreshold: nat
    const replyTimeoutMs: nat
    /** The message being sent, and the regulator after each write tick so far. */
    ghost var msg: seq<bv8>
    ghost var trace: seq<Vreg>
    /** The currents of both sides at the write ticks from the sixth period on. */
    ghost var leftReadings: seq<nat>
    ghost var rightReadings: seq<nat>

    ghost predicate Channels()
      reads left, right, left.adcBuf, right.adcBuf
    {
      && left != right && left.adcBuf != right.adcBuf
      && txBuf as object != left.adcBuf && txBuf as object != right.adcBuf
      && left.Valid() && right.Valid()
    }

    /** The next tick is a write tick. */
    predicate WriteNext()
      reads this
    {
      (timerIdx + 1) % OVERSAMPLES == 0
    }

    predicate Sending()
      reads this
    {
      state == StartSequence || state == Transmitting
    }

    /** The transmission so far is the beginning of what the message asks for. */
    ghost predicate OnSchedule()
      reads this, txBuf
    {
      && |msg| <= MAX_MSG_LEN == txBuf.Length
      && msg == txBuf[..|msg|] && numTxBits == 8 * |msg|
      && |trace| <= SendTicks(|msg|)
      && (forall k {:trigger LevelOnTick(msg, k)} :: 0 <= k < |trace| ==> trace[k] == LevelOnTick(msg, k))
      && (Sending() ==> |trace| == timerIdx / OVERSAMPLES && (|trace| > 0 ==> vreg == trace[|trace| - 1]))
      && (state == StartSequence ==> |trace| == startIdx <= VCHG_LOW_IDX && bitIdx == writeIdx == 0)
      && (state == Transmitting ==>
            && |trace| == VCHG_LOW_IDX + 1 + bitIdx < SendTicks(|msg|)
            && writeIdx == DataCount(bitIdx))
      && (!Sending() ==> |trace| == SendTicks(|msg|))
    }

    ghost predicate Valid()
      reads this, txBuf, left, right, left.adcBuf, right.adcBuf
    {
      && Channels() && OnSchedule()
      && (Sending() ==> Untouched(left) && Untouched(right))
      && (Sending() ==> Calibrated())
    }

    /** This side has recorded nothing yet. */
    ghost predicate Untouched(ch: EarbudChannel)
      reads ch
    {
      ch.samples == [] && !ch.startReading && ch.wait == 0 && !ch.isReadingHeader && ch.numRxOctets == 0
    }

    /** The source counts and adds up the readings that are not zero. */
    ghost predicate Averages()
      reads this, left, right
    {
      && left.adcCalCnt == Currents(leftReadings) && right.adcCalCnt == Currents(rightReadings)
      && left.adcCalibrate == Total(leftReadings) && right.adcCalibrate == Total(rightReadings)
      && Small(leftReadings) && Small(rightReadings)
    }

    ghost predicate Calibrated()
      reads this, left, right
    {
      Averages() && |leftReadings| == |rightReadings| == (if bitIdx < 5 then 0 else bitIdx - 5)
    }

    /** Both sides are ready to record: the window for a packet of the greatest length, and
        a threshold above the average current while the message was sent. */
    ghost predicate Armed()
      reads this, left, right
    {
      && Untouched(left) && Untouched(right)
      && left.endIdx == right.endIdx == EndOfPacket(MAX_MSG_LEN)
      && left.adcThres == Threshold(leftReadings, adcThreshold)
      && right.adcThres == Threshold(rightReadings, adcThreshold)
    }

    constructor (leftChannel: EarbudChannel, rightChannel: EarbudChannel, threshold: nat, timeoutMs: nat)
      requires leftChannel != rightChannel && leftChannel.adcBuf != rightChannel.adcBuf
      requires leftChannel.Valid() && rightChannel.Valid()
      ensures Channels() && txBuf.Length == MAX_MSG_LEN && fresh(txBuf)
      ensures left == leftChannel && right == rightChannel && state == NotActive
      ensures adcThreshold == threshold && replyTimeoutMs == timeoutMs
    {
      left, right, adcThreshold, replyTimeoutMs := leftChannel, rightChannel, threshold, timeoutMs;
      txBuf := new bv8[MAX_MSG_LEN];
      state, vreg, expectReply := NotActive, High, false;
      startIdx, writeIdx, bitIdx, timerIdx, numTxBits := 0, 0, 0, 0, 0;
      msg, trace := [], [];
      leftReadings, rightReadings := [], [];
    }

    /** Starts a transmission of `n` octets; a message that is too long is dropped. */
    method Transmit(buf: seq<bv8>, reply: bool)
      requires Channels() && txBuf.Length == MAX_MSG_LEN
      modifies this, txBuf, left, right
      ensures |buf| > MAX_MSG_LEN ==> unchanged(this) && unchanged(txBuf) && unchanged(left) && unchanged(right)
      ensures |buf| <= MAX_MSG_LEN ==>
        && Valid() && state == StartSequence && msg == buf && trace == []
        && timerIdx == 0 && expectReply == reply && leftReadings == rightReadings == []
    {
      if |buf| > MAX_MSG_LEN {
        return;
      }
      Load(buf, reply);
      ResetBoth();
    }

    method Load(buf: seq<bv8>, reply: bool)
      requires |buf| <= MAX_MSG_LEN == txBuf.Length
      modifies this, txBuf
      ensures OnSchedule() && state == StartSequence && msg == buf && trace == []
      ensures timerIdx == 0 && expectReply == reply && leftReadings == rightReadings == []
    {
      numTxBits := 8 * |buf|;
      forall k | 0 <= k < |buf| { txBuf[k] := buf[k]; }
      expectReply := reply;
      writeIdx, bitIdx, timerIdx, startIdx := 0, 0, 0, 0;
      state := StartSequence;
      msg, trace := buf, [];
      leftReadings, rightReadings := [], [];
      assert txBuf[..|buf|] == buf;
    }

    method ResetBoth()
      requires Channels()
      modifies left, right
      ensures Channels() && Untouched(left) && Untouched(right)
      ensures left.adcCalibrate == right.adcCalibrate == 0
      ensures left.adcCalCnt == right.adcCalCnt == 0
    {
      left.Reset();
      right.Reset();
    }

    /** A tick between two write ticks, or while nothing is going on. */
    method WaitTick()
      requires Valid() && state != Reading
      requires !WriteNext() || state == NotActive
      modifies this`timerIdx
      ensures Valid() && timerIdx == old(timerIdx) + 1
    {
      timerIdx := timerIdx + 1;
    }

    method StartTick()
      requires Valid() && state == StartSequence && WriteNext()
      modifies this`timerIdx, this`startIdx, this`state, this`vreg, this`trace
      ensures Valid() && timerIdx == old(timerIdx) + 1
      ensures trace == old(trace) + [LevelOnTick(msg, |old(trace)|)] && Sending()
    {
      StartLevel();
    }

    /** One write tick of the start sequence. */
    method StartLevel()
      requires OnSchedule() && state == StartSequence && WriteNext()
      modifies this`timerIdx, this`startIdx, this`state, this`vreg, this`trace
      ensures OnSchedule() && timerIdx == old(timerIdx) + 1
      ensures trace == old(trace) + [LevelOnTick(msg, |old(trace)|)]
      ensures state == if |trace| == VCHG_LOW_IDX + 1 then Transmitting else StartSequence
    {
      assert |trace| > 0 ==> vreg == LevelOnTick(msg, |trace| - 1);
      timerIdx := timerIdx + 1;
      if startIdx == VCHG_WAKE_IDX {
        vreg := Wake;
      } else if startIdx == VCHG_OFF_IDX {
        vreg := High;
      } else if startIdx == VCHG_HIGH_IDX {
        vreg := Low;
      } else if startIdx == VCHG_LOW_IDX {
        state := Transmitting;
      }
      startIdx := startIdx + 1;
      trace := trace + [vreg];
    }

    /** The level a sending tick drives: the forced transition or the next data bit. */
    method DriveLevel()
      requires OnSchedule() && state == Transmitting && writeIdx != numTxBits
      modifies this`vreg, this`writeIdx
      ensures bitIdx < GROUP * |msg| && vreg == Drive(LevelAt(false, msg, bitIdx))
      ensures writeIdx == DataCount(bitIdx + 1)
    {
      AllSentExactlyAtEnd(bitIdx, |msg|);
      DataCountStep(bitIdx);
      if bitIdx % GROUP == 0 {
        assert vreg == LevelOnTick(msg, |trace| - 1) == Drive(LevelAt(false, msg, bitIdx - 1));
        vreg := if vreg == High then Low else High;
      } else {
        DataBitOfPeriod(msg, bitIdx);
        vreg := if BitOf(txBuf[writeIdx / 8], writeIdx % 8) then High else Low;
        writeIdx := writeIdx + 1;
      }
    }

    /** One write tick that sends a period of the message. */
    method SendTick()
      requires OnSchedule() && state == Transmitting && WriteNext()
      requires writeIdx != numTxBits
      modifies this`timerIdx, this`bitIdx, this`writeIdx, this`vreg, this`trace
      ensures OnSchedule() && timerIdx == old(timerIdx) + 1 && bitIdx == old(bitIdx) + 1
      ensures trace == old(trace) + [LevelOnTick(msg, |old(trace)|)]
    {
      DriveLevel();
      assert |trace| + 1 < SendTicks(|msg|);
      timerIdx := timerIdx + 1;
      bitIdx := bitIdx + 1;
      trace := trace + [vreg];
    }

    /** Sets both thresholds and opens both recording windows. */
    method ArmBoth()
      requires Channels() && left.adcCalCnt > 0 && right.adcCalCnt > 0 && left.samples == right.samples == []
      modifies left`adcThres, left`endIdx, right`adcThres, right`endIdx
      ensures Channels() && left.endIdx == right.endIdx == EndOfPacket(MAX_MSG_LEN)
      ensures left.adcThres == (left.adcCalibrate / left.adcCalCnt + adcThreshold) % 0x1_0000
      ensures right.adcThres == (right.adcCalibrate / right.adcCalCnt + adcThreshold) % 0x1_0000
    {
      left.Arm(adcThreshold);
      right.Arm(adcThreshold);
    }

    method FinishSending()
      requires OnSchedule() && state == Transmitting && writeIdx == numTxBits
      modifies this`timerIdx, this`writeIdx, this`vreg, this`state, this`trace
      ensures OnSchedule() && timerIdx == old(timerIdx) + 1
      ensures trace == old(trace) + [High] && vreg == High && |trace| == SendTicks(|msg|)
      ensures state == if expectReply then Reading else NotActive
    {
      AllSentExactlyAtEnd(bitIdx, |msg|);
      timerIdx := timerIdx + 1;
      vreg := High;
      writeIdx := writeIdx + 1;
      state := if expectReply then Reading else NotActive;
      trace := trace + [High];
    }

    /** The write tick after the last bit: set both thresholds, drive the line high
        and listen, if a reply is expected. */
    method EndTick()
      requires HasReadings() && state == Transmitting && WriteNext()
      requires writeIdx == numTxBits && left.adcCalCnt > 0 && right.adcCalCnt > 0
      modifies this`timerIdx, this`writeIdx, this`vreg, this`state, this`trace
      modifies left`adcThres, left`endIdx, right`adcThres, right`endIdx
      ensures Valid() && timerIdx == old(timerIdx) + 1
      ensures trace == old(trace) + [High] && vreg == High && |trace| == SendTicks(|msg|)
      ensures state == if expectReply then Reading else NotActive
      ensures Armed()
    {
      ArmBoth();
      FinishSending();
    }

    /** The replies are over, or too late: for each side, nothing more to record or
        no rise of the line in time. */
    predicate Done(rightActive: bool, leftActive: bool)
      reads left, right
    {
      var limit := replyTimeoutMs * OVERSAMPLES % 0x1_0000;
      (right.wait > limit || !rightActive) && (left.wait > limit || !leftActive)
    }

    /** The next sample of one side would be written behind the end of its buffer. */
    ghost predicate Overrun(ch: EarbudChannel, val: int)
      reads ch
    {
      ch.allIdx < ch.endIdx && ch.startReading && Overruns(ch.samples, ch.adcThres, val)
    }

    /** One sample for each recorder, the right one first. */
    method RecordBoth(rightVal: int, leftVal: int) returns (rightActive: bool, leftActive: bool, overrun: bool)
      requires Channels()
      requires 0 <= rightVal < 0x8000 && 0 <= leftVal < 0x8000
      modifies left, right, left.adcBuf, right.adcBuf
      ensures Channels()
      ensures overrun <==> old(Overrun(right, rightVal)) || old(Overrun(left, leftVal))
      ensures !overrun ==>
        && rightActive == old(right.allIdx < right.endIdx) && leftActive == old(left.allIdx < left.endIdx)
      ensures !overrun ==>
        right.View() == Sampled(old(right.View()), rightVal) && left.View() == Sampled(old(left.View()), leftVal)
    {
      leftActive := false;
      rightActive, overrun := right.Process(rightVal);
      if !overrun {
        leftActive, overrun := left.Process(leftVal);
      }
    }

    /** The four ways in which both sides can be over. */
    method RepliesOver(rightActive: bool, leftActive: bool) returns (over: bool)
      ensures over == Done(rightActive, leftActive)
    {
      var timeoutInTicks := replyTimeoutMs * OVERSAMPLES % 0x1_0000;
      over := (!rightActive && !leftActive)
        || (right.wait > timeoutInTicks && left.wait > timeoutInTicks)
        || (right.wait > timeoutInTicks && !leftActive)
        || (!rightActive && left.wait > timeoutInTicks);
    }

    method EndReading()
      requires Channels()
      modifies this`state, left`dataValid, right`dataValid
      ensures Channels() && state == NotActive
      ensures left.View() == Over(old(left.View()), true) && right.View() == Over(old(right.View()), true)
    {
      right.dataValid := right.readIdx > 0;
      left.dataValid := left.readIdx > 0;
      state := NotActive;
    }

    /** One tick of the receiving phase. It goes wrong exactly when an edge does not fit
        into a buffer any more. */
    method ReadTick(rightVal: int, leftVal: int) returns (completed: bool, fault: bool)
      requires Valid() && state == Reading
      requires 0 <= rightVal < 0x8000 && 0 <= leftVal < 0x8000
      modifies this`timerIdx, this`state, left, right, left.adcBuf, right.adcBuf
      ensures fault <==> old(Overrun(right, rightVal)) || old(Overrun(left, leftVal))
      ensures !fault ==>
        && Valid() && timerIdx == old(timerIdx) + 1
        && right.View() == Over(Sampled(old(right.View()), rightVal), completed)
        && left.View() == Over(Sampled(old(left.View()), leftVal), completed)
        && completed == Done(old(right.allIdx < right.endIdx), old(left.allIdx < left.endIdx))
        && state == (if completed then NotActive else Reading)
    {
      timerIdx := timerIdx + 1;
      completed := false;
      var rightActive, leftActive;
      rightActive, leftActive, fault := RecordBoth(rightVal, leftVal);
      if fault {
        return;
      }
      completed := RepliesOver(rightActive, leftActive);
      if completed {
        EndReading();
      }
    }


    /** From the sixth period on both currents are averaged. */
    method CalibrateBoth(rightVal: nat, leftVal: nat)
      requires Channels()
      modifies left`adcCalibrate, left`adcCalCnt, right`adcCalibrate, right`adcCalCnt
      ensures Channels()
      ensures left.adcCalibrate == Summed(bitIdx, old(left.adcCalibrate), leftVal)
      ensures right.adcCalibrate == Summed(bitIdx, old(right.adcCalibrate), rightVal)
      ensures left.adcCalCnt == Counted(bitIdx, old(left.adcCalCnt), leftVal)
      ensures right.adcCalCnt == Counted(bitIdx, old(right.adcCalCnt), rightVal)
    {
      if bitIdx >= 5 {
        left.Calibrate(leftVal);
        right.Calibrate(rightVal);
      }
    }

    ghost method LogReadings(rightVal: nat, leftVal: nat)
      requires OnSchedule() && Small(leftReadings) && Small(rightReadings)
      requires |leftReadings| < 150 && |rightReadings| < 150 && rightVal < 0x8000 && leftVal < 0x8000
      modifies this`leftReadings, this`rightReadings
      ensures OnSchedule()
      ensures leftReadings == Taken(bitIdx, old(leftReadings), leftVal)
      ensures rightReadings == Taken(bitIdx, old(rightReadings), rightVal)
      ensures Currents(leftReadings) == Counted(bitIdx, Currents(old(leftReadings)), leftVal)
      ensures Currents(rightReadings) == Counted(bitIdx, Currents(old(rightReadings)), rightVal)
      ensures Total(leftReadings) == Summed(bitIdx, Total(old(leftReadings)), leftVal)
      ensures Total(rightReadings) == Summed(bitIdx, Total(old(rightReadings)), rightVal)
      ensures Small(leftReadings) && Small(rightReadings)
    {
      LogOne(leftReadings, leftVal);
      LogOne(rightReadings, rightVal);
      leftReadings, rightReadings := Taken(bitIdx, leftReadings, leftVal), Taken(bitIdx, rightReadings, rightVal);
    }

    lemma LogOne(readings: seq<nat>, val: nat)
      requires Small(readings) && |readings| < 150 && val < 0x8000
      ensures var t := Taken(bitIdx, readings, val);
        && Small(t) && Currents(t) == Counted(bitIdx, Currents(readings), val)
        && Total(t) == Summed(bitIdx, Total(readings), val)
    {
      SmallTaken(bitIdx, readings, val);
      CountedTaken(bitIdx, readings, val);
      SummedTaken(bitIdx, readings, val);
    }

    /** The averages with the write tick at hand. */
    method TakeReadings(rightVal: nat, leftVal: nat)
      requires Valid() && state == Transmitting && rightVal < 0x8000 && leftVal < 0x8000
      modifies this`leftReadings, this`rightReadings
      modifies left`adcCalibrate, left`adcCalCnt, right`adcCalibrate, right`adcCalCnt
      ensures HasReadings()
      ensures leftReadings == Taken(bitIdx, old(leftReadings), leftVal)
      ensures rightReadings == Taken(bitIdx, old(rightReadings), rightVal)
    {
      LogReadings(rightVal, leftVal);
      CalibrateBoth(rightVal, leftVal);
    }

    /** The write tick at hand has taken its readings. */
    ghost predicate HasReadings()
      reads this, txBuf, left, right, left.adcBuf, right.adcBuf
    {
      && Channels() && OnSchedule() && Untouched(left) && Untouched(right) && Averages()
      && |leftReadings| == |rightReadings| == (if bitIdx < 5 then 0 else bitIdx - 4)
    }

    method FinishTick() returns (completed: bool, fault: bool)
      requires HasReadings() && state == Transmitting && WriteNext() && writeIdx == numTxBits
      modifies this`timerIdx, this`writeIdx, this`vreg, this`state, this`trace
      modifies left`adcThres, left`endIdx, right`adcThres, right`endIdx
      ensures fault <==> Currents(leftReadings) == 0 || Currents(rightReadings) == 0
      ensures !fault ==>
        && Valid() && timerIdx == old(timerIdx) + 1
        && trace == old(trace) + [High] && |trace| == SendTicks(|msg|)
        && state == (if expectReply then Reading else NotActive) && (completed <==> state == NotActive)
        && Armed()
    {
      completed := false;
      fault := left.adcCalCnt == 0 || right.adcCalCnt == 0;
      if !fault {
        EndTick();
        completed := !expectReply;
      }
    }

    method SendOn()
      requires HasReadings() && state == Transmitting && WriteNext() && writeIdx != numTxBits
      modifies this`timerIdx, this`bitIdx, this`writeIdx, this`vreg, this`trace
      ensures Valid() && timerIdx == old(timerIdx) + 1
      ensures trace == old(trace) + [LevelOnTick(msg, |old(trace)|)] && |trace| < SendTicks(|msg|)
    {
      SendTick();
    }

    /** A write tick of the transmitting state. The last one divides by the number of
        readings of each side that are not zero. */
    method TransmitTick(rightVal: nat, leftVal: nat) returns (completed: bool, fault: bool)
      requires Valid() && state == Transmitting && WriteNext()
      requires rightVal < 0x8000 && leftVal < 0x8000
      modifies this`timerIdx, this`bitIdx, this`writeIdx, this`vreg, this`state, this`trace
      modifies this`leftReadings, this`rightReadings, left, right
      ensures fault <==> old(DividesNow(rightVal, leftVal))
      ensures !fault ==>
        && Valid() && timerIdx == old(timerIdx) + 1
        && trace == old(trace) + [LevelOnTick(msg, |old(trace)|)]
        && leftReadings == Taken(old(bitIdx), old(leftReadings), leftVal)
        && rightReadings == Taken(old(bitIdx), old(rightReadings), rightVal)
        && (if |trace| < SendTicks(|msg|) then state == Transmitting
            else Armed() && state == if expectReply then Reading else NotActive)
        && (completed <==> state == NotActive)
    {
      TakeReadings(rightVal, leftVal);
      completed, fault := false, false;
      if writeIdx == numTxBits {
        completed, fault := FinishTick();
      } else {
        SendOn();
      }
    }

    /** This write tick divides by zero: it ends the transmission, and on one side no
        reading, this one included, is anything but zero. */
    ghost predicate DividesNow(rightVal: nat, leftVal: nat)
      reads this
    {
      && writeIdx == numTxBits
      && (|| Currents(Taken(bitIdx, leftReadings, leftVal)) == 0
          || Currents(Taken(bitIdx, rightReadings, rightVal)) == 0)
    }

    /** The next tick is a write tick of the transmitting state. */
    predicate Writes()
      reads this
    {
      state == Transmitting && WriteNext()
    }

    /** The next tick writes behind the end of a buffer. */
    ghost predicate Overflows(rightVal: nat, leftVal: nat)
      reads this, left, right
    {
      state == Reading && (Overrun(right, rightVal) || Overrun(left, leftVal))
    }

    lemma SendingExactly()
      requires OnSchedule()
      ensures Sending() <==> |trace| < SendTicks(|msg|)
    {
    }

    /** A write tick. */
    method WriteTick(rightVal: nat, leftVal: nat) returns (completed: bool, fault: bool)
      requires Valid() && Sending() && WriteNext() && rightVal < 0x8000 && leftVal < 0x8000
      modifies this`timerIdx, this`startIdx, this`bitIdx, this`writeIdx, this`vreg, this`state, this`trace
      modifies this`leftReadings, this`rightReadings, left, right
      ensures fault <==> old(state == Transmitting && DividesNow(rightVal, leftVal))
      ensures !fault ==>
        && Valid() && timerIdx == old(timerIdx) + 1
        && trace == old(trace) + [LevelOnTick(msg, |old(trace)|)]
        && (Sending() || (Armed() && state == if expectReply then Reading else NotActive))
        && (completed <==> state == NotActive)
      ensures !fault && old(state == Transmitting) ==>
        && leftReadings == Taken(old(bitIdx), old(leftReadings), leftVal)
        && rightReadings == Taken(old(bitIdx), old(rightReadings), rightVal)
      ensures !fault && old(state != Transmitting) ==>
        leftReadings == old(leftReadings) && rightReadings == old(rightReadings)
    {
      completed, fault := false, false;
      if state == StartSequence {
        StartTick();
      } else {
        completed, fault := TransmitTick(rightVal, leftVal);
      }
    }

    /** A tick while sending. */
    method SendPhase(rightVal: nat, leftVal: nat) returns (completed: bool, fault: bool)
      requires Valid() && Sending() && rightVal < 0x8000 && leftVal < 0x8000
      modifies this`timerIdx, this`startIdx, this`bitIdx, this`writeIdx, this`vreg, this`state, this`trace
      modifies this`leftReadings, this`rightReadings, left, right
      ensures fault <==> old(Writes() && DividesNow(rightVal, leftVal))
      ensures !fault ==> Valid() && timerIdx == old(timerIdx) + 1
      ensures !fault ==> trace == if old(WriteNext())
        then old(trace) + [LevelOnTick(msg, |old(trace)|)] else old(trace)
      ensures !fault ==>
        (leftReadings == if old(Writes()) then Taken(old(bitIdx), old(leftReadings), leftVal) else old(leftReadings))
      ensures !fault ==>
        (rightReadings ==
           if old(Writes()) then Taken(old(bitIdx), old(rightReadings), rightVal) else old(rightReadings))
      ensures !fault && !Sending() ==>
        Armed() && state == if expectReply then Reading else NotActive
      ensures !fault ==> (completed <==> state == NotActive)
    {
      completed, fault := false, false;
      if !WriteNext() {
        WaitTick();
      } else {
        completed, fault := WriteTick(rightVal, leftVal);
      }
    }

    /** The timer interrupt: ten ticks to a write tick while sending, one sample on
        every tick while receiving. It goes wrong exactly where the source divides by zero
        or writes behind the end of a buffer. */
    method Tick(rightVal: nat, leftVal: nat) returns (completed: bool, fault: bool)
      requires Valid() && rightVal < 0x8000 && leftVal < 0x8000
      modifies this, left, right, left.adcBuf, right.adcBuf
      ensures fault <==> old((Writes() && DividesNow(rightVal, leftVal)) || Overflows(rightVal, leftVal))
      ensures !fault ==>
        && Valid() && timerIdx == old(timerIdx) + 1 && msg == old(msg) && expectReply == old(expectReply)
      ensures !fault ==> trace == if old(Sending() && WriteNext())
        then old(trace) + [LevelOnTick(msg, |old(trace)|)] else old(trace)
      ensures !fault ==>
        (leftReadings == if old(Writes()) then Taken(old(bitIdx), old(leftReadings), leftVal) else old(leftReadings))
      ensures !fault ==>
        (rightReadings ==
           if old(Writes()) then Taken(old(bitIdx), old(rightReadings), rightVal) else old(rightReadings))
      ensures !fault && old(Sending()) ==> (Sending() <==> |trace| < SendTicks(|msg|))
      ensures !fault && old(Sending()) && !Sending() ==>
        Armed() && state == if expectReply then Reading else NotActive
      ensures !fault && old(state) == NotActive ==> state == NotActive
      ensures !fault && old(state) == NotActive ==> left.View() == old(left.View()) && right.View() == old(right.View())
      ensures !fault && old(state) == Reading ==>
        && right.View() == Over(Sampled(old(right.View()), rightVal), completed)
        && left.View() == Over(Sampled(old(left.View()), leftVal), completed)
        && completed == Done(old(right.allIdx < right.endIdx), old(left.allIdx < left.endIdx))
        && state == if completed then NotActive else Reading
      ensures !fault ==> (completed <==> old(state) != NotActive && state == NotActive)
    {
      if state == Reading {
        completed, fault := ReadTick(rightVal, leftVal);
      } else if state == NotActive {
        WaitTick();
        completed, fault := false, false;
      } else {
        completed, fault := SendPhase(rightVal, leftVal);
        if !fault { SendingExactly(); }
      }
    }
  }

  /** Ticks of a transmission are counted from its start. On these the currents are taken
      for the thresholds: the write ticks from the sixth period on. */
  predicate TakesReading(tick: nat) {
    (tick + 1) % OVERSAMPLES == 0 && tick / OVERSAMPLES >= 25
  }

  /** One side has drawn no current on any of these ticks on which it is looked at. */
  predicate NoCurrent(vals: seq<nat>) {
    forall i :: 0 <= i < |vals| && TakesReading(i) ==> vals[i] == 0
  }

  /** The sum of the currents of one side on these ticks, and how many are not zero. */
  function CurrentSum(vals: seq<nat>): nat {
    if vals == [] then 0
    else
      var tick := |vals| - 1;
      CurrentSum(vals[..tick]) + (if TakesReading(tick) then vals[tick] else 0)
  }

  function CurrentCount(vals: seq<nat>): nat {
    if vals == [] then 0
    else
      var tick := |vals| - 1;
      CurrentCount(vals[..tick]) + (if TakesReading(tick) && vals[tick] > 0 then 1 else 0)
  }

  /** The threshold that a transmission with these currents leaves: their average where they
      are not zero, and an offset. */
  function ThresholdAfter(vals: seq<nat>, offset: nat): nat
    requires CurrentCount(vals) > 0
  {
    (CurrentSum(vals) / CurrentCount(vals) + offset) % 0x1_0000
  }

  lemma {:induction false} CurrentsOfReadings(vals: seq<nat>)
    ensures Currents(Readings(vals)) == CurrentCount(vals) && Total(Readings(vals)) == CurrentSum(vals)
    ensures CurrentCount(vals) == 0 <==> NoCurrent(vals)
  {
    if vals == [] {
      assert Readings(vals) == [];
    } else {
      var tick := |vals| - 1;
      CurrentsOfReadings(vals[..tick]);
      CurrentsAppend(Readings(vals[..tick]), vals[tick]);
      TotalAppend(Readings(vals[..tick]), vals[tick]);
      NoCurrentNext(vals);
    }
  }

  ghost function Readings(vals: seq<nat>): seq<nat> {
    if vals == [] then []
    else
      var tick := |vals| - 1;
      if TakesReading(tick) then Readings(vals[..tick]) + [vals[tick]] else Readings(vals[..tick])
  }

  lemma ReadingsNext(vals: seq<nat>, t: nat)
    requires t < |vals|
    ensures Readings(vals[..t + 1]) ==
      if TakesReading(t) then Readings(vals[..t]) + [vals[t]] else Readings(vals[..t])
  {
    assert vals[..t + 1][..t] == vals[..t];
  }

  lemma NoCurrentNext(vals: seq<nat>)
    requires vals != []
    ensures NoCurrent(vals) <==>
      NoCurrent(vals[..|vals| - 1]) && (TakesReading(|vals| - 1) ==> vals[|vals| - 1] == 0)
  {
    if NoCurrent(vals[..|vals| - 1]) {
      assert forall i :: 0 <= i < |vals| - 1 ==> vals[i] == vals[..|vals| - 1][i];
    }
  }

  /** The sending part of the waveform is the framing of the message from low. */
  lemma SentIsFramed(msg: seq<bv8>, p: nat)
    requires p < GROUP * |msg|
    ensures LevelOnTick(msg, VCHG_LOW_IDX + 1 + p) == Drive(Framed(false, msg)[p])
    ensures p % GROUP == 0 ==>
      LevelOnTick(msg, VCHG_LOW_IDX + 1 + p) != LevelOnTick(msg, VCHG_LOW_IDX + p)
    ensures LevelOnTick(msg, SendTicks(|msg|) - 1) == High
  {
  }

  lemma NextForced(p: nat) returns (q: nat)
    ensures p <= q < p + GROUP && q % GROUP == 0
  {
    q := (p + GROUP - 1) / GROUP * GROUP;
  }

  /** No level is held for more than nine periods: from any period of the message,
      counting the one before it, the next forced transition is at most nine away. */
  lemma NoLongHold(msg: seq<bv8>, p: nat)
    requires p + GROUP <= GROUP * |msg|
    ensures exists k: nat ::
      VCHG_LOW_IDX + p < k <= VCHG_LOW_IDX + p + GROUP && LevelOnTick(msg, k) != LevelOnTick(msg, k - 1)
  {
    var q := NextForced(p);
    SentIsFramed(msg, q);
    var k := VCHG_LOW_IDX + 1 + q;
    assert LevelOnTick(msg, k) != LevelOnTick(msg, k - 1);
  }

  /** What was sent determines the message: dropping the forced transitions from the
      levels of the sending phase gives its bits back. */
  lemma SentBits(msg: seq<bv8>)
    ensures DataBits(Framed(false, msg), GROUP * |msg|) == MessageBits(msg)
  {
    DataBitsOfFramed(false, msg, [], GROUP * |msg|);
    assert Framed(false, msg) + [] == Framed(false, msg);
    assert DataCount(GROUP * |msg|) == 8 * |msg|;
  }

  /** The link is t ticks into a transmission in which these currents were measured. */
  ghost predicate Through(link: ChargerLink, buf: seq<bv8>, t: nat, rights: seq<nat>, lefts: seq<nat>)
    requires t <= |rights| == |lefts|
    reads link, link.txBuf, link.left, link.right, link.left.adcBuf, link.right.adcBuf
  {
    && link.Valid() && link.msg == buf && link.timerIdx == t
    && link.leftReadings == Readings(lefts[..t]) && link.rightReadings == Readings(rights[..t])
  }

  /** A tick takes its reading if it is a write tick from the sixth period on. */
  lemma ReadsHere(link: ChargerLink, t: nat)
    requires link.OnSchedule() && link.Sending() && link.timerIdx == t
    ensures TakesReading(t) <==> link.Writes() && link.bitIdx >= 5
  {
    PeriodOfTick(t, |link.trace|);
  }

  lemma PeriodOfTick(t: nat, writes: nat)
    requires writes == t / OVERSAMPLES
    ensures TakesReading(t) <==> (t + 1) % OVERSAMPLES == 0 && writes >= 25
  {
  }

  /** The readings a tick takes, and the tick that ends the transmission. */
  lemma TickTakes(link: ChargerLink, vals: seq<nat>, readings: seq<nat>, t: nat)
    requires link.OnSchedule() && link.Sending() && link.timerIdx == t < |vals|
    requires readings == Readings(vals[..t])
    ensures Readings(vals[..t + 1]) == if link.Writes() then Taken(link.bitIdx, readings, vals[t]) else readings
  {
    ReadsHere(link, t);
    ReadingsNext(vals, t);
  }

  lemma LastTick(link: ChargerLink)
    requires link.OnSchedule() && link.Sending()
    ensures link.timerIdx < MessageTicks(|link.msg|)
    ensures link.timerIdx + 1 == MessageTicks(|link.msg|) <==>
      link.Writes() && link.writeIdx == link.numTxBits
  {
    if link.state == Transmitting {
      AllSentExactlyAtEnd(link.bitIdx, |link.msg|);
    }
  }

  /** The write ticks among the first t + 1 ticks. */
  predicate Grown(before: nat, after: nat, t: nat) {
    before == t / OVERSAMPLES && after == before + (if (t + 1) % OVERSAMPLES == 0 then 1 else 0)
  }

  lemma TraceGrows(before: nat, after: nat, t: nat, n: nat)
    requires Grown(before, after, t) && t < MessageTicks(n)
    ensures after < SendTicks(n) <==> t + 1 < MessageTicks(n)
  {
  }

  lemma AllReadings(vals: seq<nat>)
    requires vals != []
    ensures vals[..|vals|] == vals
    ensures Currents(Readings(vals)) == 0 <==> NoCurrent(vals)
  {
    assert vals[..|vals|] == vals;
    CurrentsOfReadings(vals);
  }

  lemma ThresholdOfReadings(vals: seq<nat>, offset: nat)
    requires !NoCurrent(vals)
    ensures CurrentCount(vals) > 0 && Threshold(Readings(vals), offset) == ThresholdAfter(vals, offset)
  {
    CurrentsOfReadings(vals);
  }

  /** On the last tick there is nothing to divide by on a side without currents. */
  lemma SideHere(link: ChargerLink, vals: seq<nat>, readings: seq<nat>, t: nat)
    requires link.OnSchedule() && link.Writes() && link.timerIdx == t && t + 1 == |vals|
    requires readings == Readings(vals[..t])
    ensures Currents(Taken(link.bitIdx, readings, vals[t])) == 0 <==> NoCurrent(vals)
  {
    TickTakes(link, vals, readings, t);
    AllReadings(vals);
  }

  lemma LastHere(link: ChargerLink, n: nat, t: nat)
    requires link.OnSchedule() && link.Sending() && link.timerIdx == t && n == MessageTicks(|link.msg|)
    ensures t < n && (t + 1 == n <==> link.Writes() && link.writeIdx == link.numTxBits)
  {
    LastTick(link);
  }

  /** The division goes wrong on the last tick, if on one side there is nothing to divide by,
      and on no other. */
  lemma EndsHere(link: ChargerLink, n: nat, t: nat, rights: seq<nat>, lefts: seq<nat>)
    requires t < |rights| == |lefts| == n == MessageTicks(|link.msg|)
    requires link.OnSchedule() && link.Sending() && link.timerIdx == t
    requires link.leftReadings == Readings(lefts[..t]) && link.rightReadings == Readings(rights[..t])
    ensures link.Writes() && link.DividesNow(rights[t], lefts[t]) <==>
      t + 1 == n && (NoCurrent(rights) || NoCurrent(lefts))
  {
    LastHere(link, n, t);
    if t + 1 == n {
      SideHere(link, lefts, link.leftReadings, t);
      SideHere(link, rights, link.rightReadings, t);
    }
  }

  /** One tick of a transmission. */
  method SendingTick(link: ChargerLink, buf: seq<bv8>, t: nat, rights: seq<nat>, lefts: seq<nat>)
    returns (fault: bool)
    requires t < |rights| == |lefts| == MessageTicks(|buf|)
    requires rights[t] < 0x8000 && lefts[t] < 0x8000
    requires link.Sending() && Through(link, buf, t, rights, lefts)
    modifies link, link.left, link.right, link.left.adcBuf, link.right.adcBuf
    ensures fault <==> t + 1 == |lefts| && (NoCurrent(rights) || NoCurrent(lefts))
    ensures !fault ==> Through(link, buf, t + 1, rights, lefts) && link.expectReply == old(link.expectReply)
    ensures !fault ==> (link.Sending() <==> t + 1 < |lefts|)
    ensures !fault && !link.Sending() ==> link.Armed() && link.state == if link.expectReply then Reading else NotActive
  {
    EndsHere(link, |lefts|, t, rights, lefts);
    ghost var before := |link.trace|;
    fault := TickOn(link, t, rights, lefts);
    if !fault { TraceGrows(before, |link.trace|, t, |buf|); }
  }

  method TickOn(link: ChargerLink, t: nat, rights: seq<nat>, lefts: seq<nat>) returns (fault: bool)
    requires t < |rights| == |lefts| == MessageTicks(|link.msg|)
    requires rights[t] < 0x8000 && lefts[t] < 0x8000
    requires link.Sending() && Through(link, link.msg, t, rights, lefts)
    modifies link, link.left, link.right, link.left.adcBuf, link.right.adcBuf
    ensures fault <==> old(link.Writes() && link.DividesNow(rights[t], lefts[t]))
    ensures !fault ==> Through(link, old(link.msg), t + 1, rights, lefts) && link.expectReply == old(link.expectReply)
    ensures !fault ==> Grown(old(|link.trace|), |link.trace|, t)
    ensures !fault ==> (link.Sending() <==> |link.trace| < SendTicks(|link.msg|))
    ensures !fault && !link.Sending() ==> link.Armed() && link.state == if link.expectReply then Reading else NotActive
  {
    TickTakes(link, lefts, link.leftReadings, t);
    TickTakes(link, rights, link.rightReadings, t);
    var completed;
    completed, fault := link.Tick(rights[t], lefts[t]);
  }

  /** A whole transmission, from idle or from anything else: all levels are driven, and
      the last tick divides by zero exactly when one side has drawn no current on any of
      the write ticks from the sixth period on. */
  method SendMessage(link: ChargerLink, buf: seq<bv8>, reply: bool, rights: seq<nat>, lefts: seq<nat>)
    returns (fault: bool)
    requires link.Channels() && |buf| <= MAX_MSG_LEN == link.txBuf.Length
    requires |rights| == |lefts| == MessageTicks(|buf|)
    requires forall i :: 0 <= i < |lefts| ==> rights[i] < 0x8000 && lefts[i] < 0x8000
    modifies link, link.txBuf, link.left, link.right, link.left.adcBuf, link.right.adcBuf
    ensures fault <==> NoCurrent(rights) || NoCurrent(lefts)
    ensures !fault ==>
      && link.Valid() && |link.trace| == SendTicks(|buf|)
      && (forall k :: 0 <= k < SendTicks(|buf|) ==> link.trace[k] == LevelOnTick(buf, k))
      && link.state == (if reply then Reading else NotActive)
      && link.Armed() && link.left.endIdx == link.right.endIdx == 1590
      && CurrentCount(lefts) > 0 && link.left.adcThres == ThresholdAfter(lefts, link.adcThreshold)
      && CurrentCount(rights) > 0 && link.right.adcThres == ThresholdAfter(rights, link.adcThreshold)
  {
    link.Transmit(buf, reply);
    var t := 0;
    fault := false;
    while t < |lefts|
      invariant t <= |lefts|
      invariant fault <==> t == |lefts| && (NoCurrent(rights) || NoCurrent(lefts))
      invariant !fault ==> Through(link, buf, t, rights, lefts) && link.expectReply == reply
      invariant !fault ==> (link.Sending() <==> t < |lefts|)
      invariant !fault && !link.Sending() ==> link.Armed() && link.state == if reply then Reading else NotActive
    {
      fault := SendingTick(link, buf, t, rights, lefts);
      t := t + 1;
    }
    if !fault {
      assert lefts[..t] == lefts && rights[..t] == rights;
      ThresholdOfReadings(lefts, link.adcThreshold);
      ThresholdOfReadings(rights, link.adcThreshold);
    }
  }

  /** No write tick of an empty message comes after its fifth period. */
  lemma EmptyHasNoReadings(vals: seq<nat>)
    requires |vals| == MessageTicks(0)
    ensures NoCurrent(vals)
  {
  }

  /** So an empty message, which the length check admits, always ends in the division,
      whatever both sides draw. */
  method SendNothing(link: ChargerLink, reply: bool, rights: seq<nat>, lefts: seq<nat>) returns (fault: bool)
    requires link.Channels() && link.txBuf.Length == MAX_MSG_LEN
    requires |rights| == |lefts| == MessageTicks(0)
    requires forall i :: 0 <= i < |lefts| ==> rights[i] < 0x8000 && lefts[i] < 0x8000
    modifies link, link.txBuf, link.left, link.right, link.left.adcBuf, link.right.adcBuf
    ensures fault
  {
    EmptyHasNoReadings(lefts);
    fault := SendMessage(link, [], reply, rights, lefts);
  }
}

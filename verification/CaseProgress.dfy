/** That the charger case gets on with its work: a status is started when it is called
    for, the battery reading finishes, and each sequence is over after as many helpful
    turns as it has stages, one more for each setback. */
module CaseProgress {
  import opened Ccp
  import opened CaseStatus
  import opened CaseSequences

  /** A status is called for: by command, or by the lid that has been opened. */
  predicate CallsForStatus(s: System, i: Input) {
    i.StatusCommand? || (i.CasePeriodic? && s.event && i.lid && !s.lidBefore)
  }

  /** With an indication of the battery level? The lid always asks for one. */
  predicate CallsForLed(s: System, i: Input) {
    CallsForStatus(s, i) && (i.StatusCommand? ==> i.led)
  }

  /** What a call makes of the battery: a reading in progress goes on, otherwise a new one
      of 233 ticks begins. */
  predicate Begins(b: Battery, led: bool, c: Battery) {
    && TicksLeft(c) == (if TicksLeft(b) > 0 then TicksLeft(b) else 233)
    && c == b.(state := c.state, led := c.led)
    && (TicksLeft(b) > 0 ==> c.state == b.state)
    && c.led == (led || (TicksLeft(b) > 0 && b.led))
  }

  /** One earbud after the other: the left one if it is idle, otherwise the right one. */
  predicate BeginsWith(x: Each<Earbud>, y: Each<Earbud>) {
    && y.left.state == (if x.left.state == Idle then StatusWanted else x.left.state)
    && y.right.state ==
         (if x.left.state != Idle && x.right.state == Idle then StatusWanted else x.right.state)
  }

  predicate SameWork(s: System, r: System) {
    r.battery == s.battery && r.ears.left.state == s.ears.left.state && r.ears.right.state == s.ears.right.state
  }

  lemma ReadingBegins(b: Battery, led: bool)
    ensures Begins(b, led, ReadAgain(b, led))
  {
  }

  lemma StartedBegins(s: System)
    ensures BeginsWith(s.ears, Started(s).ears) && Started(s).battery == s.battery
  {
  }

  lemma StatusTimeBegins(s: System, led: bool)
    ensures var r := StatusTime(s, led);
      if s.dfuPlanned then r == s else Begins(s.battery, led, r.battery) && BeginsWith(s.ears, r.ears)
  {
    ReadingBegins(s.battery, led);
    StartedBegins(s.(battery := ReadAgain(s.battery, led)));
  }

  lemma AnnounceLeaves(s: System, w: Wire)
    ensures SameWork(s, Announce(s, w))
  {
    BroadcastAlike(s, Left, w);
    BroadcastAlike(s, Right, w);
  }

  /** Exactly a call for a status, while no update is planned, begins one; any other event
      leaves the battery and the sequences as they are. */
  lemma StatusBegins(s: System, i: Input)
    requires i.StatusCommand? || (i.CasePeriodic? && s.event)
    ensures var r := Step(s, i);
      if CallsForStatus(s, i) && !s.dfuPlanned
      then Begins(s.battery, CallsForLed(s, i), r.battery) && BeginsWith(s.ears, r.ears)
      else SameWork(s, r)
  {
    if i.StatusCommand? {
      StatusTimeBegins(s, i.led);
    } else {
      EventBegins(Aged(s), i.lid, i.charger, i.again, i.w);
    }
  }

  lemma EventBegins(s: System, lid: bool, charger: bool, again: bool, w: Wire)
    ensures var r := EventTick(s, lid, charger, again, w);
      if lid && !s.lidBefore && !s.dfuPlanned then Begins(s.battery, true, r.battery) && BeginsWith(s.ears, r.ears)
      else SameWork(s, r)
  {
    var t := s.(event := again, lidNow := lid, chgNow := charger);
    StatusTimeBegins(t, true);
    AnnounceLeaves(if lid && lid != s.lidBefore then StatusTime(t, true) else t, w);
  }

  /** What is known outside about the lid and the charger follows a change of them once
      the wire has taken it; until then each event announces it again, and nothing is
      broadcast, hence nothing aborted, without a change. */
  lemma ChangeIsAnnounced(s: System, i: Input)
    requires i.CasePeriodic? && s.event
    ensures var r := Step(s, i);
      && r.event == i.again && r.lidNow == i.lid && r.chgNow == i.charger
      && (if i.w.accept then r.lidBefore == i.lid && r.chgBefore == i.charger
          else r.lidBefore == s.lidBefore && r.chgBefore == s.chgBefore)
      && (!i.w.accept || (i.lid == s.lidBefore && i.charger == s.chgBefore) ==> r.tx == s.tx)
  {
    var t := Aged(s).(event := i.again, lidNow := i.lid, chgNow := i.charger);
    var u := if i.lid && i.lid != s.lidBefore then StatusTime(t, true) else t;
    assert u.tx == s.tx && u.lidNow == i.lid && u.chgNow == i.charger && u.event == i.again;
    assert u.lidBefore == s.lidBefore && u.chgBefore == s.chgBefore;
    BroadcastFlags(u, i.w);
  }

  predicate SameFlags(s: System, r: System) {
    && r.event == s.event && r.lidNow == s.lidNow && r.chgNow == s.chgNow
    && r.lidBefore == s.lidBefore && r.chgBefore == s.chgBefore
  }

  lemma AbortFlags(s: System, e: EarbudId)
    ensures SameFlags(s, AbortEarbud(s, e))
  {
  }

  lemma BroadcastFlags(s: System, w: Wire)
    ensures SameFlags(s, Broadcast(s, w))
  {
    AbortFlags(s, Left);
    AbortFlags(s, Right);
    AbortFlags(AbortEarbud(s, Left), Right);
  }

  /** A new reading is started: the last one is over. */
  predicate Restarts(s: System, i: Input) {
    CallsForStatus(s, i) && !s.dfuPlanned && TicksLeft(s.battery) == 0
  }

  lemma TurnBattery(s: System, i: Input)
    requires TakesTurns(s, i)
    ensures Step(s, i).battery == BatteryTick(s.battery, i.percent)
  {
    var b := Aged(s).(battery := BatteryTick(s.battery, i.percent));
    OtherTurn(b, Left, i.w);
    OtherTurn(PeriodicEarbud(b, Left, i.w), Right, i.w2);
  }

  lemma OtherBattery(s: System, i: Input)
    requires !TakesTurns(s, i) && !CallsForStatus(s, i)
    ensures Step(s, i).battery == s.battery
  {
    if i.CasePeriodic? { StatusBegins(s, i); }
  }

  /** The percentages at the calls that take turns. */
  function Percents(s: System, ins: seq<Input>): seq<nat> {
    if ins == [] then []
    else
      var m, i := CaseStatus.Run(s, ins[..|ins| - 1]), ins[|ins| - 1];
      Percents(s, ins[..|ins| - 1]) + (if TakesTurns(m, i) then [i.percent] else [])
  }

  predicate Unrestarted(s: System, ins: seq<Input>) {
    ins == [] ||
    (Unrestarted(s, ins[..|ins| - 1]) && !Restarts(CaseStatus.Run(s, ins[..|ins| - 1]), ins[|ins| - 1]))
  }

  /** An indication of the level has been called for in the run. */
  predicate LedCalled(s: System, ins: seq<Input>) {
    ins != [] &&
    var m, i := CaseStatus.Run(s, ins[..|ins| - 1]), ins[|ins| - 1];
    (CallsForLed(m, i) && !m.dfuPlanned) || LedCalled(s, ins[..|ins| - 1])
  }

  function Unlit(b: Battery): Battery {
    b.(led := false)
  }

  lemma TickUnlit(b: Battery, percents: seq<nat>, percent: nat)
    ensures Unlit(BatteryTick(b, percent)) == BatteryTick(Unlit(b), percent) && BatteryTick(b, percent).led == b.led
    ensures BatteryTicks(b, percents + [percent]) == BatteryTick(BatteryTicks(b, percents), percent)
  {
    assert (percents + [percent])[..|percents|] == percents;
  }

  lemma BatteryStep(s: System, i: Input)
    requires !Restarts(s, i)
    ensures Unlit(Step(s, i).battery) ==
      if TakesTurns(s, i) then BatteryTick(Unlit(s.battery), i.percent) else Unlit(s.battery)
    ensures Step(s, i).battery.led <==> s.battery.led || (CallsForLed(s, i) && !s.dfuPlanned)
  {
    if TakesTurns(s, i) {
      TurnBattery(s, i);
      TickUnlit(s.battery, [], i.percent);
    } else if CallsForStatus(s, i) {
      StatusBegins(s, i);
    } else {
      OtherBattery(s, i);
    }
  }

  lemma ReadingStep(s: System, i: Input, b: Battery, percents: seq<nat>)
    requires !Restarts(s, i) && Unlit(s.battery) == BatteryTicks(b, percents)
    ensures Unlit(Step(s, i).battery) == BatteryTicks(b, percents + (if TakesTurns(s, i) then [i.percent] else []))
  {
    BatteryStep(s, i);
    if TakesTurns(s, i) {
      TickUnlit(b, percents, i.percent);
    } else {
      assert percents + [] == percents;
    }
  }

  /** Until it is started again, a reading sees exactly the calls that take turns. */
  lemma {:induction false} ReadingRuns(s: System, ins: seq<Input>)
    requires Unrestarted(s, ins)
    ensures Unlit(CaseStatus.Run(s, ins).battery) == BatteryTicks(Unlit(s.battery), Percents(s, ins))
  {
    if ins != [] {
      ReadingRuns(s, ins[..|ins| - 1]);
      ReadingStep(CaseStatus.Run(s, ins[..|ins| - 1]), ins[|ins| - 1], Unlit(s.battery), Percents(s, ins[..|ins| - 1]));
    }
  }

  lemma {:induction false} LedRuns(s: System, ins: seq<Input>)
    requires Unrestarted(s, ins)
    ensures CaseStatus.Run(s, ins).battery.led <==> s.battery.led || LedCalled(s, ins)
  {
    if ins != [] {
      LedRuns(s, ins[..|ins| - 1]);
      BatteryStep(CaseStatus.Run(s, ins[..|ins| - 1]), ins[|ins| - 1]);
    }
  }

  lemma {:induction false} ReadingIsLeft(s: System, ins: seq<Input>)
    requires TicksLeft(s.battery) > 0 && |Percents(s, ins)| < TicksLeft(s.battery)
    ensures Unrestarted(s, ins)
    ensures TicksLeft(CaseStatus.Run(s, ins).battery) == TicksLeft(s.battery) - |Percents(s, ins)|
  {
    if ins != [] { ReadingIsLeft(s, ins[..|ins| - 1]); }
    ReadingRuns(s, ins);
    ReadingTakes(Unlit(s.battery), Percents(s, ins));
  }

  lemma TicksAreDone(b: Battery, c: Battery, percents: seq<nat>)
    requires TicksLeft(b) > 0 && |percents| >= TicksLeft(b) && Unlit(c) == BatteryTicks(Unlit(b), percents)
    ensures c.state == Done && c.percent == percents[TicksLeft(b) - 1]
  {
    ReadingTakes(Unlit(b), percents);
  }

  lemma ReadingIsDone(s: System, ins: seq<Input>)
    requires TicksLeft(s.battery) > 0 && Unrestarted(s, ins) && |Percents(s, ins)| >= TicksLeft(s.battery)
    ensures var b := CaseStatus.Run(s, ins).battery;
      b.state == Done && b.percent == Percents(s, ins)[TicksLeft(s.battery) - 1]
  {
    ReadingRuns(s, ins);
    TicksAreDone(s.battery, CaseStatus.Run(s, ins).battery, Percents(s, ins));
  }

  /** The first call for which the reading is done. */
  lemma ReadingIsDoneInTime(s: System, ins: seq<Input>)
    requires ins != [] && |Percents(s, ins)| == TicksLeft(s.battery)
    requires TakesTurns(CaseStatus.Run(s, ins[..|ins| - 1]), ins[|ins| - 1])
    ensures Unrestarted(s, ins)
  {
    ReadingIsLeft(s, ins[..|ins| - 1]);
  }

  /** A reading that has begun cannot be restarted before it is done, whatever happens to
      the case; it is done after its number of calls that take turns, with the percentage
      of the last one, and stays so until a status is called for again. */
  lemma ReadingFinishes(s: System, ins: seq<Input>)
    requires TicksLeft(s.battery) > 0
    ensures var b, n, all := CaseStatus.Run(s, ins).battery, |Percents(s, ins)|, TicksLeft(s.battery);
      && (n < all ==> Unrestarted(s, ins) && TicksLeft(b) == all - n)
      && (n >= all && Unrestarted(s, ins) ==> b.state == Done && b.percent == Percents(s, ins)[all - 1])
      && (n == all && TakesTurns(CaseStatus.Run(s, ins[..|ins| - 1]), ins[|ins| - 1]) ==> b.state == Done)
      && (Unrestarted(s, ins) ==> (b.led <==> s.battery.led || LedCalled(s, ins)))
  {
    var n, all := |Percents(s, ins)|, TicksLeft(s.battery);
    if n < all {
      ReadingIsLeft(s, ins);
    } else if n == all && TakesTurns(CaseStatus.Run(s, ins[..|ins| - 1]), ins[|ins| - 1]) {
      ReadingIsDoneInTime(s, ins);
    }
    if Unrestarted(s, ins) {
      LedRuns(s, ins);
      if n >= all { ReadingIsDone(s, ins); }
    }
  }

  /** The turn in which earbud e is reported. */
  predicate ReportTurn(m: System, i: Input, e: EarbudId) {
    TakesTurns(m, i) && (if e == Left then i.w else i.w2).accept && BatteryTick(m.battery, i.percent).state == Done
  }

  lemma AnsweredIsReported(s: System, e: EarbudId, i: Input)
    requires s.ears.Get(e).state == SentStatusRequest && s.ears.Get(e).valid && ReportTurn(s, i, e)
    ensures Step(s, i).ears.Get(e).state == Idle
  {
    var u := StepTurn(s, e, i);
  }

  lemma LastTick(b: Battery, c: Battery, percents: seq<nat>, percent: nat)
    requires TicksLeft(b) > 0 && |percents| + 1 >= TicksLeft(b) && Unlit(c) == BatteryTicks(Unlit(b), percents)
    ensures BatteryTick(c, percent).state == Done
  {
    TickUnlit(Unlit(b), percents, percent);
    TickUnlit(c, percents, percent);
    TicksAreDone(b, BatteryTick(c, percent), percents + [percent]);
  }

  /** From the call for a status to the report: when the calls that take turns have been
      one less than the reading takes (232 if none was in progress at the time of the
      call), the next turn of an earbud that has answered since it was asked makes its
      report and leaves it idle, if the wire takes the report. */
  lemma StatusIsReported(s: System, call: Input, e: EarbudId, ins: seq<Input>, i: Input)
    requires CallsForStatus(s, call) && !s.dfuPlanned
    requires var r := Step(s, call); var m := CaseStatus.Run(r, ins);
      && !Asked(r.ears.Get(e)) && Answered(r, e, ins) && m.ears.Get(e).state == SentStatusRequest
      && Unrestarted(r, ins) && TakesTurns(m, i) && (if e == Left then i.w else i.w2).accept
      && |Percents(r, ins)| + 1 >= (if TicksLeft(s.battery) > 0 then TicksLeft(s.battery) else 233)
    ensures Step(CaseStatus.Run(Step(s, call), ins), i).ears.Get(e).state == Idle
  {
    var r := Step(s, call);
    var m := CaseStatus.Run(r, ins);
    StatusBegins(s, call);
    LatchedIsAnswered(r, e, ins);
    ReadingRuns(r, ins);
    LastTick(r.battery, m.battery, Percents(r, ins), i.percent);
    AnsweredIsReported(m, e, i);
  }

  /** How many stages are ahead of an earbud. */
  function Stages(state: CaseState): nat {
    match state
    case Idle => 0
    case StatusWanted => 2
    case SentStatusRequest => 1
    case ResetWanted => 4
    case SentReset => 3
    case ResetDelay => 2
    case Resetting => 1
  }

  /** A turn that takes the earbud on: it can send, or has what it waits for. */
  predicate Helps(u: Turn) {
    var x, canSend := u.x, !u.t.busy && u.accept;
    match x.state
    case Idle => false
    case StatusWanted => canSend
    case SentStatusRequest => x.valid && u.done && u.accept
    case ResetWanted => canSend
    case SentReset => x.ack
    case ResetDelay => x.stateTime > 100 && canSend
    case Resetting => x.valid
  }

  /** A turn that finds that the last message has to be sent again. */
  predicate SetsBack(u: Turn) {
    var x := u.x;
    match x.state
    case SentStatusRequest => x.abort && !(x.valid && u.done)
    case SentReset => x.abort && !x.ack
    case Resetting => (x.giveUp || x.abort) && !x.valid
    case _ => false
  }

  /** A turn that finds that the message cannot be delivered. */
  predicate GivesUp(u: Turn) {
    var x := u.x;
    match x.state
    case SentStatusRequest => x.giveUp && !x.abort && !(x.valid && u.done)
    case SentReset => x.giveUp && !x.abort && !x.ack
    case _ => false
  }

  /** What a turn makes of the stages and of the time in the state. */
  predicate Counts(u: Turn, state: CaseState, time: nat) {
    && Stages(state) == (if Helps(u) then Stages(u.x.state) - 1
                         else if SetsBack(u) then Stages(u.x.state) + 1
                         else if GivesUp(u) then 0
                         else Stages(u.x.state))
    && time == (if state == u.x.state then u.x.stateTime else 0)
  }

  lemma CommandStages(u: Turn)
    requires u.x.state == ResetWanted || u.x.state == SentReset
    ensures var r := AdvanceEarbud(u.t, u.x, u.done, u.accept);
      r.2 == Effect.Nothing && Counts(u, r.1.state, r.1.stateTime)
  {
    if u.x.state == ResetWanted {
    } else {
    }
  }

  lemma PollStages(u: Turn)
    requires u.x.state == ResetDelay || u.x.state == Resetting
    ensures var r := AdvanceEarbud(u.t, u.x, u.done, u.accept);
      r.2 == Effect.Nothing && Counts(u, r.1.state, r.1.stateTime)
  {
    if u.x.state == ResetDelay {
    } else {
    }
  }

  lemma StatusStages(u: Turn)
    requires InStatus(u.x)
    ensures var r := AdvanceEarbud(u.t, u.x, u.done, u.accept);
      if r.2 == Report then Counts(u, Idle, 0) else Counts(u, r.1.state, r.1.stateTime)
  {
    if u.x.state == StatusWanted {
    } else {
    }
  }

  lemma TurnStages(u: Turn, y: Earbud)
    requires Took(u, y)
    ensures Counts(u, y.state, y.stateTime)
  {
    if u.x.state == ResetWanted || u.x.state == SentReset {
      CommandStages(u);
    } else if u.x.state == ResetDelay || u.x.state == Resetting {
      PollStages(u);
    } else if InStatus(u.x) {
      StatusStages(u);
    }
  }

  /** The earbud has been at work all along, without a new reset command and without a
      message that could not be delivered. */
  predicate AtWork(s: System, e: EarbudId, ins: seq<Input>) {
    ins == [] ||
    var m, i := CaseStatus.Run(s, ins[..|ins| - 1]), ins[|ins| - 1];
    && AtWork(s, e, ins[..|ins| - 1])
    && m.ears.Get(e).state != Idle && i != ResetCommand(e)
    && (TakesTurns(m, i) ==> !GivesUp(TurnIn(m, e, i)))
  }

  function Helpful(s: System, e: EarbudId, ins: seq<Input>): nat {
    if ins == [] then 0
    else
      var m, i := CaseStatus.Run(s, ins[..|ins| - 1]), ins[|ins| - 1];
      Helpful(s, e, ins[..|ins| - 1]) + (if TakesTurns(m, i) && Helps(TurnIn(m, e, i)) then 1 else 0)
  }

  function Setbacks(s: System, e: EarbudId, ins: seq<Input>): nat {
    if ins == [] then 0
    else
      var m, i := CaseStatus.Run(s, ins[..|ins| - 1]), ins[|ins| - 1];
      Setbacks(s, e, ins[..|ins| - 1]) + (if TakesTurns(m, i) && SetsBack(TurnIn(m, e, i)) then 1 else 0)
  }

  lemma StepStages(s: System, e: EarbudId, i: Input)
    requires s.ears.Get(e).state != Idle && i != ResetCommand(e)
    requires TakesTurns(s, i) ==> !GivesUp(TurnIn(s, e, i))
    ensures var x, y := Stages(s.ears.Get(e).state), Stages(Step(s, i).ears.Get(e).state);
      if !TakesTurns(s, i) then y == x
      else if Helps(TurnIn(s, e, i)) then y == x - 1
      else if SetsBack(TurnIn(s, e, i)) then y == x + 1
      else y == x
  {
    if TakesTurns(s, i) {
      TurnInStep(s, e, i);
      TurnStages(TurnIn(s, e, i), Step(s, i).ears.Get(e));
    } else {
      StepElse(s, e, i);
    }
  }

  lemma HelpOrSetback(u: Turn)
    ensures !(Helps(u) && SetsBack(u))
  {
  }

  /** A sequence is over exactly after as many helpful turns as it had stages ahead and
      setbacks on the way: a reset after four, a status after two. */
  lemma {:induction false} SequenceGetsThere(s: System, e: EarbudId, ins: seq<Input>)
    requires AtWork(s, e, ins)
    ensures var there := CaseStatus.Run(s, ins).ears.Get(e).state;
      && Stages(there) + Helpful(s, e, ins) == Stages(s.ears.Get(e).state) + Setbacks(s, e, ins)
      && (there == Idle <==> Helpful(s, e, ins) == Stages(s.ears.Get(e).state) + Setbacks(s, e, ins))
  {
    if ins != [] {
      var front, i := ins[..|ins| - 1], ins[|ins| - 1];
      var m := CaseStatus.Run(s, front);
      SequenceGetsThere(s, e, front);
      StepStages(m, e, i);
      if TakesTurns(m, i) { HelpOrSetback(TurnIn(m, e, i)); }
    }
  }

  /** The earbud enters a state, perhaps again. */
  predicate Enters(s: System, e: EarbudId, i: Input) {
    Step(s, i).ears.Get(e).state != s.ears.Get(e).state || (i == ResetCommand(e) && !s.dfuPlanned)
  }

  lemma TurnStepTime(s: System, e: EarbudId, i: Input, y: Earbud)
    requires TakesTurns(s, i) && y == Step(s, i).ears.Get(e)
    ensures var x := s.ears.Get(e); y.stateTime == if y.state == x.state then Age(x).stateTime else 0
  {
    TurnInStep(s, e, i);
    TurnTime(s, e, i);
    TurnStages(TurnIn(s, e, i), y);
  }

  lemma StepTime(s: System, e: EarbudId, i: Input)
    ensures var x, y := s.ears.Get(e), Step(s, i).ears.Get(e);
      y.stateTime ==
        if Enters(s, e, i) then 0
        else if i.CasePeriodic? then Age(x).stateTime
        else x.stateTime
  {
    if TakesTurns(s, i) {
      TurnStepTime(s, e, i, Step(s, i).ears.Get(e));
    } else if i == ResetCommand(e) {
    } else {
      StepElse(s, e, i);
    }
  }

  /** The calls of the periodic function since the earbud has entered its state. */
  function CallsIn(s: System, e: EarbudId, ins: seq<Input>): nat {
    if ins == [] || Enters(CaseStatus.Run(s, ins[..|ins| - 1]), e, ins[|ins| - 1]) then 0
    else CallsIn(s, e, ins[..|ins| - 1]) + (if ins[|ins| - 1].CasePeriodic? then 1 else 0)
  }

  /** The time in 16 bits after so many calls, with so many overflows. */
  predicate Timed(x: Earbud, calls: nat, overflows: nat) {
    x.stateTime <= 0xFFFF && calls == x.stateTime + 0x1_0000 * overflows
  }

  lemma AgeCounts(x: Earbud, calls: nat, overflows: nat) returns (more: nat)
    requires Timed(x, calls, overflows)
    ensures Timed(Age(x), calls + 1, more)
  {
    more := if x.stateTime == 0xFFFF then overflows + 1 else overflows;
  }

  lemma StepTimed(s: System, e: EarbudId, i: Input, calls: nat, overflows: nat) returns (more: nat)
    requires Timed(s.ears.Get(e), calls, overflows)
    ensures var n := if Enters(s, e, i) then 0 else calls + (if i.CasePeriodic? then 1 else 0);
      Timed(Step(s, i).ears.Get(e), n, more)
  {
    StepTime(s, e, i);
    more := 0;
    if !Enters(s, e, i) {
      more := overflows;
      if i.CasePeriodic? { more := AgeCounts(s.ears.Get(e), calls, overflows); }
    }
  }

  /** The time of an earbud in its state, on which the delay of a reset depends, is the
      number of calls since it has entered it, in 16 bits. */
  lemma {:induction false} TimeIsCounted(s: System, e: EarbudId, ins: seq<Input>) returns (overflows: nat)
    requires s.ears.Get(e).stateTime == 0
    ensures Timed(CaseStatus.Run(s, ins).ears.Get(e), CallsIn(s, e, ins), overflows)
  {
    overflows := 0;
    if ins != [] {
      var front := ins[..|ins| - 1];
      overflows := TimeIsCounted(s, e, front);
      overflows := StepTimed(CaseStatus.Run(s, front), e, ins[|ins| - 1], CallsIn(s, e, front), overflows);
    }
  }

  lemma ResetLevel(t: Transaction, x: Earbud, done: bool, accept: bool)
    requires InReset(x)
    ensures var r := AdvanceEarbud(t, x, done, accept);
      Asked(r.1) ==> if Asked(x) then SameLevel(x, r.1) else r.1.battery == 0xFF
  {
  }

  lemma StatusLevel(t: Transaction, x: Earbud, done: bool, accept: bool)
    requires InStatus(x)
    ensures var r := AdvanceEarbud(t, x, done, accept);
      r.2 != Report && Asked(r.1) ==> if Asked(x) then SameLevel(x, r.1) else r.1.battery == 0xFF
  {
  }

  lemma TurnLevel(u: Turn, y: Earbud)
    requires Took(u, y) && Asked(y)
    ensures if Asked(u.x) then SameLevel(u.x, y) else y.battery == 0xFF
  {
    if InReset(u.x) {
      ResetLevel(u.t, u.x, u.done, u.accept);
    } else if InStatus(u.x) {
      StatusLevel(u.t, u.x, u.done, u.accept);
    }
  }

  lemma StepLevel(s: System, e: EarbudId, i: Input)
    ensures var x, y := s.ears.Get(e), Step(s, i).ears.Get(e);
      Asked(y) ==>
        if StatusFor(i, e) then y.battery == i.m.battery && y.charging == i.m.charging
        else if Asked(x) then SameLevel(x, y)
        else y.battery == 0xFF
  {
    if TakesTurns(s, i) {
      var u := StepTurn(s, e, i);
      if Asked(Step(s, i).ears.Get(e)) { TurnLevel(u, Step(s, i).ears.Get(e)); }
    } else {
      StepElse(s, e, i);
    }
  }

  /** The level and the charging of the last status from an earbud. */
  function LastStatus(e: EarbudId, ins: seq<Input>): (nat, bool) {
    if ins == [] then (0xFF, false)
    else
      var i := ins[|ins| - 1];
      if StatusFor(i, e) then (i.m.battery, i.m.charging) else LastStatus(e, ins[..|ins| - 1])
  }

  /** What the case would report of an earbud: the level and the charging of its last
      status once it has answered since it was asked, and an unknown level before that,
      however often it has answered earlier. */
  lemma {:induction false} LevelIsAsAnswered(s: System, e: EarbudId, ins: seq<Input>)
    requires !Asked(s.ears.Get(e))
    ensures var x := CaseStatus.Run(s, ins).ears.Get(e);
      Asked(x) ==>
        if Answered(s, e, ins) then (x.battery, x.charging) == LastStatus(e, ins) else x.battery == 0xFF
  {
    if ins != [] {
      LevelIsAsAnswered(s, e, ins[..|ins| - 1]);
      StepLevel(CaseStatus.Run(s, ins[..|ins| - 1]), e, ins[|ins| - 1]);
    }
  }

  /** A tick finds that the fifth poll has not been answered. */
  predicate PollsUsedUp(t: Transaction, i: Input) {
    i.CcpTick? && t.busy && t.pollTimeout == 1 && t.pollCount == 5
  }

  predicate FromWire(i: Input) {
    i.WireRx? || i.WireAck? || i.WireGiveUp? || i.WireAbort? || i.CcpTick?
  }

  /** The outcomes latched for an earbud. */
  predicate Hears(x: Earbud, y: Earbud, acked: bool, givenUp: bool, aborted: bool) {
    (y.ack <==> x.ack || acked) && (y.giveUp <==> x.giveUp || givenUp) && (y.abort <==> x.abort || aborted)
  }

  lemma LatchHears(x: Earbud, up: Upcall)
    ensures Hears(x, Latch(x, up), up.Acked?, up.GivenUp?, up.Aborted?)
  {
  }

  /** What the protocol layer makes of an input. */
  function FromBelow(t: Transaction, i: Input): (Transaction, Upcall)
    requires FromWire(i)
  {
    if i.WireRx? then OnRx(t, i.m, i.finalPiece)
    else if i.WireAck? then OnAck(t)
    else if i.WireGiveUp? then (Ended(t), GivenUp)
    else if i.WireAbort? then (Ended(t), Aborted)
    else OnTick(t, i.accept)
  }

  lemma BelowExactly(t: Transaction, i: Input)
    requires FromWire(i)
    ensures var r := FromBelow(t, i);
      && (r.1.Acked? <==> i.WireAck? && !t.busy)
      && (r.1.GivenUp? <==> i.WireGiveUp? || PollsUsedUp(t, i))
      && (r.1.Aborted? <==> i.WireAbort?)
      && (r.0.busy <==> t.busy && !i.WireGiveUp? && !i.WireAbort? && !PollsUsedUp(t, i) && !(i.WireRx? && i.finalPiece))
  {
  }

  lemma StepTells(s: System, i: Input)
    requires FromWire(i)
    ensures Step(s, i) == Told(s, i.e, FromBelow(s.tx.Get(i.e), i))
  {
  }

  lemma ToldTo(s: System, e: EarbudId, f: EarbudId, r: (Transaction, Upcall))
    ensures Told(s, f, r).tx.Get(e) == if e == f then r.0 else s.tx.Get(e)
    ensures Told(s, f, r).ears.Get(e) == if e == f then Latch(s.ears.Get(e), r.1) else s.ears.Get(e)
  {
  }

  /** What reaches the case from below. An acknowledgement counts for an earbud only if no
      answer is awaited; every failure is latched; and a failure or a final message, but
      nothing else, ends the transaction. */
  lemma OutcomesAreHeard(s: System, e: EarbudId, i: Input)
    requires FromWire(i)
    ensures var t, here := s.tx.Get(e), i.e == e;
      && Hears(s.ears.Get(e), Step(s, i).ears.Get(e),
               here && i.WireAck? && !t.busy, here && (i.WireGiveUp? || PollsUsedUp(t, i)), here && i.WireAbort?)
      && (Step(s, i).tx.Get(e).busy <==>
            t.busy && !(here && (i.WireGiveUp? || i.WireAbort? || PollsUsedUp(t, i) || (i.WireRx? && i.finalPiece))))
  {
    var r := FromBelow(s.tx.Get(i.e), i);
    StepTells(s, i);
    ToldTo(s, e, i.e, r);
    if i.e == e {
      BelowExactly(s.tx.Get(e), i);
      LatchHears(s.ears.Get(e), r.1);
    }
  }

  /** The acknowledgement of a reset takes the sequence on with the next turn, whatever the
      other earbud does in between. */
  lemma AcknowledgedResetGoesOn(s: System, e: EarbudId, i: Input)
    requires Inv(s) && s.ears.Get(e).state == SentReset
    requires TakesTurns(Step(s, WireAck(e)), i)
    ensures Step(Step(s, WireAck(e)), i).ears.Get(e).state == ResetDelay
  {
    var r := Step(s, WireAck(e));
    OutcomesAreHeard(s, e, WireAck(e));
    StepElse(s, e, WireAck(e));
    var u := StepTurn(r, e, i);
    TurnStages(u, Step(r, i).ears.Get(e));
    ResetAdvance(u.t, u.x, u.done, u.accept);
  }
}

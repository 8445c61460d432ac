/** Whole sequences of the charger case: from a reset command or a wanted status until the
    earbud is idle again, over any run of both layers. */
module CaseSequences {
  import opened Ccp
  import opened CaseStatus

  /** What a status command, a broadcast or the other earbud's turn may change: an idle
      earbud may start, and an abort may be latched. */
  predicate Alike(x: Earbud, y: Earbud) {
    Like(x, y) && y.stateTime == (if y.state == x.state then x.stateTime else 0)
  }

  /** The same but for the time. */
  predicate Like(x: Earbud, y: Earbud) {
    && y.valid == x.valid && y.giveUp == x.giveUp && y.ack == x.ack && (x.abort ==> y.abort)
    && (y.state == x.state || (x.state == Idle && y.state == StatusWanted))
    && SameLevel(x, y)
  }

  /** The level of its battery and whether it charges, as far as the case knows. */
  predicate SameLevel(x: Earbud, y: Earbud) {
    y.battery == x.battery && y.charging == x.charging
  }

  lemma AbortAlike(s: System, e: EarbudId, f: EarbudId)
    ensures Alike(s.ears.Get(e), AbortEarbud(s, f).ears.Get(e)) && AbortEarbud(s, f).battery == s.battery
  {
  }

  lemma BroadcastAlike(s: System, e: EarbudId, w: Wire)
    ensures Alike(s.ears.Get(e), Broadcast(s, w).ears.Get(e)) && Broadcast(s, w).battery == s.battery
    ensures Broadcast(s, w).ears.Get(e).state == s.ears.Get(e).state
  {
    AbortAlike(s, e, Left);
    AbortAlike(s, e, Right);
    AbortAlike(AbortEarbud(s, Left), e, Right);
    BroadcastKeepsState(s, e, w);
  }

  lemma FollowAlike(s: System, e: EarbudId, f: EarbudId)
    ensures Alike(s.ears.Get(f), Follow(s, e).ears.Get(f)) && Follow(s, e).battery == s.battery
    ensures f == Left ==> Follow(s, e).ears.Get(f) == s.ears.Get(f)
    ensures f == e ==> Follow(s, e).ears.Get(f) == s.ears.Get(f)
  {
  }

  lemma StartAlike(x: Earbud)
    ensures Alike(x, x) && Alike(x, StartStatusSequence(x))
  {
  }

  lemma SetGet<T>(x: Each<T>, f: EarbudId, v: T, e: EarbudId)
    ensures x.Set(f, v).Get(e) == if e == f then v else x.Get(e)
  {
  }

  lemma StartedAlike(s: System, e: EarbudId)
    ensures Alike(s.ears.Get(e), Started(s).ears.Get(e))
  {
    var x, f := s.ears.Get(e), if s.ears.left.state == Idle then Left else Right;
    StartAlike(x);
    SetGet(s.ears, f, StartStatusSequence(s.ears.Get(f)), e);
    assert Started(s).ears == s.ears.Set(f, StartStatusSequence(s.ears.Get(f)));
  }

  lemma StatusTimeAlike(s: System, e: EarbudId, led: bool)
    ensures Alike(s.ears.Get(e), StatusTime(s, led).ears.Get(e))
  {
    StartedAlike(s.(battery := ReadAgain(s.battery, led)), e);
  }

  /** The data on which one earbud's turn depends. */
  datatype Turn = Turn(t: Transaction, x: Earbud, done: bool, accept: bool)

  /** The state and the answer that a turn leaves. */
  predicate Took(u: Turn, y: Earbud) {
    LeftBy(AdvanceEarbud(u.t, u.x, u.done, u.accept), y)
  }

  predicate LeftBy(r: (Transaction, Earbud, Effect), y: Earbud) {
    && y.state == (if r.2 == Report then Idle else r.1.state) && y.valid == r.1.valid
    && y.stateTime == (if r.2 == Report then 0 else r.1.stateTime)
    && SameLevel(r.1, y)
  }

  function TurnOf(s: System, e: EarbudId, w: Wire): Turn {
    Turn(s.tx.Get(e), s.ears.Get(e), s.battery.state == Done, w.accept)
  }

  lemma FinishTakes(s: System, e: EarbudId)
    ensures FinishReport(s, e).ears.Get(e).state == Idle && FinishReport(s, e).ears.Get(e).stateTime == 0
    ensures FinishReport(s, e).ears.Get(e).valid == s.ears.Get(e).valid
    ensures SameLevel(s.ears.Get(e), FinishReport(s, e).ears.Get(e))
  {
    FollowAlike(WithEar(s, e, NewState(s.ears.Get(e), Idle)), e, e);
  }

  lemma EffectTakes(u: System, e: EarbudId, effect: Effect, w: Wire)
    ensures var x, y := u.ears.Get(e), Effected(u, e, effect, w).ears.Get(e);
      && y.state == (if effect == Report then Idle else x.state) && y.valid == x.valid
      && y.stateTime == (if effect == Report then 0 else x.stateTime)
      && SameLevel(x, y)
  {
    match effect
    case Nothing =>
    case Over => FollowAlike(u, e, e);
    case Report => BroadcastAlike(u, e, w); FinishTakes(Broadcast(u, w), e);
  }

  lemma OwnTurn(s: System, e: EarbudId, w: Wire)
    ensures Took(TurnOf(s, e, w), PeriodicEarbud(s, e, w).ears.Get(e))
  {
    AloneTakes(s, e, w, Alone(s, e, w));
  }

  lemma AloneTakes(s: System, e: EarbudId, w: Wire, r: (Transaction, Earbud, Effect))
    ensures LeftBy(r, Effected(Moved(s, e, r), e, r.2, w).ears.Get(e))
  {
    EffectTakes(Moved(s, e, r), e, r.2, w);
  }

  function Peer(e: EarbudId): EarbudId {
    if e == Left then Right else Left
  }

  lemma FinishAlike(s: System, e: EarbudId)
    ensures Alike(s.ears.Get(Peer(e)), FinishReport(s, e).ears.Get(Peer(e))) && FinishReport(s, e).battery == s.battery
    ensures e == Right ==> FinishReport(s, e).ears.left == s.ears.left
  {
    FollowAlike(WithEar(s, e, NewState(s.ears.Get(e), Idle)), e, Peer(e));
  }

  lemma EffectAlike(u: System, e: EarbudId, effect: Effect, w: Wire)
    ensures var v := Effected(u, e, effect, w);
      && Alike(u.ears.Get(Peer(e)), v.ears.Get(Peer(e))) && v.battery == u.battery
      && (e == Right ==> v.ears.left.state == u.ears.left.state)
  {
    match effect
    case Nothing =>
    case Over => FollowAlike(u, e, Peer(e));
    case Report => BroadcastAlike(u, Peer(e), w); FinishAlike(Broadcast(u, w), e);
  }

  lemma OtherTurn(s: System, e: EarbudId, w: Wire)
    ensures var v := PeriodicEarbud(s, e, w);
      && Alike(s.ears.Get(Peer(e)), v.ears.Get(Peer(e))) && v.battery == s.battery
      && (e == Right ==> v.ears.left.state == s.ears.left.state)
  {
    var r := Alone(s, e, w);
    EffectAlike(Moved(s, e, r), e, r.2, w);
  }

  /** The turn of an earbud within one call of the periodic function: the right one has
      its turn after the left one. */
  function TurnInTick(s: System, e: EarbudId, percent: nat, w: Wire, w2: Wire): Turn {
    var b := s.(battery := BatteryTick(s.battery, percent));
    if e == Left then TurnOf(b, Left, w) else TurnOf(PeriodicEarbud(b, Left, w), Right, w2)
  }

  function Aged(s: System): System {
    s.(ears := Each(Age(s.ears.left), Age(s.ears.right)))
  }

  lemma TickTurn(s: System, e: EarbudId, percent: nat, w: Wire, w2: Wire)
    ensures var u := TurnInTick(s, e, percent, w, w2);
      && Alike(s.ears.Get(e), u.x) && Took(u, EarbudsTick(s, percent, w, w2).ears.Get(e))
      && u.done == (BatteryTick(s.battery, percent).state == Done)
      && u.accept == (if e == Left then w else w2).accept
  {
    var b := s.(battery := BatteryTick(s.battery, percent));
    var c := PeriodicEarbud(b, Left, w);
    OtherTurn(b, Left, w);
    if e == Left {
      OwnTurn(b, Left, w);
      OtherTurn(c, Right, w2);
    } else {
      OwnTurn(c, Right, w2);
    }
  }

  /** The periodic function takes its turns, unless there is an event. */
  predicate TakesTurns(s: System, i: Input) {
    i.CasePeriodic? && !s.event
  }

  /** A status from this earbud arrives. */
  predicate StatusFor(i: Input, e: EarbudId) {
    i.WireRx? && i.e == e && i.finalPiece && i.m.Status?
  }

  function TurnIn(s: System, e: EarbudId, i: Input): Turn
    requires i.CasePeriodic?
  {
    TurnInTick(Aged(s), e, i.percent, i.w, i.w2)
  }

  lemma TurnInStep(s: System, e: EarbudId, i: Input)
    requires TakesTurns(s, i)
    ensures Like(s.ears.Get(e), TurnIn(s, e, i).x) && Took(TurnIn(s, e, i), Step(s, i).ears.Get(e))
  {
    TickTurn(Aged(s), e, i.percent, i.w, i.w2);
  }

  lemma StepTurn(s: System, e: EarbudId, i: Input) returns (u: Turn)
    requires TakesTurns(s, i)
    ensures Like(s.ears.Get(e), u.x) && Took(u, Step(s, i).ears.Get(e))
    ensures u.done == (BatteryTick(s.battery, i.percent).state == Done)
    ensures u.accept == (if e == Left then i.w else i.w2).accept
  {
    TickTurn(Aged(s), e, i.percent, i.w, i.w2);
    u := TurnIn(s, e, i);
  }

  lemma TurnTime(s: System, e: EarbudId, i: Input)
    requires TakesTurns(s, i)
    ensures Alike(Age(s.ears.Get(e)), TurnIn(s, e, i).x)
  {
    TickTurn(Aged(s), e, i.percent, i.w, i.w2);
  }

  lemma EventAlike(s: System, e: EarbudId, lid: bool, charger: bool, again: bool, w: Wire)
    ensures Alike(s.ears.Get(e), EventTick(s, lid, charger, again, w).ears.Get(e))
  {
    var t := s.(event := again, lidNow := lid, chgNow := charger);
    StatusTimeAlike(t, e, true);
    BroadcastAlike(if lid && lid != s.lidBefore then StatusTime(t, true) else t, e, w);
  }

  /** What other inputs leave of an earbud: its sequence goes on as it was, but for a reset
      command; the answer is there once a status has arrived. */
  predicate Undisturbed(x: Earbud, y: Earbud, i: Input, e: EarbudId) {
    && y.valid == (x.valid || StatusFor(i, e))
    && (if StatusFor(i, e) then y.battery == i.m.battery && y.charging == i.m.charging else SameLevel(x, y))
    && (y.state == x.state || (x.state == Idle && y.state == StatusWanted)
        || (i == ResetCommand(e) && y.state == ResetWanted))
    && (i != ResetCommand(e) ==>
          y.stateTime ==
            (if y.state != x.state then 0 else if i.CasePeriodic? then Age(x).stateTime else x.stateTime))
  }

  lemma LatchElse(x: Earbud, up: Upcall)
    ensures Latch(x, up).state == x.state && Latch(x, up).valid == (x.valid || up.EarbudStatus?)
    ensures if up.EarbudStatus? then Latch(x, up).battery == up.battery && Latch(x, up).charging == up.charging
            else SameLevel(x, Latch(x, up))
  {
  }

  lemma ToldElse(s: System, e: EarbudId, f: EarbudId, r: (Transaction, Upcall), i: Input)
    requires StatusFor(i, e) == (e == f && r.1.EarbudStatus?) && !i.CasePeriodic? && !i.ResetCommand?
    requires StatusFor(i, e) ==> r.1.battery == i.m.battery && r.1.charging == i.m.charging
    ensures Undisturbed(s.ears.Get(e), Told(s, f, r).ears.Get(e), i, e)
  {
    LatchElse(s.ears.Get(f), r.1);
    SetGet(s.ears, f, Latch(s.ears.Get(f), r.1), e);
  }

  /** Inputs from the wire and ticks of the protocol layer. */
  lemma WireElse(s: System, e: EarbudId, i: Input)
    requires i.WireRx? || i.WireAck? || i.WireGiveUp? || i.WireAbort? || i.CcpTick?
    ensures Undisturbed(s.ears.Get(e), Step(s, i).ears.Get(e), i, e)
  {
    var t := s.tx.Get(i.e);
    if i.WireRx? {
      ToldElse(s, e, i.e, OnRx(t, i.m, i.finalPiece), i);
    } else if i.WireAck? {
      ToldElse(s, e, i.e, OnAck(t), i);
    } else if i.WireGiveUp? {
      ToldElse(s, e, i.e, (Ended(t), GivenUp), i);
    } else if i.WireAbort? {
      ToldElse(s, e, i.e, (Ended(t), Aborted), i);
    } else {
      ToldElse(s, e, i.e, OnTick(t, i.accept), i);
    }
  }

  lemma EventElse(s: System, e: EarbudId, i: Input)
    requires i.CasePeriodic? && s.event
    ensures Undisturbed(s.ears.Get(e), Step(s, i).ears.Get(e), i, e)
  {
    EventAlike(Aged(s), e, i.lid, i.charger, i.again, i.w);
  }

  lemma CommandElse(s: System, e: EarbudId, i: Input)
    requires i.EventOccurred? || i.StatusCommand? || i.ResetCommand? || i.AllowDfu? || i.DfuFinished?
    ensures Undisturbed(s.ears.Get(e), Step(s, i).ears.Get(e), i, e)
  {
    if i.StatusCommand? {
      StatusTimeAlike(s, e, i.led);
    } else if i.ResetCommand? {
      SetGet(s.ears, i.e, NewState(s.ears.Get(i.e), ResetWanted), e);
    }
  }

  lemma StepElse(s: System, e: EarbudId, i: Input)
    requires !TakesTurns(s, i)
    ensures Undisturbed(s.ears.Get(e), Step(s, i).ears.Get(e), i, e)
  {
    if i.CasePeriodic? {
      EventElse(s, e, i);
    } else if i.WireRx? || i.WireAck? || i.WireGiveUp? || i.WireAbort? || i.CcpTick? {
      WireElse(s, e, i);
    } else {
      CommandElse(s, e, i);
    }
  }

  /** The states in which an answer counts: the request has been made, or the reset has
      been acknowledged. */
  predicate Asked(x: Earbud) {
    x.state in {ResetDelay, Resetting, SentStatusRequest}
  }

  /** In a run, a status has arrived since the earbud was last asked. */
  ghost predicate Answered(s: System, e: EarbudId, ins: seq<Input>) {
    ins != [] &&
    var front, i := ins[..|ins| - 1], ins[|ins| - 1];
    && Asked(CaseStatus.Run(s, ins).ears.Get(e))
    && (StatusFor(i, e) || (Asked(CaseStatus.Run(s, front).ears.Get(e)) && Answered(s, e, front)))
  }

  lemma ResetAnswer(t: Transaction, x: Earbud, done: bool, accept: bool)
    requires InReset(x)
    ensures var r := AdvanceEarbud(t, x, done, accept); Asked(r.1) ==> r.1.valid == (Asked(x) && x.valid)
  {
  }

  lemma StatusAnswer(t: Transaction, x: Earbud, done: bool, accept: bool)
    requires InStatus(x)
    ensures var r := AdvanceEarbud(t, x, done, accept);
      r.2 != Report && Asked(r.1) ==> r.1.valid == (Asked(x) && x.valid)
  {
  }

  lemma AdvanceAnswer(t: Transaction, x: Earbud, done: bool, accept: bool)
    ensures var r := AdvanceEarbud(t, x, done, accept);
      r.2 != Report && Asked(r.1) ==> r.1.valid == (Asked(x) && x.valid)
  {
    if InReset(x) {
      ResetAnswer(t, x, done, accept);
    } else if InStatus(x) {
      StatusAnswer(t, x, done, accept);
    } else {
      assert AdvanceEarbud(t, x, done, accept).1 == x && !Asked(x);
    }
  }

  lemma TurnAnswer(u: Turn, y: Earbud)
    requires Took(u, y) && Asked(y)
    ensures y.valid == (Asked(u.x) && u.x.valid)
  {
    AdvanceAnswer(u.t, u.x, u.done, u.accept);
  }

  lemma StepAnswer(s: System, e: EarbudId, i: Input)
    ensures var x, y := s.ears.Get(e), Step(s, i).ears.Get(e);
      Asked(y) ==> (y.valid <==> StatusFor(i, e) || (Asked(x) && x.valid))
  {
    if TakesTurns(s, i) {
      var u := StepTurn(s, e, i);
      if Asked(Step(s, i).ears.Get(e)) { TurnAnswer(u, Step(s, i).ears.Get(e)); }
    } else {
      StepElse(s, e, i);
    }
  }

  /** While it counts, the latched answer is one that has arrived since the earbud was
      asked: an answer to an earlier request is never taken for it. */
  lemma {:induction false} LatchedIsAnswered(s: System, e: EarbudId, ins: seq<Input>)
    requires !Asked(s.ears.Get(e))
    ensures var x := CaseStatus.Run(s, ins).ears.Get(e); Asked(x) ==> (x.valid <==> Answered(s, e, ins))
  {
    if ins != [] {
      var front, i := ins[..|ins| - 1], ins[|ins| - 1];
      LatchedIsAnswered(s, e, front);
      StepAnswer(CaseStatus.Run(s, front), e, i);
    }
  }

  /** The earbud is in its reset all along a run. */
  ghost predicate ResetThroughout(s: System, e: EarbudId, ins: seq<Input>) {
    InReset(CaseStatus.Run(s, ins).ears.Get(e)) && (ins == [] || ResetThroughout(s, e, ins[..|ins| - 1]))
  }

  /** With input k the reset is over and the earbud idle: it has answered since the reset
      was acknowledged, or the command could not be delivered. */
  ghost predicate ResetEnds(s: System, e: EarbudId, ins: seq<Input>, k: nat)
    requires k < |ins|
  {
    var x, y := CaseStatus.Run(s, ins[..k]).ears.Get(e), CaseStatus.Run(s, ins[..k + 1]).ears.Get(e);
    && ResetThroughout(s, e, ins[..k]) && y.state == Idle
    && ((x.state == Resetting && Answered(s, e, ins[..k]))
        || (x.state == SentReset && x.giveUp && !x.ack && !x.abort))
  }

  lemma ResetStep(s: System, e: EarbudId, i: Input)
    requires InReset(s.ears.Get(e))
    ensures var x, y := s.ears.Get(e), Step(s, i).ears.Get(e);
      InReset(y) || (y.state == Idle && ResetOver(x))
  {
    if TakesTurns(s, i) {
      var u := StepTurn(s, e, i);
      ResetAdvance(u.t, u.x, u.done, u.accept);
    } else {
      StepElse(s, e, i);
    }
  }

  lemma PrefixOfFront<T>(ins: seq<T>, k: nat)
    requires k < |ins| - 1
    ensures ins[..|ins| - 1][..k] == ins[..k] && ins[..|ins| - 1][..k + 1] == ins[..k + 1]
  {
  }

  lemma {:induction false} ResetGoesOn(s: System, e: EarbudId, ins: seq<Input>)
    requires s.ears.Get(e).state == ResetWanted
    ensures ResetThroughout(s, e, ins) || exists k :: 0 <= k < |ins| && ResetEnds(s, e, ins, k)
  {
    if ins != [] {
      var front, i := ins[..|ins| - 1], ins[|ins| - 1];
      ResetGoesOn(s, e, front);
      if ResetThroughout(s, e, front) {
        ResetStep(CaseStatus.Run(s, front), e, i);
        LatchedIsAnswered(s, e, front);
        assert ins[..|front| + 1] == ins;
        assert ResetThroughout(s, e, ins) || ResetEnds(s, e, ins, |front|);
      } else {
        var k :| 0 <= k < |front| && ResetEnds(s, e, front, k);
        PrefixOfFront(ins, k);
        assert ResetEnds(s, e, ins, k);
      }
    }
  }

  /** A reset that is accepted is seen through, whatever else happens to the case: until
      it is over the earbud stays in the reset sequence, and it is over only with a status
      that the earbud has sent since it acknowledged the reset, or when the command itself
      could not be delivered. */
  lemma ResetIsSeenThrough(s: System, e: EarbudId, ins: seq<Input>)
    requires !s.dfuPlanned
    ensures var r := Step(s, ResetCommand(e));
      ResetThroughout(r, e, ins) || exists k :: 0 <= k < |ins| && ResetEnds(r, e, ins, k)
  {
    ResetGoesOn(Step(s, ResetCommand(e)), e, ins);
  }

  ghost predicate StatusThroughout(s: System, e: EarbudId, ins: seq<Input>) {
    InStatus(CaseStatus.Run(s, ins).ears.Get(e)) && (ins == [] || StatusThroughout(s, e, ins[..|ins| - 1]))
  }

  /** With input k the status sequence is over: the earbud has answered since it was
      asked, the battery has been read and the wire takes the report; or it does not
      answer; or a reset has been asked for instead. */
  ghost predicate StatusEnds(s: System, e: EarbudId, ins: seq<Input>, k: nat)
    requires k < |ins|
  {
    var m, i := CaseStatus.Run(s, ins[..k]), ins[k];
    var x, y := m.ears.Get(e), CaseStatus.Run(s, ins[..k + 1]).ears.Get(e);
    && StatusThroughout(s, e, ins[..k])
    && if i.CasePeriodic? then StatusOverNow(m, e, i, Answered(s, e, ins[..k])) && y.state == Idle
       else i == ResetCommand(e) && y.state == ResetWanted
  }

  ghost predicate StatusOverNow(m: System, e: EarbudId, i: Input, answered: bool)
    requires i.CasePeriodic?
  {
    var x := m.ears.Get(e);
    var done, accept := BatteryTick(m.battery, i.percent).state == Done, (if e == Left then i.w else i.w2).accept;
    x.state == SentStatusRequest
      && ((answered && done && accept) || (x.giveUp && !x.abort && !(answered && done)))
  }

  lemma StatusStep(s: System, e: EarbudId, i: Input)
    requires InStatus(s.ears.Get(e))
    ensures var x, y := s.ears.Get(e), Step(s, i).ears.Get(e);
      || InStatus(y)
      || (i == ResetCommand(e) && y.state == ResetWanted)
      || (i.CasePeriodic? && y.state == Idle && StatusOverNow(s, e, i, x.valid))
  {
    if TakesTurns(s, i) {
      var u := StepTurn(s, e, i);
      StatusAdvance(u.t, u.x, u.done, u.accept);
    } else {
      StepElse(s, e, i);
    }
  }

  /** A status that is wanted is seen through in the same way. */
  lemma {:induction false} StatusIsSeenThrough(s: System, e: EarbudId, ins: seq<Input>)
    requires s.ears.Get(e).state == StatusWanted
    ensures StatusThroughout(s, e, ins) || exists k :: 0 <= k < |ins| && StatusEnds(s, e, ins, k)
  {
    if ins != [] {
      var front, i := ins[..|ins| - 1], ins[|ins| - 1];
      StatusIsSeenThrough(s, e, front);
      if StatusThroughout(s, e, front) {
        StatusStep(CaseStatus.Run(s, front), e, i);
        LatchedIsAnswered(s, e, front);
        assert ins[..|front| + 1] == ins;
        assert StatusThroughout(s, e, ins) || StatusEnds(s, e, ins, |front|);
      } else {
        var k :| 0 <= k < |front| && StatusEnds(s, e, front, k);
        PrefixOfFront(ins, k);
        assert StatusEnds(s, e, ins, k);
      }
    }
  }

  /** The earbud waits, but nothing is pending for it and no outcome is latched. */
  predicate Lost(s: System, e: EarbudId) {
    Awaiting(s.ears.Get(e)) && !s.tx.Get(e).busy && !Latched(s.ears.Get(e))
  }

  predicate AbortsFor(w: Wire, e: EarbudId) {
    w.accept && (if e == Left then w.abortLeft else w.abortRight)
  }

  /** What can still reach such an earbud: an unasked outcome from the wire, an abort by a
      broadcast, or a reset command. */
  predicate Reaches(i: Input, e: EarbudId) {
    match i
    case CasePeriodic(_, _, _, _, w, w2) => AbortsFor(w, e) || AbortsFor(w2, e)
    case WireRx(_, _, _) => StatusFor(i, e)
    case WireGiveUp(f) => f == e
    case WireAbort(f) => f == e
    case ResetCommand(f) => f == e
    case _ => false
  }

  /** Earbud e waits in v as it did in s. */
  predicate Untouched(s: System, v: System, e: EarbudId) {
    && v.tx.Get(e).busy == s.tx.Get(e).busy
    && v.ears.Get(e).state == s.ears.Get(e).state && v.ears.Get(e).valid == s.ears.Get(e).valid
    && v.ears.Get(e).giveUp == s.ears.Get(e).giveUp && v.ears.Get(e).abort == s.ears.Get(e).abort
  }

  lemma AbortElsewhere(s: System, e: EarbudId, f: EarbudId)
    requires e != f
    ensures Untouched(s, AbortEarbud(s, f), e)
  {
    SetGet(s.tx, f, Ended(s.tx.Get(f)), e);
    SetGet(s.ears, f, Latch(s.ears.Get(f), Aborted), e);
  }

  lemma BroadcastElsewhere(s: System, e: EarbudId, w: Wire)
    requires !AbortsFor(w, e)
    ensures Untouched(s, Broadcast(s, w), e)
  {
    AbortElsewhere(s, e, Peer(e));
  }

  lemma FollowElsewhere(s: System, e: EarbudId, f: EarbudId)
    requires s.ears.Get(e).state != Idle
    ensures Untouched(s, Follow(s, f), e)
  {
  }

  lemma FinishElsewhere(s: System, e: EarbudId, f: EarbudId)
    requires e != f && s.ears.Get(e).state != Idle
    ensures Untouched(s, FinishReport(s, f), e)
  {
    SetGet(s.ears, f, NewState(s.ears.Get(f), Idle), e);
    FollowElsewhere(WithEar(s, f, NewState(s.ears.Get(f), Idle)), e, f);
  }

  lemma EffectElsewhere(u: System, e: EarbudId, f: EarbudId, effect: Effect, w: Wire)
    requires e != f && u.ears.Get(e).state != Idle && !AbortsFor(w, e)
    ensures Untouched(u, Effected(u, f, effect, w), e)
  {
    match effect
    case Nothing =>
    case Over => FollowElsewhere(u, e, f);
    case Report => BroadcastElsewhere(u, e, w); FinishElsewhere(Broadcast(u, w), e, f);
  }

  lemma TurnElsewhere(s: System, e: EarbudId, f: EarbudId, w: Wire)
    requires e != f && s.ears.Get(e).state != Idle && !AbortsFor(w, e)
    ensures Untouched(s, PeriodicEarbud(s, f, w), e)
  {
    var r := Alone(s, f, w);
    SetGet(s.tx, f, r.0, e);
    SetGet(s.ears, f, r.1, e);
    EffectElsewhere(Moved(s, f, r), e, f, r.2, w);
    var t := Advance(s, f, w);
    SetGet(t.ears, f, ClearLatches(t.ears.Get(f)), e);
  }

  lemma OwnTurnLost(s: System, e: EarbudId, w: Wire)
    requires Lost(s, e)
    ensures Untouched(s, PeriodicEarbud(s, e, w), e)
  {
    LostStays(s.tx.Get(e), s.ears.Get(e), s.battery.state == Done, w.accept);
    SameEarbud(s, e);
    SetGet(s.ears, e, ClearLatches(s.ears.Get(e)), e);
  }

  lemma TurnLost(s: System, e: EarbudId, f: EarbudId, w: Wire)
    requires Lost(s, e) && !AbortsFor(w, e)
    ensures Untouched(s, PeriodicEarbud(s, f, w), e)
  {
    if e == f { OwnTurnLost(s, e, w); } else { TurnElsewhere(s, e, f, w); }
  }

  lemma EventLost(s: System, e: EarbudId, lid: bool, charger: bool, again: bool, w: Wire)
    requires Lost(s, e) && !AbortsFor(w, e)
    ensures Untouched(s, EventTick(s, lid, charger, again, w), e)
  {
    var t := s.(event := again, lidNow := lid, chgNow := charger);
    StatusTimeLost(t, e, true);
    BroadcastElsewhere(if lid && lid != s.lidBefore then StatusTime(t, true) else t, e, w);
  }

  lemma StatusTimeLost(s: System, e: EarbudId, led: bool)
    requires s.ears.Get(e).state != Idle
    ensures Untouched(s, StatusTime(s, led), e)
  {
    StatusTimeAlike(s, e, led);
    StatusTimeAborts(s, e, led);
  }

  lemma StatusTimeAborts(s: System, e: EarbudId, led: bool)
    ensures StatusTime(s, led).tx == s.tx && StatusTime(s, led).ears.Get(e).abort == s.ears.Get(e).abort
  {
  }

  lemma PeriodicLost(s: System, e: EarbudId, i: Input)
    requires Lost(s, e) && i.CasePeriodic? && !Reaches(i, e)
    ensures Untouched(s, Step(s, i), e)
  {
    var t := s.(ears := Each(Age(s.ears.left), Age(s.ears.right)));
    if t.event {
      EventLost(t, e, i.lid, i.charger, i.again, i.w);
    } else {
      var b := t.(battery := BatteryTick(t.battery, i.percent));
      TurnLost(b, e, Left, i.w);
      TurnLost(PeriodicEarbud(b, Left, i.w), e, Right, i.w2);
    }
  }

  lemma LostStep(s: System, e: EarbudId, i: Input)
    requires Lost(s, e) && !Reaches(i, e)
    ensures Untouched(s, Step(s, i), e)
  {
    match i
    case CasePeriodic(_, _, _, _, _, _) => PeriodicLost(s, e, i);
    case StatusCommand(led) => StatusTimeLost(s, e, led);
    case ResetCommand(f) => SetGet(s.ears, f, NewState(s.ears.Get(f), ResetWanted), e);
    case WireRx(f, m, final) => ToldLost(s, e, f, OnRx(s.tx.Get(f), m, final));
    case WireAck(f) => ToldLost(s, e, f, OnAck(s.tx.Get(f)));
    case WireGiveUp(f) => ToldLost(s, e, f, (Ended(s.tx.Get(f)), GivenUp));
    case WireAbort(f) => ToldLost(s, e, f, (Ended(s.tx.Get(f)), Aborted));
    case CcpTick(f, accept) => ToldLost(s, e, f, OnTick(s.tx.Get(f), accept));
    case _ =>
  }

  lemma ToldLost(s: System, e: EarbudId, f: EarbudId, r: (Transaction, Upcall))
    requires Lost(s, e) && (e == f ==> !r.0.busy && (r.1.Nothing? || r.1.Acked?))
    ensures Untouched(s, Told(s, f, r), e)
  {
    SetGet(s.tx, f, r.0, e);
    SetGet(s.ears, f, Latch(s.ears.Get(f), r.1), e);
  }

  /** An earbud whose outcome is lost stays in its waiting state, whatever the case does,
      for as long as nothing reaches it. */
  lemma {:induction false} LostIsStuck(s: System, e: EarbudId, ins: seq<Input>)
    requires Lost(s, e) && forall k :: 0 <= k < |ins| ==> !Reaches(ins[k], e)
    ensures Lost(CaseStatus.Run(s, ins), e) && CaseStatus.Run(s, ins).ears.Get(e).state == s.ears.Get(e).state
  {
    if ins != [] {
      LostIsStuck(s, e, ins[..|ins| - 1]);
      LostStep(CaseStatus.Run(s, ins[..|ins| - 1]), e, ins[|ins| - 1]);
    }
  }
}

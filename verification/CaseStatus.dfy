/** The charger case above the protocol layer: a status or reset sequence for each
    earbud, driven by a periodic function and by latched outcomes. */
module CaseStatus {
  import opened Ccp

  const CASE_RESET_DELAY_TIME := 100
  const CASE_BATTERY_READ_DELAY_TIME := 200
  const CASE_BATTERY_ADC_DELAY_TIME := 30
  const UNKNOWN_BATTERY := 0xFF

  datatype CaseState = Idle | StatusWanted | SentStatusRequest | ResetWanted | SentReset | ResetDelay | Resetting

  /** What the case keeps about one earbud. `awake` is the power run reason that
      belongs to it. */
  datatype Earbud = Earbud(state: CaseState, stateTime: nat, valid: bool, pp: bool, battery: nat,
                           charging: bool, ack: bool, giveUp: bool, abort: bool, awake: bool)

  datatype BatteryState = BatteryIdle | StartReading | Reading | StopReading | Done
  datatype Battery = Battery(state: BatteryState, percent: nat, delayTicks: nat, led: bool)

  datatype System = System(tx: Each<Transaction>, ears: Each<Earbud>, battery: Battery,
                           lidNow: bool, lidBefore: bool, chgNow: bool, chgBefore: bool,
                           event: bool, dfuPlanned: bool)

  function WithEar(s: System, e: EarbudId, x: Earbud): System {
    s.(ears := s.ears.Set(e, x))
  }

  const NewEarbud := Earbud(Idle, 0, false, false, UNKNOWN_BATTERY, false, false, false, false, false)

  const Initial := System(Each(NoTransaction, NoTransaction), Each(NewEarbud, NewEarbud),
                          Battery(BatteryIdle, 0, 0, false), false, false, false, false, true, false)

  /** How the wire answers a send: whether it accepts, and, for a broadcast that it
      accepts, which unfinished messages it aborts to make room. */
  datatype Wire = Wire(accept: bool, abortLeft: bool, abortRight: bool)

  function NewState(x: Earbud, state: CaseState): Earbud {
    x.(state := state, stateTime := 0, awake := state != Idle)
  }

  function StartStatusSequence(x: Earbud): Earbud {
    if x.state == Idle then NewState(x, StatusWanted) else x
  }

  /** A notification from the protocol layer is latched until the next periodic call. */
  function Latch(x: Earbud, up: Upcall): Earbud {
    match up
    case Nothing => x
    case EarbudStatus(pp, battery, charging) => x.(valid := true, pp := pp, battery := battery, charging := charging)
    case Acked => x.(ack := true)
    case GivenUp => x.(giveUp := true)
    case Aborted => x.(abort := true)
  }

  function AbortEarbud(s: System, e: EarbudId): (r: System)
  {
    WithEar(s.(tx := s.tx.Set(e, Ended(s.tx.Get(e)))), e, Latch(s.ears.Get(e), Aborted))
  }

  /** A broadcast; while it is being accepted the wire may abort what it had pending. */
  function Broadcast(s: System, w: Wire): (r: System)
  {
    if !w.accept then s
    else
      var l := if w.abortLeft then AbortEarbud(s, Left) else s;
      if w.abortRight then AbortEarbud(l, Right) else l
  }

  /** A reading in progress is left to finish. */
  function ReadAgain(b: Battery, led: bool): Battery {
    if b.state == BatteryIdle || b.state == Done then b.(state := StartReading, led := led)
    else b.(led := b.led || led)
  }

  /** One earbud after the other. */
  function Started(s: System): System {
    if s.ears.left.state == Idle then WithEar(s, Left, StartStatusSequence(s.ears.left))
    else WithEar(s, Right, StartStatusSequence(s.ears.right))
  }

  function StatusTime(s: System, led: bool): (r: System) {
    if s.dfuPlanned then s else Started(s.(battery := ReadAgain(s.battery, led)))
  }

  function BatteryTick(b: Battery, percent: nat): Battery {
    match b.state
    case StartReading => b.(delayTicks := CASE_BATTERY_READ_DELAY_TIME, state := Reading)
    case Reading =>
      if b.delayTicks == 0 then b.(delayTicks := CASE_BATTERY_ADC_DELAY_TIME, state := StopReading)
      else b.(delayTicks := b.delayTicks - 1)
    case StopReading =>
      if b.delayTicks == 0 then b.(percent := percent, state := Done)
      else b.(delayTicks := b.delayTicks - 1)
    case _ => b
  }

  /** What the rest of the case does after one earbud has advanced: nothing, start
      the other sequence, or broadcast the full status first. */
  datatype Effect = Nothing | Over | Report

  /** The state machine of one earbud. `accept` is the wire's answer to a send that
      needs one, and to the broadcast of a report. */
  function AdvanceEarbud(t: Transaction, x: Earbud, batteryDone: bool, accept: bool): (r: (Transaction, Earbud, Effect))
  {
    var canSend := !t.busy && accept;
    match x.state
    case Idle => (t, x, Effect.Nothing)
    case ResetWanted => (t, if canSend then NewState(x, SentReset) else x, Effect.Nothing)
    case SentReset =>
      (t, if x.ack then NewState(x.(valid := false, battery := UNKNOWN_BATTERY), ResetDelay)
          else if x.abort then NewState(x, ResetWanted)
          else if x.giveUp then NewState(x, Idle)
          else x,
       Effect.Nothing)
    case ResetDelay =>
      if x.stateTime > CASE_RESET_DELAY_TIME && canSend
      then (Requested, NewState(x, Resetting), Effect.Nothing)
      else (t, x, Effect.Nothing)
    case Resetting =>
      (t, if x.valid then NewState(x, Idle)
          else if x.giveUp || x.abort then NewState(x, ResetDelay)
          else x,
       Effect.Nothing)
    case StatusWanted =>
      var y := x.(valid := false, battery := UNKNOWN_BATTERY);
      if canSend then (Requested, NewState(y, SentStatusRequest), Effect.Nothing)
      else (t, y, Effect.Nothing)
    case SentStatusRequest =>
      if x.valid && batteryDone then (t, x, if accept then Report else Effect.Nothing)
      else if x.abort then (t, NewState(x, StatusWanted), Effect.Nothing)
      else if x.giveUp then (t, NewState(x, Idle), Over)
      else (t, x, Effect.Nothing)
  }

  /** The right earbud follows the left one. */
  function Follow(s: System, e: EarbudId): (r: System) {
    if e == Left then WithEar(s, Right, StartStatusSequence(s.ears.right)) else s
  }

  function FinishReport(s: System, e: EarbudId): (r: System) {
    Follow(WithEar(s, e, NewState(s.ears.Get(e), Idle)), e)
  }

  function WithTx(s: System, e: EarbudId, t: Transaction): (r: System) {
    s.(tx := s.tx.Set(e, t))
  }

  function Effected(u: System, e: EarbudId, effect: Effect, w: Wire): (r: System) {
    match effect
    case Nothing => u
    case Over => Follow(u, e)
    case Report => FinishReport(Broadcast(u, w), e)
  }

  /** The next state of earbud e on its own. */
  function Alone(s: System, e: EarbudId, w: Wire): (r: (Transaction, Earbud, Effect)) {
    AdvanceEarbud(s.tx.Get(e), s.ears.Get(e), s.battery.state == Done, w.accept)
  }

  function Moved(s: System, e: EarbudId, r: (Transaction, Earbud, Effect)): (u: System) {
    WithEar(WithTx(s, e, r.0), e, r.1)
  }

  function Advance(s: System, e: EarbudId, w: Wire): (r: System) {
    Effected(Moved(s, e, Alone(s, e, w)), e, Alone(s, e, w).2, w)
  }

  function ClearLatches(x: Earbud): Earbud {
    x.(ack := false, abort := false, giveUp := false)
  }

  function PeriodicEarbud(s: System, e: EarbudId, w: Wire): (r: System)
  {
    var t := Advance(s, e, w);
    WithEar(t, e, ClearLatches(t.ears.Get(e)))
  }

  /** The time in a state is an unsigned 16-bit number. */
  function Age(x: Earbud): Earbud {
    x.(stateTime := if x.stateTime >= 0xFFFF then 0 else x.stateTime + 1)
  }

  /** A change of the lid or the charger counts as reported once the wire has taken it. */
  function Announce(s: System, w: Wire): (r: System)
  {
    if (s.lidNow != s.lidBefore || s.chgNow != s.chgBefore) && w.accept
    then Broadcast(s, w).(lidBefore := s.lidNow, chgBefore := s.chgNow)
    else s
  }

  /** The branch of the periodic function that handles a lid or charger event. */
  function EventTick(s: System, lid: bool, charger: bool, again: bool, w: Wire): (r: System)
  {
    var t := s.(event := again, lidNow := lid, chgNow := charger);
    Announce(if lid && lid != s.lidBefore then StatusTime(t, true) else t, w)
  }

  /** The other branch: the battery reading first, then each earbud. */
  function EarbudsTick(s: System, percent: nat, w: Wire, w2: Wire): (r: System)
  {
    PeriodicEarbud(PeriodicEarbud(s.(battery := BatteryTick(s.battery, percent)), Left, w), Right, w2)
  }

  function Dispatch(s: System, lid: bool, charger: bool, again: bool, percent: nat, w: Wire, w2: Wire): (r: System)
  {
    if s.event then EventTick(s, lid, charger, again, w) else EarbudsTick(s, percent, w, w2)
  }

  function Periodic(s: System, lid: bool, charger: bool, again: bool, percent: nat, w: Wire, w2: Wire): (r: System)
  {
    Dispatch(s.(ears := Each(Age(s.ears.left), Age(s.ears.right))), lid, charger, again, percent, w, w2)
  }

  /** Everything that can happen to the two layers. */
  datatype Input =
    | CasePeriodic(lid: bool, charger: bool, again: bool, percent: nat, w: Wire, w2: Wire)
    | EventOccurred
    | StatusCommand(led: bool)
    | ResetCommand(e: EarbudId)
    | AllowDfu
    | DfuFinished
    | WireRx(e: EarbudId, m: Message, finalPiece: bool)
    | WireAck(e: EarbudId)
    | WireGiveUp(e: EarbudId)
    | WireAbort(e: EarbudId)
    | CcpTick(e: EarbudId, accept: bool)

  function Told(s: System, e: EarbudId, r: (Transaction, Upcall)): (q: System)
  {
    WithEar(s.(tx := s.tx.Set(e, r.0)), e, Latch(s.ears.Get(e), r.1))
  }

  function Step(s: System, i: Input): (r: System)
  {
    match i
    case CasePeriodic(lid, charger, again, percent, w, w2) => Periodic(s, lid, charger, again, percent, w, w2)
    case EventOccurred => s.(event := true)
    case StatusCommand(led) => StatusTime(s, led)
    case ResetCommand(e) => if s.dfuPlanned then s else WithEar(s, e, NewState(s.ears.Get(e), ResetWanted))
    case AllowDfu => s.(dfuPlanned := true)
    case DfuFinished => s.(dfuPlanned := false)
    case WireRx(e, m, final) => Told(s, e, OnRx(s.tx.Get(e), m, final))
    case WireAck(e) => Told(s, e, OnAck(s.tx.Get(e)))
    case WireGiveUp(e) => Told(s, e, (Ended(s.tx.Get(e)), GivenUp))
    case WireAbort(e) => Told(s, e, (Ended(s.tx.Get(e)), Aborted))
    case CcpTick(e, accept) => Told(s, e, OnTick(s.tx.Get(e), accept))
  }

  function Run(s: System, ins: seq<Input>): (r: System)
  {
    if ins == [] then s else Step(Run(s, ins[..|ins| - 1]), ins[|ins| - 1])
  }

  /** The earbud waits for the outcome of a transaction. */
  predicate Awaiting(x: Earbud) {
    x.state == SentStatusRequest || x.state == Resetting
  }

  predicate Latched(x: Earbud) {
    x.valid || x.giveUp || x.abort
  }

  /** No outcome of earbud e is lost: while it waits, its transaction is busy or an
      outcome is latched; after a reset has been sent, the acknowledgement will reach
      the case; and the case stays awake exactly while the earbud has work. */
  predicate Kept(t: Transaction, x: Earbud) {
    && (Awaiting(x) ==> t.busy || Latched(x))
    && (x.state == SentReset ==> !t.busy)
    && (x.awake <==> x.state != Idle)
  }

  ghost predicate Inv(s: System) {
    && Kept(s.tx.left, s.ears.left) && Kept(s.tx.right, s.ears.right)
  }

  /** A final message that is not an earbud status ends the transaction unreported. */
  predicate Reports(i: Input) {
    i.WireRx? && i.finalPiece ==> i.m.Status?
  }

  lemma StatusKeeps(t: Transaction, x: Earbud, done: bool, accept: bool)
    requires Kept(t, x) && (x.state == StatusWanted || x.state == SentStatusRequest)
    ensures var r := AdvanceEarbud(t, x, done, accept);
      if r.2 == Report then r.0 == t && r.1 == x else Kept(r.0, ClearLatches(r.1))
  {
    match x.state
    case StatusWanted =>
    case SentStatusRequest =>
  }

  lemma ResetKeeps(t: Transaction, x: Earbud, done: bool, accept: bool)
    requires Kept(t, x) && x.state in {ResetWanted, SentReset, ResetDelay, Resetting}
    ensures var r := AdvanceEarbud(t, x, done, accept);
      r.2 == Effect.Nothing && Kept(r.0, ClearLatches(r.1))
  {
    match x.state
    case ResetWanted =>
    case SentReset =>
    case ResetDelay =>
    case Resetting =>
  }

  /** A report leaves the earbud to its caller; any other advance keeps the outcome
      even after the latches have been cleared. */
  lemma EarbudKeeps(t: Transaction, x: Earbud, done: bool, accept: bool)
    requires Kept(t, x)
    ensures var r := AdvanceEarbud(t, x, done, accept);
      if r.2 == Report then r.0 == t && r.1 == x else Kept(r.0, ClearLatches(r.1))
  {
    match x.state
    case Idle =>
    case StatusWanted => StatusKeeps(t, x, done, accept);
    case SentStatusRequest => StatusKeeps(t, x, done, accept);
    case _ => ResetKeeps(t, x, done, accept);
  }

  lemma BroadcastKeeps(s: System, w: Wire)
    requires Inv(s)
    ensures Inv(Broadcast(s, w))
  {
  }

  /** Every earbud but e keeps its outcome, and e does once its latches are clear. */
  ghost predicate InvBut(s: System, e: EarbudId) {
    && (if e == Left then Kept(s.tx.right, s.ears.right) else Kept(s.tx.left, s.ears.left))
    && Kept(s.tx.Get(e), ClearLatches(s.ears.Get(e)))
  }

  lemma FollowKeeps(s: System, e: EarbudId)
    requires InvBut(s, e)
    ensures InvBut(Follow(s, e), e)
  {
  }

  lemma IdleKeeps(s: System, e: EarbudId)
    requires Inv(s)
    ensures InvBut(WithEar(s, e, NewState(s.ears.Get(e), Idle)), e)
  {
  }

  lemma ClearKeeps(s: System, e: EarbudId)
    requires InvBut(s, e)
    ensures Inv(WithEar(s, e, ClearLatches(s.ears.Get(e))))
  {
  }

  lemma OneKeeps(s: System, e: EarbudId, t: Transaction, x: Earbud)
    requires Inv(s) && Kept(t, ClearLatches(x))
    ensures InvBut(WithEar(WithTx(s, e, t), e, x), e)
  {
  }

  lemma Unmoved<T>(x: Each<T>, e: EarbudId)
    ensures x.Set(e, x.Get(e)) == x
  {
  }

  lemma SameEarbud(s: System, e: EarbudId)
    ensures WithEar(WithTx(s, e, s.tx.Get(e)), e, s.ears.Get(e)) == s
  {
  }

  lemma FinishKeeps(s: System, e: EarbudId)
    requires Inv(s)
    ensures InvBut(FinishReport(s, e), e)
  {
    IdleKeeps(s, e);
    FollowKeeps(WithEar(s, e, NewState(s.ears.Get(e), Idle)), e);
  }

  lemma EffectedKeeps(u: System, e: EarbudId, effect: Effect, w: Wire)
    requires if effect == Report then Inv(u) else InvBut(u, e)
    ensures InvBut(Effected(u, e, effect, w), e)
  {
    match effect
    case Nothing =>
    case Over => FollowKeeps(u, e);
    case Report => BroadcastKeeps(u, w); FinishKeeps(Broadcast(u, w), e);
  }

  lemma AdvanceBut(s: System, e: EarbudId, w: Wire)
    requires Inv(s)
    ensures InvBut(Advance(s, e, w), e)
  {
    var t, x, done := s.tx.Get(e), s.ears.Get(e), s.battery.state == Done;
    assert Kept(t, x);
    EarbudKeeps(t, x, done, w.accept);
    var r := AdvanceEarbud(t, x, done, w.accept);
    AdvanceCases(s, e, w, t, x, r);
  }

  /** The split of AdvanceBut over what an advance r of earbud e asks for. */
  lemma AdvanceCases(s: System, e: EarbudId, w: Wire, t: Transaction, x: Earbud, r: (Transaction, Earbud, Effect))
    requires Inv(s) && s.tx.Get(e) == t && s.ears.Get(e) == x
    requires if r.2 == Report then r.0 == t && r.1 == x else Kept(r.0, ClearLatches(r.1))
    ensures InvBut(Effected(Moved(s, e, r), e, r.2, w), e)
  {
    if r.2 == Report {
      SameEarbud(s, e);
    } else {
      OneKeeps(s, e, r.0, r.1);
    }
    EffectedKeeps(WithEar(WithTx(s, e, r.0), e, r.1), e, r.2, w);
  }

  lemma AdvanceKeeps(s: System, e: EarbudId, w: Wire)
    requires Inv(s)
    ensures Inv(PeriodicEarbud(s, e, w))
  {
    AdvanceBut(s, e, w);
    ClearKeeps(Advance(s, e, w), e);
  }

  lemma StatusTimeKeeps(s: System, led: bool)
    requires Inv(s)
    ensures Inv(StatusTime(s, led))
  {
  }

  lemma EventKeeps(s: System, lid: bool, charger: bool, again: bool, w: Wire)
    requires Inv(s)
    ensures Inv(EventTick(s, lid, charger, again, w))
  {
    var t := s.(event := again, lidNow := lid, chgNow := charger);
    StatusTimeKeeps(t, true);
    BroadcastKeeps(if lid && lid != s.lidBefore then StatusTime(t, true) else t, w);
  }

  lemma EarbudsKeep(s: System, percent: nat, w: Wire, w2: Wire)
    requires Inv(s)
    ensures Inv(EarbudsTick(s, percent, w, w2))
  {
    var b := s.(battery := BatteryTick(s.battery, percent));
    AdvanceKeeps(b, Left, w);
    AdvanceKeeps(PeriodicEarbud(b, Left, w), Right, w2);
  }

  lemma PeriodicKeeps(s: System, lid: bool, charger: bool, again: bool, percent: nat, w: Wire, w2: Wire)
    requires Inv(s)
    ensures Inv(Periodic(s, lid, charger, again, percent, w, w2))
  {
    var t := s.(ears := Each(Age(s.ears.left), Age(s.ears.right)));
    if t.event { EventKeeps(t, lid, charger, again, w); } else { EarbudsKeep(t, percent, w, w2); }
  }

  lemma TellKeeps(s: System, e: EarbudId, r: (Transaction, Upcall))
    requires Inv(s) && Kept(r.0, Latch(s.ears.Get(e), r.1))
    ensures Inv(Told(s, e, r))
  {
  }

  /** No notification of the protocol layer loses an outcome. */
  lemma NotificationKeeps(t: Transaction, x: Earbud, m: Message, final: bool, accept: bool)
    requires Kept(t, x)
    ensures !final || m.Status? ==> Kept(OnRx(t, m, final).0, Latch(x, OnRx(t, m, final).1))
    ensures Kept(OnAck(t).0, Latch(x, OnAck(t).1))
    ensures Kept(OnTick(t, accept).0, Latch(x, OnTick(t, accept).1))
    ensures Kept(Ended(t), Latch(x, GivenUp)) && Kept(Ended(t), Latch(x, Aborted))
  {
  }

  lemma StepKeeps(s: System, i: Input)
    requires Inv(s) && Reports(i)
    ensures Inv(Step(s, i))
  {
    match i
    case CasePeriodic(lid, charger, again, percent, w, w2) => PeriodicKeeps(s, lid, charger, again, percent, w, w2);
    case EventOccurred =>
    case StatusCommand(led) => StatusTimeKeeps(s, led);
    case ResetCommand(e) =>
    case AllowDfu =>
    case DfuFinished =>
    case WireRx(e, m, final) => NotificationKeeps(s.tx.Get(e), s.ears.Get(e), m, final, true);
      TellKeeps(s, e, OnRx(s.tx.Get(e), m, final));
    case WireAck(e) => NotificationKeeps(s.tx.Get(e), s.ears.Get(e), Other, false, true);
      TellKeeps(s, e, OnAck(s.tx.Get(e)));
    case WireGiveUp(e) => NotificationKeeps(s.tx.Get(e), s.ears.Get(e), Other, false, true);
      TellKeeps(s, e, (Ended(s.tx.Get(e)), GivenUp));
    case WireAbort(e) => NotificationKeeps(s.tx.Get(e), s.ears.Get(e), Other, false, true);
      TellKeeps(s, e, (Ended(s.tx.Get(e)), Aborted));
    case CcpTick(e, accept) => NotificationKeeps(s.tx.Get(e), s.ears.Get(e), Other, false, accept);
      TellKeeps(s, e, OnTick(s.tx.Get(e), accept));
  }

  /** In every reachable state no outcome is lost, as long as final replies are
      earbud-status messages. */
  lemma {:induction false} NoOutcomeLost(ins: seq<Input>)
    requires forall k :: 0 <= k < |ins| ==> Reports(ins[k])
    ensures Inv(Run(Initial, ins))
  {
    if ins != [] {
      NoOutcomeLost(ins[..|ins| - 1]);
      StepKeeps(Run(Initial, ins[..|ins| - 1]), ins[|ins| - 1]);
    }
  }

  /** What happens otherwise, exactly: a final message of another kind loses the
      outcome unless the earbud was not waiting or had one latched already. */
  lemma OtherReplyLoses(s: System, e: EarbudId)
    requires Inv(s)
    ensures Inv(Step(s, WireRx(e, Other, true))) <==> !Awaiting(s.ears.Get(e)) || Latched(s.ears.Get(e))
  {
  }

  /** Nothing latched and nothing pending: neither the state machine nor a tick of the
      protocol layer changes such an earbud. */
  lemma LostStays(t: Transaction, x: Earbud, done: bool, accept: bool)
    requires Awaiting(x) && !t.busy && !Latched(x)
    ensures AdvanceEarbud(t, x, done, accept) == (t, x, Effect.Nothing)
    ensures OnTick(t, accept) == (t, Upcall.Nothing)
  {
  }

  /** Conversely an earbud whose transaction is over leaves its waiting state at the
      next call of its state machine, unless it has its answer and only the battery
      reading or the wire holds back the report; the answer then stays. */
  lemma OutcomeIsUsed(t: Transaction, x: Earbud, done: bool, accept: bool)
    requires Kept(t, x) && Awaiting(x) && !t.busy
    ensures var r := AdvanceEarbud(t, x, done, accept);
      || r.1.state != x.state
      || r.2 == Report
      || (x.state == SentStatusRequest && x.valid && r.1 == x
          && (if done then !accept else !x.abort && !x.giveUp))
  {
  }

  predicate InReset(x: Earbud) {
    x.state in {ResetWanted, SentReset, ResetDelay, Resetting}
  }

  predicate InStatus(x: Earbud) {
    x.state == StatusWanted || x.state == SentStatusRequest
  }

  /** How the state machine leaves a reset: with a status from the earbud, or when the
      command itself could not be delivered. */
  predicate ResetOver(x: Earbud) {
    (x.state == Resetting && x.valid) || (x.state == SentReset && x.giveUp && !x.ack && !x.abort)
  }

  lemma ResetAdvance(t: Transaction, x: Earbud, done: bool, accept: bool)
    requires InReset(x)
    ensures var r := AdvanceEarbud(t, x, done, accept);
      r.2 == Effect.Nothing && (InReset(r.1) || (r.1.state == Idle && ResetOver(x)))
  {
  }

  /** How it leaves a status sequence: with a report, or when the earbud does not answer;
      a request that was aborted is made again. */
  predicate StatusOverWith(x: Earbud, done: bool, accept: bool) {
    && x.state == SentStatusRequest
    && ((x.valid && done && accept) || (x.giveUp && !x.abort && !(x.valid && done)))
  }

  lemma StatusAdvance(t: Transaction, x: Earbud, done: bool, accept: bool)
    requires InStatus(x)
    ensures var r := AdvanceEarbud(t, x, done, accept);
      || (r.2 == Effect.Nothing && InStatus(r.1))
      || (r.2 == Report && StatusOverWith(x, done, accept))
      || (r.2 == Over && r.1.state == Idle && StatusOverWith(x, done, accept))
  {
  }

  /** The ticks until a battery reading in progress is done: 233 from its start. */
  function TicksLeft(b: Battery): nat {
    match b.state
    case StartReading => CASE_BATTERY_READ_DELAY_TIME + CASE_BATTERY_ADC_DELAY_TIME + 3
    case Reading => b.delayTicks + CASE_BATTERY_ADC_DELAY_TIME + 2
    case StopReading => b.delayTicks + 1
    case _ => 0
  }

  function BatteryTicks(b: Battery, percents: seq<nat>): Battery {
    if percents == [] then b
    else BatteryTick(BatteryTicks(b, percents[..|percents| - 1]), percents[|percents| - 1])
  }

  /** A reading is done after exactly that many ticks, with the percentage measured at
      the last of them, and does not change after that. */
  lemma {:induction false} ReadingTakes(b: Battery, percents: seq<nat>)
    requires b.state in {StartReading, Reading, StopReading}
    ensures var r := BatteryTicks(b, percents);
      && TicksLeft(r) == (if |percents| <= TicksLeft(b) then TicksLeft(b) - |percents| else 0)
      && (r.state == Done <==> |percents| >= TicksLeft(b)) && r.state != BatteryIdle
      && (r.state == Done ==> r.percent == percents[TicksLeft(b) - 1])
  {
    if percents != [] { ReadingTakes(b, percents[..|percents| - 1]); }
  }

  lemma FollowStarts(s: System)
    ensures Follow(s, Left).ears.right.state == if s.ears.right.state == Idle then StatusWanted else s.ears.right.state
    ensures Follow(s, Left).ears.left == s.ears.left
  {
  }

  lemma AbortKeepsState(s: System, e: EarbudId, f: EarbudId)
    ensures AbortEarbud(s, f).ears.Get(e).state == s.ears.Get(e).state
  {
  }

  lemma BroadcastKeepsState(s: System, e: EarbudId, w: Wire)
    ensures Broadcast(s, w).ears.Get(e).state == s.ears.Get(e).state
  {
    AbortKeepsState(s, e, Left);
    AbortKeepsState(s, e, Right);
    AbortKeepsState(AbortEarbud(s, Left), e, Right);
  }

  /** When the left sequence ends, by a report or without an answer, the right one starts
      if it is not already running. */
  lemma RightFollowsLeft(s: System, w: Wire)
    requires Alone(s, Left, w).2 == Report || Alone(s, Left, w).2 == Over
    ensures var t := Advance(s, Left, w);
      t.ears.left.state == Idle
      && t.ears.right.state == if s.ears.right.state == Idle then StatusWanted else s.ears.right.state
  {
    var r := Alone(s, Left, w);
    var u := Moved(s, Left, r);
    assert u.ears.right == s.ears.right && u.ears.left == r.1;
    if r.2 == Report {
      BroadcastKeepsState(u, Right, w);
      var v := Broadcast(u, w);
      FollowStarts(WithEar(v, Left, NewState(v.ears.Get(Left), Idle)));
    } else {
      FollowStarts(u);
      StatusOver(s.tx.Get(Left), s.ears.Get(Left), s.battery.state == Done, w.accept);
    }
  }

  lemma StatusOver(t: Transaction, x: Earbud, done: bool, accept: bool)
    ensures AdvanceEarbud(t, x, done, accept).2 == Over ==> AdvanceEarbud(t, x, done, accept).1.state == Idle
  {
  }

  /** A report ends the sequence: whatever the broadcast aborts, the earbud is idle
      with clear latches, and its battery level is the one that was reported. */
  lemma ReportFinishes(s: System, e: EarbudId, w: Wire)
    requires s.ears.Get(e).state == SentStatusRequest && s.ears.Get(e).valid
    requires s.battery.state == Done && w.accept
    ensures var x := PeriodicEarbud(s, e, w).ears.Get(e);
      x.state == Idle && !x.awake && !x.ack && !x.abort && !x.giveUp && x.battery == s.ears.Get(e).battery
  {
    SameEarbud(s, e);
    var v := Broadcast(s, w);
    BroadcastBattery(s, e, w);
    assert Advance(s, e, w) == Follow(WithEar(v, e, NewState(v.ears.Get(e), Idle)), e);
  }

  lemma AbortBattery(s: System, e: EarbudId, f: EarbudId)
    ensures AbortEarbud(s, f).ears.Get(e).battery == s.ears.Get(e).battery
  {
  }

  lemma BroadcastBattery(s: System, e: EarbudId, w: Wire)
    ensures Broadcast(s, w).ears.Get(e).battery == s.ears.Get(e).battery
  {
    AbortBattery(s, e, Left);
    AbortBattery(s, e, Right);
    AbortBattery(AbortEarbud(s, Left), e, Right);
  }

  /** After the case has allowed a firmware update both earbuds stay idle until the
      update is over. */
  ghost predicate Quiet(s: System) {
    s.dfuPlanned && s.ears.left.state == s.ears.right.state == Idle
  }

  lemma QuietEarbud(s: System, e: EarbudId, w: Wire)
    requires Quiet(s)
    ensures Quiet(PeriodicEarbud(s, e, w))
  {
    assert AdvanceEarbud(s.tx.Get(e), s.ears.Get(e), s.battery.state == Done, w.accept)
        == (s.tx.Get(e), s.ears.Get(e), Effect.Nothing);
  }

  /** While an update is planned a status time starts nothing. */
  lemma QuietEvent(s: System, lid: bool, charger: bool, again: bool, w: Wire)
    requires Quiet(s)
    ensures Quiet(EventTick(s, lid, charger, again, w))
  {
    var t := s.(event := again, lidNow := lid, chgNow := charger);
    assert StatusTime(t, true) == t;
    BroadcastQuiet(t, w);
  }

  lemma BroadcastQuiet(s: System, w: Wire)
    requires Quiet(s)
    ensures Quiet(Broadcast(s, w))
  {
    BroadcastKeepsState(s, Left, w);
    BroadcastKeepsState(s, Right, w);
  }

  lemma QuietEarbuds(s: System, percent: nat, w: Wire, w2: Wire)
    requires Quiet(s)
    ensures Quiet(EarbudsTick(s, percent, w, w2))
  {
    var b := s.(battery := BatteryTick(s.battery, percent));
    QuietEarbud(b, Left, w);
    QuietEarbud(PeriodicEarbud(b, Left, w), Right, w2);
  }

  lemma QuietPeriodic(s: System, lid: bool, charger: bool, again: bool, percent: nat, w: Wire, w2: Wire)
    requires Quiet(s)
    ensures Quiet(Periodic(s, lid, charger, again, percent, w, w2))
  {
    var t := s.(ears := Each(Age(s.ears.left), Age(s.ears.right)));
    if t.event { QuietEvent(t, lid, charger, again, w); } else { QuietEarbuds(t, percent, w, w2); }
  }

  lemma QuietStep(s: System, i: Input)
    requires Quiet(s) && !i.DfuFinished?
    ensures Quiet(Step(s, i))
  {
    match i
    case CasePeriodic(lid, charger, again, percent, w, w2) => QuietPeriodic(s, lid, charger, again, percent, w, w2);
    case WireRx(e, m, final) =>
    case CcpTick(e, accept) =>
    case _ =>
  }

  lemma {:induction false} QuietDuringDfu(s: System, ins: seq<Input>)
    requires s.ears.left.state == s.ears.right.state == Idle
    requires forall k :: 0 <= k < |ins| ==> !ins[k].DfuFinished?
    ensures Quiet(Run(Step(s, AllowDfu), ins))
  {
    if ins != [] {
      QuietDuringDfu(s, ins[..|ins| - 1]);
      QuietStep(Run(Step(s, AllowDfu), ins[..|ins| - 1]), ins[|ins| - 1]);
    }
  }

  /** Only an answer awaited by a status sequence has an effect beyond its earbud. */
  lemma QuietElsewhere(s: System, e: EarbudId, w: Wire)
    ensures s.ears.Get(e).state != SentStatusRequest ==> Advance(s, e, w) == Moved(s, e, Alone(s, e, w))
    ensures s.ears.Get(e).state == Idle ==> Alone(s, e, w).0 == s.tx.Get(e) && Alone(s, e, w).1 == s.ears.Get(e)
  {
    match s.ears.Get(e).state
    case Idle =>
    case ResetWanted =>
    case SentReset =>
    case ResetDelay =>
    case Resetting =>
    case StatusWanted =>
    case SentStatusRequest =>
  }

  /** The case itself. It owns the protocol layer; every method takes the whole system
      from one state of the specification to the next. */
  class Case {
    const ccp: Protocol
    var ears: Each<Earbud>
    var battery: Battery
    var lidNow: bool
    var lidBefore: bool
    var chgNow: bool
    var chgBefore: bool
    var event: bool
    var dfuPlanned: bool

    ghost predicate Valid()
      reads this, ccp
    {
      ccp.Valid()
    }

    ghost function Snapshot(): System
      reads this, ccp
    {
      System(ccp.transactions, ears, battery, lidNow, lidBefore, chgNow, chgBefore, event, dfuPlanned)
    }

    constructor ()
      ensures Valid() && fresh(ccp) && Snapshot() == Initial
    {
      ccp := new Protocol();
      ears := Each(NewEarbud, NewEarbud);
      battery := Battery(BatteryIdle, 0, 0, false);
      lidNow, lidBefore, chgNow, chgBefore := false, false, false, false;
      event, dfuPlanned := true, false;
    }

    /** The callbacks of the protocol layer. */
    method Notify(e: EarbudId, up: Upcall)
      modifies this`ears
      ensures ears == old(ears).Set(e, Latch(old(ears).Get(e), up))
    {
      var ces := ears.Get(e);
      match up {
        case Nothing =>
        case EarbudStatus(pp, level, charging) =>
          ces := ces.(valid := true, pp := pp, battery := level, charging := charging);
        case Acked => ces := ces.(ack := true);
        case GivenUp => ces := ces.(giveUp := true);
        case Aborted => ces := ces.(abort := true);
      }
      ears := ears.Set(e, ces);
    }

    method OnRx(e: EarbudId, m: Message, finalPiece: bool)
      requires Valid()
      modifies this`ears, ccp
      ensures Valid() && Snapshot() == Step(old(Snapshot()), WireRx(e, m, finalPiece))
    {
      var up := ccp.Rx(e, m, finalPiece);
      Notify(e, up);
    }

    method OnAck(e: EarbudId)
      requires Valid()
      modifies this`ears, ccp
      ensures Valid() && Snapshot() == Step(old(Snapshot()), WireAck(e))
    {
      var up := ccp.Ack(e);
      Notify(e, up);
    }

    method OnGiveUp(e: EarbudId)
      requires Valid()
      modifies this`ears, ccp
      ensures Valid() && Snapshot() == Step(old(Snapshot()), WireGiveUp(e))
    {
      var up := ccp.GiveUp(e);
      Notify(e, up);
    }

    method OnAbort(e: EarbudId)
      requires Valid()
      modifies this`ears, ccp
      ensures Valid() && Snapshot() == AbortEarbud(old(Snapshot()), e)
      ensures Snapshot() == Step(old(Snapshot()), WireAbort(e))
    {
      var up := ccp.Abort(e);
      Notify(e, up);
    }

    method OnCcpTick(e: EarbudId, accept: bool)
      requires Valid()
      modifies this`ears, ccp
      ensures Valid() && Snapshot() == Step(old(Snapshot()), CcpTick(e, accept))
    {
      var up := ccp.ManageTransaction(e, accept);
      Notify(e, up);
    }

    /** A broadcast of `len` octets: the wire answers, and aborts what it must. */
    method SendBroadcast(len: nat, w: Wire) returns (ret: bool)
      requires Valid() && len + 2 <= CCP_MAX_MSG_SIZE
      modifies this`ears, ccp
      ensures Valid() && ret == w.accept && Snapshot() == Broadcast(old(Snapshot()), w)
    {
      ret := false;
      if len + 2 <= CCP_MAX_MSG_SIZE {
        ret := w.accept;
        if ret && w.abortLeft { OnAbort(Left); }
        if ret && w.abortRight { OnAbort(Right); }
      }
    }

    method EnterState(e: EarbudId, state: CaseState)
      modifies this`ears
      ensures ears == old(ears).Set(e, NewState(old(ears).Get(e), state))
    {
      ears := ears.Set(e, ears.Get(e).(state := state, stateTime := 0));
      if state == Idle {
        ears := ears.Set(e, ears.Get(e).(awake := false));
      } else {
        ears := ears.Set(e, ears.Get(e).(awake := true));
      }
    }

    method StartSequence(e: EarbudId) returns (started: bool)
      modifies this`ears
      ensures started == (old(ears).Get(e).state == Idle)
      ensures ears == old(ears).Set(e, StartStatusSequence(old(ears).Get(e)))
    {
      if ears.Get(e).state == Idle {
        EnterState(e, StatusWanted);
        return true;
      }
      return false;
    }

    method StatusDue(led: bool)
      requires Valid()
      modifies this`ears, this`battery
      ensures Valid() && Snapshot() == StatusTime(old(Snapshot()), led)
    {
      if !dfuPlanned {
        if battery.state == BatteryIdle || battery.state == Done {
          battery := battery.(state := StartReading, led := led);
        } else if led {
          battery := battery.(led := true);
        }
        var left := StartSequence(Left);
        if !left {
          var _ := StartSequence(Right);
        }
      }
    }

    method ResetRequested(e: EarbudId)
      requires Valid()
      modifies this`ears
      ensures Valid() && Snapshot() == Step(old(Snapshot()), ResetCommand(e))
    {
      if !dfuPlanned {
        EnterState(e, ResetWanted);
      }
    }

    method PermitDfu() returns (ret: bool)
      requires Valid()
      modifies this`dfuPlanned
      ensures Valid() && Snapshot() == Step(old(Snapshot()), AllowDfu)
      ensures ret <==> Quiet(Snapshot())
    {
      ret := ears.left.state == Idle && ears.right.state == Idle;
      dfuPlanned := true;
    }

    method BatteryPeriodic(percent: nat)
      modifies this`battery
      ensures battery == BatteryTick(old(battery), percent)
    {
      match battery.state {
        case StartReading =>
          battery := battery.(delayTicks := CASE_BATTERY_READ_DELAY_TIME);
          battery := battery.(state := Reading);
        case Reading =>
          if battery.delayTicks == 0 {
            battery := battery.(delayTicks := CASE_BATTERY_ADC_DELAY_TIME);
            battery := battery.(state := StopReading);
          } else {
            battery := battery.(delayTicks := battery.delayTicks - 1);
          }
        case StopReading =>
          if battery.delayTicks == 0 {
            battery := battery.(percent := percent);
            battery := battery.(state := Done);
          } else {
            battery := battery.(delayTicks := battery.delayTicks - 1);
          }
        case _ =>
      }
    }

    /** The two layers hold what the state machine of earbud e makes of the given
        transactions and earbuds. */
    ghost predicate Placed(txs: Each<Transaction>, was: Each<Earbud>, e: EarbudId, w: Wire)
      reads this, ccp
    {
      var r := AdvanceEarbud(txs.Get(e), was.Get(e), battery.state == Done, w.accept);
      ccp.transactions == txs.Set(e, r.0) && ears == was.Set(e, r.1)
    }

    method SendReset(e: EarbudId, w: Wire)
      requires Valid() && ears.Get(e).state == ResetWanted
      modifies this`ears, ccp
      ensures Valid() && Placed(old(ccp.transactions), old(ears), e, w)
    {
      Unmoved(ccp.transactions, e);
      Unmoved(ears, e);
      var sent := ccp.Tx(e, 1, false, w.accept);
      if sent { EnterState(e, SentReset); }
    }

    method AwaitResetAck(e: EarbudId, w: Wire)
      requires Valid() && ears.Get(e).state == SentReset
      modifies this`ears, ccp
      ensures Valid() && Placed(old(ccp.transactions), old(ears), e, w)
    {
      Unmoved(ccp.transactions, e);
      Unmoved(ears, e);
      var ces := ears.Get(e);
      if ces.ack {
        ears := ears.Set(e, ces.(valid := false, battery := UNKNOWN_BATTERY));
        EnterState(e, ResetDelay);
      } else if ces.abort {
        EnterState(e, ResetWanted);
      } else if ces.giveUp {
        EnterState(e, Idle);
      }
    }

    method DelayAfterReset(e: EarbudId, w: Wire)
      requires Valid() && ears.Get(e).state == ResetDelay
      modifies this`ears, ccp
      ensures Valid() && Placed(old(ccp.transactions), old(ears), e, w)
    {
      Unmoved(ccp.transactions, e);
      Unmoved(ears, e);
      if ears.Get(e).stateTime > CASE_RESET_DELAY_TIME {
        var sent := ccp.Tx(e, 0, true, w.accept);
        if sent { EnterState(e, Resetting); }
      }
    }

    method AwaitReset(e: EarbudId, w: Wire)
      requires Valid() && ears.Get(e).state == Resetting
      modifies this`ears, ccp
      ensures Valid() && Placed(old(ccp.transactions), old(ears), e, w)
    {
      Unmoved(ccp.transactions, e);
      Unmoved(ears, e);
      var ces := ears.Get(e);
      if ces.valid {
        EnterState(e, Idle);
      } else if ces.giveUp || ces.abort {
        EnterState(e, ResetDelay);
      }
    }

    method RequestStatus(e: EarbudId, w: Wire)
      requires Valid() && ears.Get(e).state == StatusWanted
      modifies this`ears, ccp
      ensures Valid() && Placed(old(ccp.transactions), old(ears), e, w)
    {
      Unmoved(ccp.transactions, e);
      Unmoved(ears, e);
      ears := ears.Set(e, ears.Get(e).(valid := false, battery := UNKNOWN_BATTERY));
      var sent := ccp.Tx(e, 0, true, w.accept);
      if sent { EnterState(e, SentStatusRequest); }
    }

    /** The sequence of earbud e is over; the right earbud follows the left one. */
    method FinishSequence(e: EarbudId)
      requires Valid()
      modifies this`ears
      ensures Valid() && Snapshot() == FinishReport(old(Snapshot()), e)
    {
      EnterState(e, Idle);
      if e == Left { var _ := StartSequence(Right); }
    }

    method ReportStatus(e: EarbudId, w: Wire)
      requires Valid()
      modifies this`ears, ccp
      ensures Valid()
      ensures Snapshot() ==
        if w.accept then FinishReport(Broadcast(old(Snapshot()), w), e) else old(Snapshot())
    {
      var sent := SendBroadcast(4, w);
      if sent {
        FinishSequence(e);
      }
    }

    method AwaitStatus(e: EarbudId, w: Wire)
      requires Valid() && ears.Get(e).state == SentStatusRequest
      modifies this`ears, ccp
      ensures Valid() && Snapshot() == Advance(old(Snapshot()), e, w)
    {
      SameEarbud(Snapshot(), e);
      var ces := ears.Get(e);
      if ces.valid && battery.state == Done {
        ReportStatus(e, w);
      } else if ces.abort {
        EnterState(e, StatusWanted);
      } else if ces.giveUp {
        FinishSequence(e);
      }
    }

    /** One pass of the switch over the state of earbud e. */
    method EarbudSwitch(e: EarbudId, w: Wire)
      requires Valid()
      modifies this`ears, ccp
      ensures Valid() && Snapshot() == Advance(old(Snapshot()), e, w)
    {
      QuietElsewhere(Snapshot(), e, w);
      match ears.Get(e).state {
        case Idle => SameEarbud(Snapshot(), e);
        case ResetWanted => SendReset(e, w);
        case SentReset => AwaitResetAck(e, w);
        case ResetDelay => DelayAfterReset(e, w);
        case Resetting => AwaitReset(e, w);
        case StatusWanted => RequestStatus(e, w);
        case SentStatusRequest => AwaitStatus(e, w);
      }
    }

    method EarbudPeriodic(e: EarbudId, w: Wire)
      requires Valid()
      modifies this`ears, ccp
      ensures Valid() && Snapshot() == PeriodicEarbud(old(Snapshot()), e, w)
    {
      EarbudSwitch(e, w);
      ears := ears.Set(e, ears.Get(e).(ack := false, abort := false, giveUp := false));
    }

    /** The branch without an event: the battery first, then each earbud. */
    method OrdinaryTick(percent: nat, w: Wire, w2: Wire)
      requires Valid()
      modifies this`ears, this`battery, ccp
      ensures Valid()
      ensures Snapshot() == EarbudsTick(old(Snapshot()), percent, w, w2)
    {
      BatteryPeriodic(percent);
      EarbudPeriodic(Left, w);
      EarbudPeriodic(Right, w2);
    }

    method AnnounceChange(w: Wire)
      requires Valid()
      modifies this`ears, this`lidBefore, this`chgBefore, ccp
      ensures Valid() && Snapshot() == Announce(old(Snapshot()), w)
    {
      if lidNow != lidBefore || chgNow != chgBefore {
        var sent := SendBroadcast(1, w);
        if sent {
          lidBefore := lidNow;
          chgBefore := chgNow;
        }
      }
    }

    method HandleEvent(lid: bool, charger: bool, again: bool, w: Wire)
      requires Valid()
      modifies this, ccp
      ensures Valid() && Snapshot() == EventTick(old(Snapshot()), lid, charger, again, w)
    {
      event := again;
      lidNow, chgNow := lid, charger;
      if lidNow && lidNow != lidBefore {
        StatusDue(true);
      }
      AnnounceChange(w);
    }

    method DispatchTick(lid: bool, charger: bool, again: bool, percent: nat, w: Wire, w2: Wire)
      requires Valid()
      modifies this, ccp
      ensures Valid() && Snapshot() == Dispatch(old(Snapshot()), lid, charger, again, percent, w, w2)
    {
      if event {
        HandleEvent(lid, charger, again, w);
      } else {
        OrdinaryTick(percent, w, w2);
      }
    }

    /** The periodic function: an event, or the battery and then each earbud in turn. */
    method OnPeriodic(lid: bool, charger: bool, again: bool, percent: nat, w: Wire, w2: Wire)
      requires Valid()
      modifies this, ccp
      ensures Valid() && Snapshot() == Periodic(old(Snapshot()), lid, charger, again, percent, w, w2)
    {
      ears := Each(Age(ears.left), Age(ears.right));
      DispatchTick(lid, charger, again, percent, w, w2);
    }
  }
}

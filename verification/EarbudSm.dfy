/** The application state machine of an earbud: bit-encoded states with parent states,
    entry and exit actions that may enter the next state, rule events for the connection
    rules, an idle timeout and a permission to sleep. */
module EarbudSm {
  import opened Options
  import opened RulesEngine
  import opened RulePositions

  datatype State =
    | Null | Initialising | DfuCheck | FactoryReset | Startup | HandsetPairing | TerminatingState | DeviceTestMode
    | InCaseTerminating | InCaseIdle | InCaseDfu
    | OutOfCaseTerminating | OutOfCaseSoporific | OutOfCaseSoporificTerminating | OutOfCaseIdle | OutOfCaseBusy
    | InEarTerminating | InEarIdle | InEarBusy

  const TERMINATING: bv16 := 0x0001
  const SOPORIFIC: bv16 := 0x0002
  const SOPORIFIC_TERMINATING: bv16 := 0x0004
  const IDLE: bv16 := 0x0008
  const BUSY: bv16 := 0x0010
  const DFU: bv16 := 0x0020
  const DEVICE_TEST_MODE: bv16 := 0x1000
  const SUBSTATE_MASK: bv16 := 0x1FFF
  const IN_CASE: bv16 := 0x2000
  const OUT_OF_CASE: bv16 := 0x4000
  const IN_EAR: bv16 := 0x8000

  /** The number of a state: its substate, with the bit of its parent if it has one. */
  function Code(s: State): bv16 {
    match s
    case Null => 0
    case Initialising => 0x0040
    case DfuCheck => 0x0080
    case FactoryReset => 0x0100
    case Startup => 0x0200
    case HandsetPairing => 0x0800
    case TerminatingState => TERMINATING
    case DeviceTestMode => DEVICE_TEST_MODE
    case InCaseTerminating => IN_CASE | TERMINATING
    case InCaseIdle => IN_CASE | IDLE
    case InCaseDfu => IN_CASE | DFU
    case OutOfCaseTerminating => OUT_OF_CASE | TERMINATING
    case OutOfCaseSoporific => OUT_OF_CASE | SOPORIFIC
    case OutOfCaseSoporificTerminating => OUT_OF_CASE | SOPORIFIC_TERMINATING
    case OutOfCaseIdle => OUT_OF_CASE | IDLE
    case OutOfCaseBusy => OUT_OF_CASE | BUSY
    case InEarTerminating => IN_EAR | TERMINATING
    case InEarIdle => IN_EAR | IDLE
    case InEarBusy => IN_EAR | BUSY
  }

  predicate InCase(s: State) {
    s.InCaseTerminating? || s.InCaseIdle? || s.InCaseDfu?
  }

  predicate OutOfCase(s: State) {
    || s.OutOfCaseTerminating? || s.OutOfCaseSoporific? || s.OutOfCaseSoporificTerminating?
    || s.OutOfCaseIdle? || s.OutOfCaseBusy?
  }

  predicate InEar(s: State) {
    s.InEarTerminating? || s.InEarIdle? || s.InEarBusy?
  }

  predicate Terminating(s: State) {
    s == TerminatingFor(s) || s.OutOfCaseSoporificTerminating?
  }

  predicate Sleepy(s: State) {
    s.OutOfCaseSoporific? || s.OutOfCaseSoporificTerminating?
  }

  predicate IdleState(s: State) {
    s.InCaseIdle? || s.OutOfCaseIdle? || s.InEarIdle? || s.OutOfCaseSoporific?
  }

  predicate Core(s: State) {
    IdleState(s) || s.OutOfCaseBusy? || s.InEarBusy?
  }

  predicate Busy(s: State) {
    s.OutOfCaseBusy? || s.InEarBusy?
  }

  /** The states from start-up on, in the order of their numbers. */
  predicate FromStartup(s: State) {
    s !in {Null, Initialising, DfuCheck, FactoryReset, TerminatingState}
  }

  /** The source tells states apart by bit tests on their numbers; these are the same. */
  lemma BitTests(s: State)
    ensures InCase(s) <==> Code(s) & IN_CASE != 0
    ensures OutOfCase(s) <==> Code(s) & OUT_OF_CASE != 0
    ensures InEar(s) <==> Code(s) & IN_EAR != 0
    ensures Terminating(s) <==> Code(s) & (TERMINATING | SOPORIFIC_TERMINATING) != 0
    ensures Sleepy(s) <==> Code(s) & (SOPORIFIC | SOPORIFIC_TERMINATING) != 0
    ensures IdleState(s) <==> Code(s) & (IDLE | SOPORIFIC) != 0
    ensures Busy(s) <==> Code(s) & BUSY != 0
    ensures Core(s) <==> Code(s) & (IDLE | BUSY | SOPORIFIC) != 0
    ensures FromStartup(s) <==> Code(s) >= Code(Startup)
  {
  }

  /** Another substate under the same parent. */
  function SubState(s: State, sub: bv16): bv16 {
    (Code(s) & !SUBSTATE_MASK) | sub
  }

  /** The terminating state of each parent, and that of the states without one. */
  function TerminatingFor(s: State): State {
    match s
    case InCaseTerminating => InCaseTerminating
    case InCaseIdle => InCaseTerminating
    case InCaseDfu => InCaseTerminating
    case OutOfCaseTerminating => OutOfCaseTerminating
    case OutOfCaseSoporific => OutOfCaseTerminating
    case OutOfCaseSoporificTerminating => OutOfCaseTerminating
    case OutOfCaseIdle => OutOfCaseTerminating
    case OutOfCaseBusy => OutOfCaseTerminating
    case InEarTerminating => InEarTerminating
    case InEarIdle => InEarTerminating
    case InEarBusy => InEarTerminating
    case _ => TerminatingState
  }

  /** Changing the substate of any state to terminating gives a state that is supported:
      a terminating one under the same parent. */
  lemma TerminatingIsSupported(s: State)
    ensures SubState(s, TERMINATING) == Code(TerminatingFor(s)) && Terminating(TerminatingFor(s))
    ensures InCase(TerminatingFor(s)) == InCase(s) && OutOfCase(TerminatingFor(s)) == OutOfCase(s)
    ensures InEar(TerminatingFor(s)) == InEar(s) && !Sleepy(TerminatingFor(s))
  {
  }

  datatype PhyState = UnknownPlace | PlacedInCase | OutOfEar | OutOfEarAtRest | PlacedInEar

  datatype Role = NoRole | Primary | Secondary

  /** The rule events that the machine itself sets and resets. */
  datatype RuleEvent = InCaseEvent | OutCaseEvent | InEarEvent | OutEarEvent | RoleSwitch

  /** The messages of their rules. */
  datatype RuleMessage =
    | LedEnable | LedDisable | EnterDfu | SecEnterDfu | HandsetPair
    | AncTuningStart | AncTuningStop | AdaptiveAncTuningStop | AncEnable | AncDisable
    | A2dpTimeout | A2dpTimeoutCancel | MediaPlay | ScoTimeout | ScoTransferToEarbud | AcceptIncomingCall
    | PeerScoControl | SelectMic | SetRemoteAudioMix | SetLocalAudioMix

  type EventSet = RuleSet<RuleEvent>
  type Table = map<RuleEvent, seq<RuleMessage>>
  type RuleAnswers = Answers<RuleEvent, RuleMessage>
  type RuleChoice = set<Rule<RuleEvent, RuleMessage>>

  const CommonTable: Table := map[OutEarEvent := [LedEnable], InEarEvent := [LedDisable]]

  const PrimaryTable: Table := map[
    RoleSwitch := [HandsetPair, PeerScoControl],
    OutCaseEvent := [AncTuningStop, AdaptiveAncTuningStop, HandsetPair, SetRemoteAudioMix, SetLocalAudioMix],
    InCaseEvent := [AncTuningStart, EnterDfu, A2dpTimeoutCancel, SetRemoteAudioMix],
    OutEarEvent := [AncDisable, A2dpTimeout, ScoTimeout, SelectMic, SetRemoteAudioMix],
    InEarEvent := [AncEnable, A2dpTimeoutCancel, MediaPlay, AcceptIncomingCall, ScoTransferToEarbud,
                   SelectMic, SetRemoteAudioMix, SetLocalAudioMix]]

  const SecondaryTable: Table := map[
    InCaseEvent := [SecEnterDfu, AncTuningStart],
    OutCaseEvent := [AncTuningStop, AdaptiveAncTuningStop],
    OutEarEvent := [AncDisable],
    InEarEvent := [AncEnable]]

  /** The common, the primary and the secondary connection rules. */
  datatype Rules = Rules(common: EventSet, primary: EventSet, secondary: EventSet)

  /** The machine with its rule sets, the idle timeouts pending for it and the permission
      to sleep it has given. After a panic the earbud restarts. */
  datatype Machine = Machine(state: State, phy: PhyState, role: Role, rules: Rules,
                             idleTimeouts: nat, sleepAllowed: bool, panicked: bool)

  /** Why the earbud has rebooted. */
  datatype Reason = NoDfuReset | AbruptReset | DfuReset

  /** How the earbud is configured: whether it has an idle timeout, and whether its LEDs
      are on in the ear. */
  datatype Product = Product(idleTimeout: bool, earLeds: bool)

  /** With what the rest of the earbud answers while one message is handled: the reboot
      reason, which rules of the two roles run, and whether the other earbud is pairing. */
  datatype Config = Config(product: Product, reason: Reason, primaryRuns: RuleChoice, secondaryRuns: RuleChoice,
                           peerPairing: bool)

  /** The common rules switch the LEDs, unless these stay on in the ear. */
  function CommonAnswers(earLeds: bool): RuleAnswers {
    Answers(if earLeds then {} else {Rule(OutEarEvent, LedEnable), Rule(InEarEvent, LedDisable)}, {})
  }

  /** Of all rules only the primary one for handset pairing defers, and only while the other
      earbud is pairing. */
  const PairingRules: RuleChoice := {Rule(RoleSwitch, HandsetPair), Rule(OutCaseEvent, HandsetPair)}

  /** The answers of the rules that belong to a role. */
  function OwnAnswers(role: Role, c: Config): RuleAnswers {
    match role
    case NoRole => CommonAnswers(c.product.earLeds)
    case Primary => Answers(c.primaryRuns, if c.peerPairing then PairingRules else {})
    case Secondary => Answers(c.secondaryRuns, {})
  }

  /** The rule set of the current role is told. */
  function TellOwn(r: Rules, role: Role, call: Call<RuleEvent, RuleMessage>, c: Config): Rules {
    match role
    case NoRole => r
    case Primary => r.(primary := Told(r.primary, PrimaryTable, call, OwnAnswers(Primary, c)))
    case Secondary => r.(secondary := Told(r.secondary, SecondaryTable, call, OwnAnswers(Secondary, c)))
  }

  /** The common rule set is told, and then that of the current role. */
  function Tell(r: Rules, role: Role, call: Call<RuleEvent, RuleMessage>, c: Config): Rules {
    TellOwn(r.(common := Told(r.common, CommonTable, call, CommonAnswers(c.product.earLeds))), role, call, c)
  }

  /** An event takes the place of its opposite. */
  function Exchange(r: Rules, role: Role, go: bool, off: RuleEvent, on: RuleEvent, c: Config): Rules {
    if go then Tell(Tell(r, role, ResetEvent(off), c), role, SetEvent(on), c) else r
  }

  /** The end of handset pairing completes the rule that asked for it. */
  function LeavePairing(r: Rules, role: Role, from: State, c: Config): Rules {
    if from == HandsetPairing then Tell(r, role, Complete(HandsetPair), c) else r
  }

  /** Leaving the parents of one state for another. */
  function LeaveParents(r: Rules, role: Role, from: State, to: State, c: Config): Rules {
    Exchange(Exchange(r, role, InCase(from) && !InCase(to), InCaseEvent, OutCaseEvent, c),
             role, InEar(from) && !InEar(to), InEarEvent, OutEarEvent, c)
  }

  function EnterParents(r: Rules, role: Role, from: State, to: State, c: Config): Rules {
    Exchange(Exchange(r, role, !InCase(from) && InCase(to), OutCaseEvent, InCaseEvent, c),
             role, !InEar(from) && InEar(to), OutEarEvent, InEarEvent, c)
  }

  function RulesAfter(r: Rules, role: Role, from: State, to: State, c: Config): Rules {
    EnterParents(LeaveParents(LeavePairing(r, role, from, c), role, from, to, c), role, from, to, c)
  }

  function SleepAfter(allowed: bool, from: State, to: State): bool {
    if Sleepy(from) && !Sleepy(to) then false
    else if !Sleepy(from) && Sleepy(to) then true
    else allowed
  }

  /** Leaving the idle state cancels its timeout, if there is one; entering it starts one. */
  function IdleAfter(n: nat, from: State, to: State, idleTimeout: bool): nat {
    (if from == OutOfCaseIdle && n > 0 then n - 1 else n) + (if to == OutOfCaseIdle && idleTimeout then 1 else 0)
  }

  /** A change of state up to what may follow it at once. */
  function Move(m: Machine, target: State, c: Config): Machine {
    m.(state := target,
       rules := RulesAfter(m.rules, m.role, m.state, target, c),
       sleepAllowed := SleepAfter(m.sleepAllowed, m.state, target),
       idleTimeouts := IdleAfter(m.idleTimeouts, m.state, target, c.product.idleTimeout))
  }

  lemma MoveIs(m: Machine, target: State, c: Config, n: Machine)
    requires n.state == target && n.phy == m.phy && n.role == m.role && n.panicked == m.panicked
    requires n.rules == RulesAfter(m.rules, m.role, m.state, target, c)
    requires n.sleepAllowed == SleepAfter(m.sleepAllowed, m.state, target)
    requires n.idleTimeouts == IdleAfter(m.idleTimeouts, m.state, target, c.product.idleTimeout)
    ensures n == Move(m, target, c)
  {
  }

  /** A change of state. Leaving the factory reset panics; entering the firmware-update
      check may enter the next state from within. */
  function SetState(m: Machine, target: State, c: Config): Machine
    decreases if target == DfuCheck then 1 else 0
  {
    if m.state == FactoryReset then m.(panicked := true)
    else if target == DfuCheck && c.reason != NoDfuReset then SetState(Move(m, target, c), Startup, c)
    else Move(m, target, c)
  }

  function CoreFor(phy: PhyState, busy: bool): State {
    match phy
    case PlacedInCase => InCaseIdle
    case UnknownPlace => InCaseIdle
    case OutOfEar => if busy then OutOfCaseBusy else OutOfCaseIdle
    case OutOfEarAtRest => if busy then OutOfCaseBusy else OutOfCaseIdle
    case PlacedInEar => if busy then InEarBusy else InEarIdle
  }

  function SetCore(m: Machine, busy: bool, c: Config): Machine {
    var s := CoreFor(m.phy, busy);
    if s != m.state then SetState(m, s, c) else m
  }

  function InitialEvents(r: Rules, role: Role, phy: PhyState, c: Config): Rules {
    match phy
    case PlacedInCase => Tell(r, role, SetEvent(InCaseEvent), c)
    case PlacedInEar => Tell(Tell(r, role, SetEvent(OutCaseEvent), c), role, SetEvent(InEarEvent), c)
    case UnknownPlace => r
    case _ => Tell(Tell(r, role, SetEvent(OutCaseEvent), c), role, SetEvent(OutEarEvent), c)
  }

  function SetInitialCore(m: Machine, phy: PhyState, busy: bool, c: Config): Machine {
    if phy == UnknownPlace then m.(phy := phy, panicked := true)
    else SetCore(m.(phy := phy, rules := InitialEvents(m.rules, m.role, phy, c)), busy, c)
  }

  /** The events that a new role sets in its own rule set. */
  function RoleEvents(r: Rules, role: Role, phy: PhyState, c: Config): Rules {
    var n := TellOwn(r, role, SetEvent(RoleSwitch), c);
    if phy != PlacedInCase then TellOwn(n, role, SetEvent(OutCaseEvent), c) else n
  }

  /** The role changes. In the firmware-update state the earbud keeps a role it would
      lose; a former primary that becomes secondary returns to a core state. */
  function RoleChange(m: Machine, role: Role, phy: PhyState, busy: bool, c: Config): Machine {
    match role
    case NoRole =>
      if m.state == InCaseDfu then m
      else m.(role := NoRole, rules := TellOwn(TellOwn(m.rules, Secondary, ResetAll, c), Primary, ResetAll, c))
    case Primary =>
      if c.reason == DfuReset then m.(role := Primary)
      else m.(role := Primary, rules := RoleEvents(m.rules, Primary, phy, c))
    case Secondary =>
      if c.reason == DfuReset then m.(role := Secondary)
      else
        var n := m.(role := Secondary, rules := RoleEvents(m.rules, Secondary, phy, c));
        if m.role == Primary && !Core(m.state) then SetCore(n, busy, c) else n
  }

  /** The messages that can change the state, with what the rest of the earbud answers. */
  datatype Message =
    | SystemActive
    | NoDfu(testMode: bool)
    | TestServiceEnded
    | TopologyStarted(success: bool, role: Role, phy: PhyState, busy: bool)
    | RoleChanged(role: Role, phy: PhyState, busy: bool)
    | PhyChanged(phy: PhyState, busy: bool)
    | StateProxyEvent(phy: PhyState)
    | AudioChanged(busy: bool)
    | PairingConfirmed(busy: bool)
    | SleepPrepare
    | SleepCancelled
    | ShutdownPrepare
    | ShutdownCancelled
    | RuleRuns(message: RuleMessage)
    | OtherEvent
    | PairHandset
    | EnterDfuMode(dynamicRole: bool)
    | DfuEnded
    | RequestFactoryReset
    | IdleTimeout
    | EnterDutMode

  predicate CanArrive(m: Machine, msg: Message) {
    !m.panicked && (msg.IdleTimeout? ==> m.idleTimeouts > 0)
  }

  function OnSystemActive(m: Machine, c: Config): Machine {
    match m.state
    case Initialising => SetState(m, DfuCheck, c)
    case InCaseDfu => m
    case TerminatingState => m
    case _ => m.(panicked := true)
  }

  function OnTopologyStarted(m: Machine, success: bool, role: Role, phy: PhyState, busy: bool, c: Config): Machine {
    if m.state != Startup then m
    else
      var n := SetInitialCore(m, phy, busy, c);
      if n.panicked || !success then n else RoleChange(n, role, phy, busy, c)
  }

  function OnPhyChanged(m: Machine, phy: PhyState, busy: bool, c: Config): Machine {
    var n := m.(phy := phy);
    match phy
    case UnknownPlace => n
    case PlacedInCase => if Core(n.state) || n.state == HandsetPairing then SetCore(n, busy, c) else n
    case _ => if Core(n.state) then SetCore(n, busy, c) else n
  }

  /** The message of a rule: most are acted on outside the machine and reported complete at
      once. Pairing is complete when its state is left; both firmware-update messages are
      reported as that of the primary rules; and one report reaches only these rules. */
  function OnRule(m: Machine, message: RuleMessage, c: Config): Machine {
    if message == HandsetPair then
      if m.state == OutOfCaseIdle || m.state == InEarIdle then SetState(m, HandsetPairing, c) else m
    else if message == A2dpTimeoutCancel then m.(rules := TellOwn(m.rules, Primary, Complete(message), c))
    else m.(rules := Tell(m.rules, m.role, Complete(Reported(message)), c))
  }

  function Reported(message: RuleMessage): RuleMessage {
    if message == SecEnterDfu then EnterDfu else message
  }

  function Handled(m: Machine, msg: Message, c: Config): Machine
    requires CanArrive(m, msg)
  {
    match msg
    case SystemActive => OnSystemActive(m, c)
    case NoDfu(testMode) =>
      if m.state == InCaseDfu then m else SetState(m, if testMode then DeviceTestMode else Startup, c)
    case TestServiceEnded => SetState(m, Startup, c)
    case TopologyStarted(success, role, phy, busy) => OnTopologyStarted(m, success, role, phy, busy, c)
    case RoleChanged(role, phy, busy) => RoleChange(m, role, phy, busy, c)
    case PhyChanged(phy, busy) => OnPhyChanged(m, phy, busy, c)
    case StateProxyEvent(phy) => m.(phy := phy)
    case AudioChanged(busy) => if Core(m.state) then SetCore(m, busy, c) else m
    case PairingConfirmed(busy) => if m.state == HandsetPairing then SetCore(m, busy, c) else m
    case SleepPrepare =>
      if m.state != OutOfCaseSoporific then m.(panicked := true) else SetState(m, OutOfCaseSoporificTerminating, c)
    case SleepCancelled => SetState(m, Startup, c)
    case ShutdownPrepare => SetState(m, TerminatingFor(m.state), c)
    case ShutdownCancelled => SetState(m, Startup, c)
    case RuleRuns(message) => OnRule(m, message, c)
    case OtherEvent => m.(rules := Tell(m.rules, m.role, Look, c))
    case PairHandset => if IdleState(m.state) && m.role == Primary then SetState(m, HandsetPairing, c) else m
    case EnterDfuMode(dynamicRole) => if !dynamicRole && m.state != InCaseDfu then SetState(m, InCaseDfu, c) else m
    case DfuEnded => if m.state == InCaseDfu then SetState(m, Startup, c) else m
    case RequestFactoryReset => if FromStartup(m.state) then SetState(m, FactoryReset, c) else m
    case IdleTimeout =>
      var n := m.(idleTimeouts := m.idleTimeouts - 1);
      if n.state != OutOfCaseIdle then n.(panicked := true) else SetState(n, OutOfCaseSoporific, c)
    case EnterDutMode => SetState(m, OutOfCaseIdle, c)
  }

  /** A message that cannot arrive changes nothing. */
  function Step(m: Machine, msg: Message, c: Config): Machine {
    if CanArrive(m, msg) then Handled(m, msg, c) else m
  }

  const PoweredOff := Machine(Null, UnknownPlace, NoRole, Rules(map[], map[], map[]), 0, false, false)

  /** The machine after initialisation, wherever the earbud is. */
  function Initialised(phy: PhyState, c: Config): Machine {
    SetState(PoweredOff.(phy := phy), Initialising, c)
  }

  /** A message with what is answered while it is handled. */
  datatype Input = Input(msg: Message, reason: Reason, primaryRuns: RuleChoice, secondaryRuns: RuleChoice,
                         peerPairing: bool) {
    function With(product: Product): Config {
      Config(product, reason, primaryRuns, secondaryRuns, peerPairing)
    }
  }

  function Run(phy: PhyState, ins: seq<Input>, product: Product): Machine {
    if ins == [] then Initialised(phy, Config(product, NoDfuReset, {}, {}, false))
    else
      var i := ins[|ins| - 1];
      Step(Run(phy, ins[..|ins| - 1], product), i.msg, i.With(product))
  }

  /** The events that are set in a rule set. */
  function EventsIn(s: EventSet, table: Table): set<RuleEvent> {
    set e: RuleEvent | EntryIn(s, table, e).held
  }

  /** The common rules: the in-case event is set exactly as said; the in-ear event at most
      in the ear; and no event is set together with its opposite. */
  predicate Between(events: set<RuleEvent>, inCase: bool, inEar: bool, earLeds: bool) {
    && (InCaseEvent in events <==> inCase)
    && (InEarEvent in events ==> inEar && !earLeds)
    && (OutEarEvent in events ==> !earLeds)
    && !Opposites(events)
  }

  /** An event is set together with its opposite. */
  predicate Opposites(events: set<RuleEvent>) {
    (InCaseEvent in events && OutCaseEvent in events) || (InEarEvent in events && OutEarEvent in events)
  }

  /** In the common rules these events are set, each with its one rule in progress if it has
      one, and the others are fresh. */
  predicate Sets(common: EventSet, events: set<RuleEvent>) {
    forall e: RuleEvent {:trigger CommonEntry(events, e)} :: EntryIn(common, CommonTable, e) == CommonEntry(events, e)
  }

  function CommonEntry(events: set<RuleEvent>, e: RuleEvent): Entry {
    EntryAt(CommonAt(events, e), |RulesFor(CommonTable, e)|)
  }

  function CommonAt(events: set<RuleEvent>, e: RuleEvent): Option<nat> {
    if e in events then Some(0) else None
  }

  function CommonEvents(common: EventSet): set<RuleEvent> {
    EventsIn(common, CommonTable)
  }

  /** The common rule events follow the state. */
  predicate EventsFollow(common: EventSet, s: State, earLeds: bool) {
    Sets(common, CommonEvents(common)) && Between(CommonEvents(common), InCase(s), InEar(s), earLeds)
  }

  /** What holds after every message in every role history: the common rule events follow
      the state, one idle timeout is pending exactly in the idle state out of the case,
      and sleep is allowed exactly in the sleepy states. */
  predicate Inv(m: Machine, product: Product) {
    m.panicked || Holds(m, product)
  }

  predicate Holds(m: Machine, product: Product) {
    && EventsFollow(m.rules.common, m.state, product.earLeds)
    && m.idleTimeouts == (if m.state == OutOfCaseIdle && product.idleTimeout then 1 else 0)
    && (m.sleepAllowed <==> Sleepy(m.state))
  }

  /** One event set in place of its opposite, seen in one rule set. */
  function Exchanged(s: EventSet, table: Table, answers: RuleAnswers, go: bool, off: RuleEvent, on: RuleEvent)
    : EventSet
  {
    if go then Told(Told(s, table, ResetEvent(off), answers), table, SetEvent(on), answers) else s
  }

  function Unpaired(s: EventSet, table: Table, answers: RuleAnswers, from: State): EventSet {
    if from == HandsetPairing then Told(s, table, Complete(HandsetPair), answers) else s
  }

  function Left(s: EventSet, table: Table, answers: RuleAnswers, from: State, to: State): EventSet {
    Exchanged(Exchanged(s, table, answers, InCase(from) && !InCase(to), InCaseEvent, OutCaseEvent),
              table, answers, InEar(from) && !InEar(to), InEarEvent, OutEarEvent)
  }

  function Entered(s: EventSet, table: Table, answers: RuleAnswers, from: State, to: State): EventSet {
    Exchanged(Exchanged(s, table, answers, !InCase(from) && InCase(to), OutCaseEvent, InCaseEvent),
              table, answers, !InEar(from) && InEar(to), OutEarEvent, InEarEvent)
  }

  /** What a change of state makes of one rule set that hears of it. */
  function SetAfter(s: EventSet, table: Table, answers: RuleAnswers, from: State, to: State): EventSet {
    Entered(Left(Unpaired(s, table, answers, from), table, answers, from, to), table, answers, from, to)
  }

  /** The rule set that belongs to a role, its table and its answers. */
  function Own(r: Rules, role: Role): EventSet {
    match role case NoRole => r.common case Primary => r.primary case Secondary => r.secondary
  }

  function OwnTable(role: Role): Table {
    match role case NoRole => CommonTable case Primary => PrimaryTable case Secondary => SecondaryTable
  }

  /** The common rules hear of every change of state, and so do the rules of the current
      role, of the same events in the same order; those of another role hear nothing. */
  lemma OwnRulesHear(r: Rules, role: Role, from: State, to: State, c: Config, own: Role)
    ensures Own(RulesAfter(r, role, from, to, c), own) ==
      if own == NoRole || own == role then SetAfter(Own(r, own), OwnTable(own), OwnAnswers(own, c), from, to)
      else Own(r, own)
  {
    var a := LeavePairing(r, role, from, c);
    var b := LeaveParents(a, role, from, to, c);
    PairingHeard(r, role, from, c, own);
    LeaveHeard(a, role, from, to, c, own);
    EnterHeard(b, role, from, to, c, own);
  }

  predicate Hears(own: Role, role: Role) {
    own == NoRole || own == role
  }

  lemma TellHeard(r: Rules, role: Role, call: Call<RuleEvent, RuleMessage>, c: Config, own: Role)
    ensures Own(Tell(r, role, call, c), own) ==
      if Hears(own, role) then Told(Own(r, own), OwnTable(own), call, OwnAnswers(own, c)) else Own(r, own)
  {
  }

  lemma ExchangeHeard(r: Rules, role: Role, go: bool, off: RuleEvent, on: RuleEvent, c: Config, own: Role)
    ensures Own(Exchange(r, role, go, off, on, c), own) ==
      if Hears(own, role) then Exchanged(Own(r, own), OwnTable(own), OwnAnswers(own, c), go, off, on) else Own(r, own)
  {
    TellHeard(r, role, ResetEvent(off), c, own);
    TellHeard(Tell(r, role, ResetEvent(off), c), role, SetEvent(on), c, own);
  }

  lemma PairingHeard(r: Rules, role: Role, from: State, c: Config, own: Role)
    ensures Own(LeavePairing(r, role, from, c), own) ==
      if Hears(own, role) then Unpaired(Own(r, own), OwnTable(own), OwnAnswers(own, c), from) else Own(r, own)
  {
    TellHeard(r, role, Complete(HandsetPair), c, own);
  }

  lemma LeaveHeard(r: Rules, role: Role, from: State, to: State, c: Config, own: Role)
    ensures Own(LeaveParents(r, role, from, to, c), own) ==
      if Hears(own, role) then Left(Own(r, own), OwnTable(own), OwnAnswers(own, c), from, to) else Own(r, own)
  {
    var go := InCase(from) && !InCase(to);
    ExchangeHeard(r, role, go, InCaseEvent, OutCaseEvent, c, own);
    ExchangeHeard(Exchange(r, role, go, InCaseEvent, OutCaseEvent, c),
                  role, InEar(from) && !InEar(to), InEarEvent, OutEarEvent, c, own);
  }

  lemma EnterHeard(r: Rules, role: Role, from: State, to: State, c: Config, own: Role)
    ensures Own(EnterParents(r, role, from, to, c), own) ==
      if Hears(own, role) then Entered(Own(r, own), OwnTable(own), OwnAnswers(own, c), from, to) else Own(r, own)
  {
    var go := !InCase(from) && InCase(to);
    ExchangeHeard(r, role, go, OutCaseEvent, InCaseEvent, c, own);
    ExchangeHeard(Exchange(r, role, go, OutCaseEvent, InCaseEvent, c),
                  role, !InEar(from) && InEar(to), OutEarEvent, InEarEvent, c, own);
  }

  /** An event of the common rules stays set when it is set, unless its LED rule is
      ignored. */
  function Put(events: set<RuleEvent>, e: RuleEvent, holds: bool): set<RuleEvent> {
    if holds then events + {e} else events
  }

  predicate StaysSet(e: RuleEvent, earLeds: bool) {
    (e != InEarEvent && e != OutEarEvent) || !earLeds
  }

  /** What a call makes of the common events: a handled LED message clears the event whose
      rule has sent it, and nothing else. */
  function CommonTold(events: set<RuleEvent>, call: Call<RuleEvent, RuleMessage>, earLeds: bool): set<RuleEvent> {
    match call
    case SetEvent(e) => Put(events, e, StaysSet(e, earLeds))
    case ResetEvent(e) => events - {e}
    case ResetAll => {}
    case Look => events
    case Complete(m) =>
      events - (if m == LedDisable then {InEarEvent} else if m == LedEnable then {OutEarEvent} else {})
  }

  lemma CommonActs(e: RuleEvent, earLeds: bool)
    ensures var acts := Acts(CommonTable, e, CommonAnswers(earLeds));
      && Prompt(acts)
      && acts == if e == InEarEvent || e == OutEarEvent then [if earLeds then Ignore else Start] else []
  {
  }

  lemma CommonMoves(events: set<RuleEvent>, call: Call<RuleEvent, RuleMessage>, earLeds: bool, e: RuleEvent)
    ensures
      Moved(CommonAt(events, e), RulesFor(CommonTable, e), Acts(CommonTable, e, CommonAnswers(earLeds)), call, e) ==
      CommonAt(CommonTold(events, call, earLeds), e)
  {
    CommonActs(e, earLeds);
  }

  lemma ToldCommon(common: EventSet, events: set<RuleEvent>, call: Call<RuleEvent, RuleMessage>, earLeds: bool)
    requires Sets(common, events)
    ensures Sets(Told(common, CommonTable, call, CommonAnswers(earLeds)), CommonTold(events, call, earLeds))
  {
    forall e: RuleEvent
      ensures EntryIn(Told(common, CommonTable, call, CommonAnswers(earLeds)), CommonTable, e) ==
        CommonEntry(CommonTold(events, call, earLeds), e)
    {
      var acts := Acts(CommonTable, e, CommonAnswers(earLeds));
      CommonActs(e, earLeds);
      ToldEntry(common, CommonTable, call, CommonAnswers(earLeds), e);
      assert EntryIn(common, CommonTable, e) == CommonEntry(events, e);
      HeedsMoves(CommonAt(events, e), RulesFor(CommonTable, e), acts, call, e);
      CommonMoves(events, call, earLeds, e);
    }
  }

  lemma SetsExactly(common: EventSet, events: set<RuleEvent>)
    requires Sets(common, events)
    ensures CommonEvents(common) == events
  {
    forall e: RuleEvent ensures e in CommonEvents(common) <==> e in events {
      assert EntryIn(common, CommonTable, e) == CommonEntry(events, e);
    }
  }

  /** The common events after leaving and entering, by whether the old and the new state are
      in the case and in the ear. */
  function SwappedOut(s: set<RuleEvent>, leaveCase: bool, leaveEar: bool, holds: bool): set<RuleEvent> {
    var t := if leaveCase then Put(s - {InCaseEvent}, OutCaseEvent, true) else s;
    if leaveEar then Put(t - {InEarEvent}, OutEarEvent, holds) else t
  }

  function SwappedIn(s: set<RuleEvent>, enterCase: bool, enterEar: bool, holds: bool): set<RuleEvent> {
    var t := if enterCase then Put(s - {OutCaseEvent}, InCaseEvent, true) else s;
    if enterEar then Put(t - {OutEarEvent}, InEarEvent, holds) else t
  }

  lemma LeaveSets(s: set<RuleEvent>, case0: bool, ear0: bool, case1: bool, ear1: bool, earLeds: bool)
    requires Between(s, case0, ear0, earLeds)
    ensures var t := SwappedOut(s, case0 && !case1, ear0 && !ear1, !earLeds);
      && Between(t, case0 && case1, ear0 && ear1, earLeds)
      && (InEarEvent in t <==> InEarEvent in s && ear1)
  {
  }

  lemma EnterSets(s: set<RuleEvent>, case0: bool, ear0: bool, case1: bool, ear1: bool, earLeds: bool)
    requires Between(s, case0 && case1, ear0 && ear1, earLeds)
    ensures var t := SwappedIn(s, !case0 && case1, !ear0 && ear1, !earLeds);
      && Between(t, case1, ear1, earLeds)
      && (InEarEvent in t <==> InEarEvent in s || (!ear0 && ear1 && !earLeds))
  {
  }

  lemma ExchangedCommon(common: EventSet, s: set<RuleEvent>, go: bool, off: RuleEvent, on: RuleEvent, earLeds: bool)
    requires Sets(common, s)
    ensures Sets(Exchanged(common, CommonTable, CommonAnswers(earLeds), go, off, on),
                 if go then Put(s - {off}, on, StaysSet(on, earLeds)) else s)
  {
    var answers := CommonAnswers(earLeds);
    ToldCommon(common, s, ResetEvent(off), earLeds);
    ToldCommon(Told(common, CommonTable, ResetEvent(off), answers), s - {off}, SetEvent(on), earLeds);
  }

  lemma LeftSwaps(common: EventSet, s: set<RuleEvent>, from: State, to: State, leaveCase: bool, leaveEar: bool,
                  earLeds: bool)
    requires Sets(common, s)
    requires leaveCase == (InCase(from) && !InCase(to)) && leaveEar == (InEar(from) && !InEar(to))
    ensures Sets(Left(common, CommonTable, CommonAnswers(earLeds), from, to),
                 SwappedOut(s, leaveCase, leaveEar, !earLeds))
  {
    var t := Exchanged(common, CommonTable, CommonAnswers(earLeds), leaveCase, InCaseEvent, OutCaseEvent);
    ExchangedCommon(common, s, leaveCase, InCaseEvent, OutCaseEvent, earLeds);
    ExchangedCommon(t, SwappedOut(s, leaveCase, false, !earLeds), leaveEar, InEarEvent, OutEarEvent, earLeds);
  }

  lemma EnteredSwaps(common: EventSet, s: set<RuleEvent>, from: State, to: State, enterCase: bool, enterEar: bool,
                     earLeds: bool)
    requires Sets(common, s)
    requires enterCase == (!InCase(from) && InCase(to)) && enterEar == (!InEar(from) && InEar(to))
    ensures Sets(Entered(common, CommonTable, CommonAnswers(earLeds), from, to),
                 SwappedIn(s, enterCase, enterEar, !earLeds))
  {
    var t := Exchanged(common, CommonTable, CommonAnswers(earLeds), enterCase, OutCaseEvent, InCaseEvent);
    ExchangedCommon(common, s, enterCase, OutCaseEvent, InCaseEvent, earLeds);
    ExchangedCommon(t, SwappedIn(s, enterCase, false, !earLeds), enterEar, OutEarEvent, InEarEvent, earLeds);
  }

  /** The in-ear event after a change of state: set on entry, and then as it was. */
  predicate EarFollows(before: EventSet, from: State, after: EventSet, to: State, earLeds: bool) {
    InEarEvent in CommonEvents(after) <==>
    InEar(to) && !earLeds && (InEar(from) ==> InEarEvent in CommonEvents(before))
  }

  lemma UnpairedCommon(common: EventSet, s: set<RuleEvent>, from: State, earLeds: bool)
    requires Sets(common, s)
    ensures Sets(Unpaired(common, CommonTable, CommonAnswers(earLeds), from), s)
  {
    ToldCommon(common, s, Complete(HandsetPair), earLeds);
    assert CommonTold(s, Complete(HandsetPair), earLeds) == s;
  }

  lemma SwapsFollow(s: set<RuleEvent>, case0: bool, ear0: bool, case1: bool, ear1: bool, earLeds: bool)
    requires Between(s, case0, ear0, earLeds)
    ensures var t := SwappedIn(SwappedOut(s, case0 && !case1, ear0 && !ear1, !earLeds),
                               !case0 && case1, !ear0 && ear1, !earLeds);
      && Between(t, case1, ear1, earLeds)
      && (InEarEvent in t <==> ear1 && !earLeds && (ear0 ==> InEarEvent in s))
  {
    LeaveSets(s, case0, ear0, case1, ear1, earLeds);
    EnterSets(SwappedOut(s, case0 && !case1, ear0 && !ear1, !earLeds), case0, ear0, case1, ear1, earLeds);
  }

  lemma CommonSetAfter(common: EventSet, s: set<RuleEvent>, from: State, to: State,
                       case0: bool, ear0: bool, case1: bool, ear1: bool, earLeds: bool)
    requires Sets(common, s)
    requires case0 == InCase(from) && ear0 == InEar(from) && case1 == InCase(to) && ear1 == InEar(to)
    ensures Sets(SetAfter(common, CommonTable, CommonAnswers(earLeds), from, to),
                 SwappedIn(SwappedOut(s, case0 && !case1, ear0 && !ear1, !earLeds),
                           !case0 && case1, !ear0 && ear1, !earLeds))
  {
    var answers := CommonAnswers(earLeds);
    var a := Unpaired(common, CommonTable, answers, from);
    UnpairedCommon(common, s, from, earLeds);
    LeftSwaps(a, s, from, to, case0 && !case1, ear0 && !ear1, earLeds);
    EnteredSwaps(Left(a, CommonTable, answers, from, to), SwappedOut(s, case0 && !case1, ear0 && !ear1, !earLeds),
                 from, to, !case0 && case1, !ear0 && ear1, earLeds);
  }

  lemma CommonAfter(common: EventSet, from: State, to: State, earLeds: bool)
    requires EventsFollow(common, from, earLeds)
    ensures var t := SetAfter(common, CommonTable, CommonAnswers(earLeds), from, to);
      EventsFollow(t, to, earLeds) && EarFollows(common, from, t, to, earLeds)
  {
    var s, case0, ear0, case1, ear1 := CommonEvents(common), InCase(from), InEar(from), InCase(to), InEar(to);
    CommonSetAfter(common, s, from, to, case0, ear0, case1, ear1, earLeds);
    SwapsFollow(s, case0, ear0, case1, ear1, earLeds);
    SetsExactly(SetAfter(common, CommonTable, CommonAnswers(earLeds), from, to),
                SwappedIn(SwappedOut(s, case0 && !case1, ear0 && !ear1, !earLeds),
                           !case0 && case1, !ear0 && ear1, !earLeds));
  }

  lemma RulesAfterFollow(r: Rules, role: Role, from: State, to: State, c: Config)
    requires EventsFollow(r.common, from, c.product.earLeds)
    ensures var t := RulesAfter(r, role, from, to, c).common;
      EventsFollow(t, to, c.product.earLeds) && EarFollows(r.common, from, t, to, c.product.earLeds)
  {
    OwnRulesHear(r, role, from, to, c, NoRole);
    CommonAfter(r.common, from, to, c.product.earLeds);
  }

  lemma SleepFollows(allowed: bool, from: State, to: State)
    requires allowed <==> Sleepy(from)
    ensures SleepAfter(allowed, from, to) <==> Sleepy(to)
  {
  }

  /** What a change of state needs; the idle timeout that causes it may already have been
      taken out of the queue. */
  predicate Ready(m: Machine, product: Product) {
    && EventsFollow(m.rules.common, m.state, product.earLeds) && (m.sleepAllowed <==> Sleepy(m.state))
    && m.idleTimeouts <= (if m.state == OutOfCaseIdle && product.idleTimeout then 1 else 0)
  }

  /** The in-ear event of n is that of m, unless the earbud has just entered the ear. */
  predicate EarKept(m: Machine, n: Machine, product: Product) {
    EarFollows(m.rules.common, m.state, n.rules.common, n.state, product.earLeds)
  }

  lemma MoveKeeps(m: Machine, t: State, c: Config)
    requires Ready(m, c.product)
    ensures Holds(Move(m, t, c), c.product) && EarKept(m, Move(m, t, c), c.product)
  {
    RulesAfterFollow(m.rules, m.role, m.state, t, c);
    SleepFollows(m.sleepAllowed, m.state, t);
  }

  /** Every change of state keeps the invariant, and unless it leaves the factory reset
      it reaches its target, or the start-up state behind a firmware-update check. */
  lemma SetStateKeeps(m: Machine, t: State, c: Config)
    requires Ready(m, c.product) && !m.panicked
    ensures var n := SetState(m, t, c);
      && Inv(n, c.product) && n.phy == m.phy && n.role == m.role
      && (n.panicked <==> m.state == FactoryReset)
      && (!n.panicked ==> EarKept(m, n, c.product))
      && (!n.panicked ==> n.state == if t == DfuCheck && c.reason != NoDfuReset then Startup else t)
    decreases if t == DfuCheck then 1 else 0
  {
    if m.state != FactoryReset {
      MoveKeeps(m, t, c);
      if t == DfuCheck && c.reason != NoDfuReset {
        SetStateKeeps(Move(m, t, c), Startup, c);
      }
    }
  }

  lemma SetCoreKeeps(m: Machine, busy: bool, c: Config)
    requires Holds(m, c.product) && !m.panicked
    ensures var n := SetCore(m, busy, c);
      && Inv(n, c.product)
      && (n.panicked <==> m.state == FactoryReset)
      && (!n.panicked ==> EarKept(m, n, c.product))
      && (!n.panicked ==> n.state == CoreFor(m.phy, busy) && n.role == m.role && n.phy == m.phy)
  {
    SetStateKeeps(m, CoreFor(m.phy, busy), c);
  }

  /** Where the core states are. */
  lemma CorePlaces(phy: PhyState, busy: bool)
    ensures var s := CoreFor(phy, busy);
      && (InCase(s) <==> phy == PlacedInCase || phy == UnknownPlace)
      && (InEar(s) <==> phy == PlacedInEar)
      && (Busy(s) <==> busy && !InCase(s))
      && !Sleepy(s) && Core(s)
  {
  }

  lemma InitialSets(s: set<RuleEvent>, phy: PhyState, inCase: bool, inEar: bool, earLeds: bool)
    requires Between(s, false, false, earLeds) && phy != UnknownPlace
    requires (inCase <==> phy == PlacedInCase) && (inEar <==> phy == PlacedInEar)
    ensures var t := SwappedIn(InitialPut(s, phy, !earLeds), inCase, inEar, !earLeds);
      Between(t, inCase, inEar, earLeds) && (InEarEvent in t <==> inEar && !earLeds)
  {
  }

  /** The common events after the initial events. */
  function InitialPut(s: set<RuleEvent>, phy: PhyState, holds: bool): set<RuleEvent> {
    match phy
    case PlacedInCase => Put(s, InCaseEvent, true)
    case PlacedInEar => Put(Put(s, OutCaseEvent, true), InEarEvent, holds)
    case UnknownPlace => s
    case _ => Put(Put(s, OutCaseEvent, true), OutEarEvent, holds)
  }

  lemma InitialCommon(r: Rules, s: set<RuleEvent>, role: Role, phy: PhyState, c: Config)
    requires Sets(r.common, s)
    ensures Sets(InitialEvents(r, role, phy, c).common, InitialPut(s, phy, !c.product.earLeds))
  {
    if phy == PlacedInCase {
      TellCommon(r, s, role, SetEvent(InCaseEvent), c);
    } else if phy != UnknownPlace {
      TellTwo(r, s, role, if phy == PlacedInEar then InEarEvent else OutEarEvent, c);
    }
  }

  lemma TellCommon(r: Rules, s: set<RuleEvent>, role: Role, call: Call<RuleEvent, RuleMessage>, c: Config)
    requires Sets(r.common, s)
    ensures Sets(Tell(r, role, call, c).common, CommonTold(s, call, c.product.earLeds))
  {
    TellHeard(r, role, call, c, NoRole);
    ToldCommon(r.common, s, call, c.product.earLeds);
  }

  lemma TellTwo(r: Rules, s: set<RuleEvent>, role: Role, e: RuleEvent, c: Config)
    requires Sets(r.common, s)
    ensures Sets(Tell(Tell(r, role, SetEvent(OutCaseEvent), c), role, SetEvent(e), c).common,
                 Put(Put(s, OutCaseEvent, true), e, StaysSet(e, c.product.earLeds)))
  {
    TellCommon(r, s, role, SetEvent(OutCaseEvent), c);
    TellCommon(Tell(r, role, SetEvent(OutCaseEvent), c), Put(s, OutCaseEvent, true), role, SetEvent(e), c);
  }

  /** Nothing is left when the state moves on from start-up. */
  lemma FromStartupCommon(common: EventSet, s: set<RuleEvent>, t: State, earLeds: bool)
    requires Sets(common, s)
    ensures Sets(SetAfter(common, CommonTable, CommonAnswers(earLeds), Startup, t),
                 SwappedIn(s, InCase(t), InEar(t), !earLeds))
  {
    CommonSetAfter(common, s, Startup, t, false, false, InCase(t), InEar(t), earLeds);
  }

  /** The common rules after start-up. */
  lemma InitialFollow(r: Rules, role: Role, phy: PhyState, busy: bool, c: Config)
    requires EventsFollow(r.common, Startup, c.product.earLeds) && phy != UnknownPlace
    ensures var n := RulesAfter(InitialEvents(r, role, phy, c), role, Startup, CoreFor(phy, busy), c).common;
      EventsFollow(n, CoreFor(phy, busy), c.product.earLeds)
      && EarFollows(r.common, Startup, n, CoreFor(phy, busy), c.product.earLeds)
  {
    var s, t, k, leds := CommonEvents(r.common), CoreFor(phy, busy), InitialEvents(r, role, phy, c), c.product.earLeds;
    CorePlaces(phy, busy);
    InitialCommon(r, s, role, phy, c);
    InitialSets(s, phy, InCase(t), InEar(t), leds);
    OwnRulesHear(k, role, Startup, t, c, NoRole);
    FromStartupCommon(k.common, InitialPut(s, phy, !leds), t, leds);
    SetsExactly(SetAfter(k.common, CommonTable, CommonAnswers(leds), Startup, t),
                SwappedIn(InitialPut(s, phy, !leds), InCase(t), InEar(t), !leds));
  }

  /** The start-up state sets the events of the place before the state follows. */
  lemma InitialKeeps(m: Machine, phy: PhyState, busy: bool, c: Config)
    requires m.state == Startup && Holds(m, c.product) && !m.panicked
    ensures var n := SetInitialCore(m, phy, busy, c);
      && (n.panicked <==> phy == UnknownPlace)
      && (!n.panicked ==> Holds(n, c.product) && n.state == CoreFor(phy, busy) && n.role == m.role && n.phy == phy)
      && (!n.panicked ==> EarKept(m, n, c.product))
  {
    if phy != UnknownPlace {
      var t := CoreFor(phy, busy);
      CorePlaces(phy, busy);
      InitialFollow(m.rules, m.role, phy, busy, c);
      SleepFollows(m.sleepAllowed, Startup, t);
      var a := m.(phy := phy, rules := InitialEvents(m.rules, m.role, phy, c));
      assert SetState(a, t, c) == Move(a, t, c);
    }
  }

  lemma TellOwnCommon(r: Rules, role: Role, call: Call<RuleEvent, RuleMessage>, c: Config)
    ensures role != NoRole ==> TellOwn(r, role, call, c).common == r.common
  {
  }

  lemma RoleEventsCommon(r: Rules, role: Role, phy: PhyState, c: Config)
    requires role != NoRole
    ensures RoleEvents(r, role, phy, c).common == r.common
  {
    TellOwnCommon(r, role, SetEvent(RoleSwitch), c);
    TellOwnCommon(TellOwn(r, role, SetEvent(RoleSwitch), c), role, SetEvent(OutCaseEvent), c);
  }

  lemma RoleChangeKeeps(m: Machine, role: Role, phy: PhyState, busy: bool, c: Config)
    requires Holds(m, c.product) && !m.panicked
    ensures var n := RoleChange(m, role, phy, busy, c);
      && Inv(n, c.product) && (!n.panicked ==> EarKept(m, n, c.product))
      && (n.panicked <==> m.state == FactoryReset && m.role == Primary && role == Secondary && c.reason != DfuReset)
  {
    if role != NoRole { RoleEventsCommon(m.rules, role, phy, c); }
    if role == Secondary && c.reason != DfuReset {
      SetCoreKeeps(m.(role := Secondary, rules := RoleEvents(m.rules, Secondary, phy, c)), busy, c);
    }
  }

  /** A message that changes the state whatever it is. */
  predicate Unconditional(msg: Message) {
    match msg
    case NoDfu(_) => true
    case TestServiceEnded => true
    case SleepCancelled => true
    case ShutdownPrepare => true
    case ShutdownCancelled => true
    case EnterDfuMode(dynamicRole) => !dynamicRole
    case EnterDutMode => true
    case _ => false
  }

  /** The messages that are not expected where they arrive. */
  predicate Fatal(m: Machine, msg: Message, c: Config) {
    match msg
    case SystemActive => m.state !in {Initialising, InCaseDfu, TerminatingState}
    case TopologyStarted(_, _, phy, _) => m.state == Startup && phy == UnknownPlace
    case RoleChanged(role, _, _) =>
      m.state == FactoryReset && m.role == Primary && role == Secondary && c.reason != DfuReset
    case SleepPrepare => m.state != OutOfCaseSoporific
    case _ => m.state == FactoryReset && Unconditional(msg)
  }

  /** What one message keeps: the invariant, and the in-ear event but for its handled
      message. */
  predicate Kept(m: Machine, n: Machine, product: Product) {
    Inv(n, product) && (!n.panicked ==> EarKept(m, n, product))
  }

  lemma TopologyStartedKeeps(m: Machine, success: bool, role: Role, phy: PhyState, busy: bool, c: Config)
    requires Holds(m, c.product) && !m.panicked
    ensures Kept(m, OnTopologyStarted(m, success, role, phy, busy, c), c.product)
    ensures OnTopologyStarted(m, success, role, phy, busy, c).panicked <==> m.state == Startup && phy == UnknownPlace
  {
    if m.state == Startup {
      InitialKeeps(m, phy, busy, c);
      CorePlaces(phy, busy);
      var n := SetInitialCore(m, phy, busy, c);
      if !n.panicked && success {
        RoleChangeKeeps(n, role, phy, busy, c);
        CoreStays(n, role, phy, busy, c);
      }
    }
  }

  /** A role change in a core state does not move on. */
  lemma CoreStays(m: Machine, role: Role, phy: PhyState, busy: bool, c: Config)
    requires Core(m.state)
    ensures RoleChange(m, role, phy, busy, c).state == m.state
  {
  }

  lemma PhyChangedKeeps(m: Machine, phy: PhyState, busy: bool, c: Config)
    requires Holds(m, c.product) && !m.panicked
    ensures Kept(m, OnPhyChanged(m, phy, busy, c), c.product) && !OnPhyChanged(m, phy, busy, c).panicked
  {
    SetCoreKeeps(m.(phy := phy), busy, c);
  }

  lemma SystemActiveKeeps(m: Machine, c: Config)
    requires Holds(m, c.product) && !m.panicked
    ensures Kept(m, OnSystemActive(m, c), c.product)
    ensures OnSystemActive(m, c).panicked <==> m.state !in {Initialising, InCaseDfu, TerminatingState}
  {
    if m.state == Initialising { SetStateKeeps(m, DfuCheck, c); }
  }

  /** A handled message of a rule clears at most the event of its rule. */
  lemma CompletionKeeps(m: Machine, message: RuleMessage, c: Config)
    requires Holds(m, c.product) && !m.panicked
    ensures var n := m.(rules := Tell(m.rules, m.role, Complete(message), c));
      && Holds(n, c.product)
      && (InEarEvent in CommonEvents(n.rules.common) <==>
            InEarEvent in CommonEvents(m.rules.common) && message != LedDisable)
  {
    var s := CommonEvents(m.rules.common);
    TellCommon(m.rules, s, m.role, Complete(message), c);
    SetsExactly(Tell(m.rules, m.role, Complete(message), c).common,
                CommonTold(s, Complete(message), c.product.earLeds));
  }

  lemma RuleKeeps(m: Machine, message: RuleMessage, c: Config)
    requires Holds(m, c.product) && !m.panicked
    ensures var n := OnRule(m, message, c);
      && Inv(n, c.product) && !n.panicked
      && (if message == LedDisable then InEarEvent !in CommonEvents(n.rules.common) && n.state == m.state
          else EarKept(m, n, c.product))
  {
    if message == HandsetPair {
      SetStateKeeps(m, HandsetPairing, c);
    } else if message == A2dpTimeoutCancel {
      TellOwnCommon(m.rules, Primary, Complete(message), c);
    } else {
      CompletionKeeps(m, Reported(message), c);
    }
  }

  /** Looking at the rules again leaves the common ones as they are. */
  lemma OtherEventKeeps(m: Machine, c: Config)
    requires Holds(m, c.product) && !m.panicked
    ensures Sound(m, OtherEvent, m.(rules := Tell(m.rules, m.role, Look, c)), c)
  {
    var s := CommonEvents(m.rules.common);
    TellCommon(m.rules, s, m.role, Look, c);
    SetsExactly(Tell(m.rules, m.role, Look, c).common, s);
  }

  /** What is known of the machine after one message. */
  predicate Sound(m: Machine, msg: Message, n: Machine, c: Config) {
    && Inv(n, c.product)
    && (n.panicked <==> Fatal(m, msg, c))
    && (if msg == RuleRuns(LedDisable) then InEarEvent !in CommonEvents(n.rules.common) && n.state == m.state
        else !n.panicked ==> EarKept(m, n, c.product))
  }

  predicate PowerMessage(msg: Message) {
    msg.SleepPrepare? || msg.SleepCancelled? || msg.ShutdownPrepare? || msg.ShutdownCancelled?
  }

  predicate DfuMessage(msg: Message) {
    msg.NoDfu? || msg.EnterDfuMode? || msg.DfuEnded?
  }

  lemma StateSound(m: Machine, msg: Message, t: State, c: Config)
    requires Holds(m, c.product) && !m.panicked && !msg.RuleRuns?
    requires Fatal(m, msg, c) <==> m.state == FactoryReset
    ensures Sound(m, msg, SetState(m, t, c), c)
  {
    SetStateKeeps(m, t, c);
  }

  lemma NothingSound(m: Machine, msg: Message, c: Config)
    requires Holds(m, c.product) && !m.panicked && !msg.RuleRuns? && !Fatal(m, msg, c)
    ensures Sound(m, msg, m, c)
  {
  }

  lemma PowerKeeps(m: Machine, msg: Message, c: Config)
    requires Holds(m, c.product) && CanArrive(m, msg) && PowerMessage(msg)
    ensures Sound(m, msg, Handled(m, msg, c), c)
  {
    if msg.SleepPrepare? {
      SetStateKeeps(m, OutOfCaseSoporificTerminating, c);
    } else if msg.ShutdownPrepare? {
      StateSound(m, msg, TerminatingFor(m.state), c);
    } else {
      StateSound(m, msg, Startup, c);
    }
  }

  lemma NoDfuKeeps(m: Machine, testMode: bool, c: Config)
    requires Holds(m, c.product) && !m.panicked
    ensures Sound(m, NoDfu(testMode), Handled(m, NoDfu(testMode), c), c)
  {
    if m.state == InCaseDfu {
      NothingSound(m, NoDfu(testMode), c);
    } else {
      StateSound(m, NoDfu(testMode), if testMode then DeviceTestMode else Startup, c);
    }
  }

  lemma EnterDfuKeeps(m: Machine, dynamicRole: bool, c: Config)
    requires Holds(m, c.product) && !m.panicked
    ensures Sound(m, EnterDfuMode(dynamicRole), Handled(m, EnterDfuMode(dynamicRole), c), c)
  {
    if dynamicRole || m.state == InCaseDfu {
      NothingSound(m, EnterDfuMode(dynamicRole), c);
    } else {
      StateSound(m, EnterDfuMode(dynamicRole), InCaseDfu, c);
    }
  }

  lemma DfuEndedKeeps(m: Machine, c: Config)
    requires Holds(m, c.product) && !m.panicked
    ensures Sound(m, DfuEnded, Handled(m, DfuEnded, c), c)
  {
    if m.state == InCaseDfu { StateSound(m, DfuEnded, Startup, c); } else { NothingSound(m, DfuEnded, c); }
  }

  lemma DfuKeeps(m: Machine, msg: Message, c: Config)
    requires Holds(m, c.product) && CanArrive(m, msg) && DfuMessage(msg)
    ensures Sound(m, msg, Handled(m, msg, c), c)
  {
    if msg.NoDfu? {
      NoDfuKeeps(m, msg.testMode, c);
    } else if msg.EnterDfuMode? {
      EnterDfuKeeps(m, msg.dynamicRole, c);
    } else {
      DfuEndedKeeps(m, c);
    }
  }

  lemma UserKeeps(m: Machine, msg: Message, c: Config)
    requires Holds(m, c.product) && CanArrive(m, msg)
    requires msg.PairHandset? || msg.RequestFactoryReset? || msg.EnterDutMode? || msg.TestServiceEnded?
    ensures Sound(m, msg, Handled(m, msg, c), c)
  {
    if msg.PairHandset? {
      if IdleState(m.state) && m.role == Primary {
        StateSound(m, msg, HandsetPairing, c);
      } else {
        NothingSound(m, msg, c);
      }
    } else if msg.RequestFactoryReset? {
      if FromStartup(m.state) { StateSound(m, msg, FactoryReset, c); } else { NothingSound(m, msg, c); }
    } else if msg.EnterDutMode? {
      StateSound(m, msg, OutOfCaseIdle, c);
    } else {
      StateSound(m, msg, Startup, c);
    }
  }

  lemma PlaceKeeps(m: Machine, msg: Message, c: Config)
    requires Holds(m, c.product) && CanArrive(m, msg)
    requires msg.PhyChanged? || msg.StateProxyEvent? || msg.AudioChanged? || msg.PairingConfirmed?
    ensures Sound(m, msg, Handled(m, msg, c), c)
  {
    if msg.PhyChanged? {
      PhyChangedKeeps(m, msg.phy, msg.busy, c);
    } else if !msg.StateProxyEvent? {
      SetCoreKeeps(m, msg.busy, c);
    }
  }

  /** One message keeps the invariant, and panics exactly if it is fatal. */
  lemma HandledKeeps(m: Machine, msg: Message, c: Config)
    requires Holds(m, c.product) && CanArrive(m, msg)
    ensures Sound(m, msg, Handled(m, msg, c), c)
  {
    match msg
    case SystemActive => SystemActiveKeeps(m, c);
    case TopologyStarted(success, role, phy, busy) => TopologyStartedKeeps(m, success, role, phy, busy, c);
    case RoleChanged(role, phy, busy) => RoleChangeKeeps(m, role, phy, busy, c);
    case RuleRuns(message) => RuleKeeps(m, message, c);
    case OtherEvent => OtherEventKeeps(m, c);
    case IdleTimeout => SetStateKeeps(m.(idleTimeouts := m.idleTimeouts - 1), OutOfCaseSoporific, c);
    case _ =>
      if PowerMessage(msg) {
        PowerKeeps(m, msg, c);
      } else if DfuMessage(msg) {
        DfuKeeps(m, msg, c);
      } else if msg.PhyChanged? || msg.StateProxyEvent? || msg.AudioChanged? || msg.PairingConfirmed? {
        PlaceKeeps(m, msg, c);
      } else {
        UserKeeps(m, msg, c);
      }
  }

  /** In every reachable state, in every role history. */
  lemma {:induction false} AlwaysInv(phy: PhyState, ins: seq<Input>, product: Product)
    ensures Inv(Run(phy, ins, product), product)
  {
    if ins == [] {
      SetStateKeeps(PoweredOff.(phy := phy), Initialising, Config(product, NoDfuReset, {}, {}, false));
    } else {
      AlwaysInv(phy, ins[..|ins| - 1], product);
      var m, i := Run(phy, ins[..|ins| - 1], product), ins[|ins| - 1];
      if CanArrive(m, i.msg) { HandledKeeps(m, i.msg, i.With(product)); }
    }
  }

  /** The earbud is in the ear, and since it came there the message of the in-ear LED rule
      has not been handled. */
  ghost predicate LedsToSwitch(phy: PhyState, ins: seq<Input>, product: Product) {
    ins != [] &&
    var m, n := Run(phy, ins[..|ins| - 1], product), Run(phy, ins, product);
    InEar(n.state) && (InEar(m.state) ==>
      LedsToSwitch(phy, ins[..|ins| - 1], product)
      && !(ins[|ins| - 1].msg == RuleRuns(LedDisable) && CanArrive(m, RuleRuns(LedDisable))))
  }

  /** Exactly when the common rules hold the in-ear event: with LEDs that go off in the ear,
      from the moment the earbud comes there until they have been switched off. With LEDs
      that stay on it is never held. */
  lemma {:induction false} InEarHeldExactly(phy: PhyState, ins: seq<Input>, product: Product)
    requires !Run(phy, ins, product).panicked
    ensures InEarEvent in CommonEvents(Run(phy, ins, product).rules.common) <==>
      !product.earLeds && LedsToSwitch(phy, ins, product)
  {
    if ins == [] {
      AlwaysInv(phy, ins, product);
      SetStateKeeps(PoweredOff.(phy := phy), Initialising, Config(product, NoDfuReset, {}, {}, false));
    } else {
      var front, i := ins[..|ins| - 1], ins[|ins| - 1];
      var m := Run(phy, front, product);
      AlwaysInv(phy, front, product);
      if !m.panicked {
        InEarHeldExactly(phy, front, product);
        if CanArrive(m, i.msg) { HandledKeeps(m, i.msg, i.With(product)); }
      }
    }
  }

  /** A run ends in a panic at a fatal message and at no other. */
  lemma PanicsExactly(phy: PhyState, ins: seq<Input>, product: Product, i: Input)
    requires CanArrive(Run(phy, ins, product), i.msg)
    ensures var m := Run(phy, ins, product);
      Step(m, i.msg, i.With(product)).panicked <==> Fatal(m, i.msg, i.With(product))
  {
    AlwaysInv(phy, ins, product);
    HandledKeeps(Run(phy, ins, product), i.msg, i.With(product));
  }

  lemma IdleTimeoutSleeps(m: Machine, c: Config)
    requires Holds(m, c.product) && CanArrive(m, IdleTimeout)
    ensures var n := Handled(m, IdleTimeout, c);
      !n.panicked && n.state == OutOfCaseSoporific && n.sleepAllowed && n.idleTimeouts == 0
  {
    SetStateKeeps(m.(idleTimeouts := m.idleTimeouts - 1), OutOfCaseSoporific, c);
  }

  /** The assertion of the idle timeout can never fail. */
  lemma IdleTimeoutNeverPanics(phy: PhyState, ins: seq<Input>, product: Product, i: Input)
    requires CanArrive(Run(phy, ins, product), IdleTimeout)
    ensures var n := Step(Run(phy, ins, product), IdleTimeout, i.With(product));
      !n.panicked && n.state == OutOfCaseSoporific && n.sleepAllowed && n.idleTimeouts == 0
  {
    AlwaysInv(phy, ins, product);
    IdleTimeoutSleeps(Run(phy, ins, product), i.With(product));
  }

  lemma ShutdownMoves(m: Machine, c: Config)
    requires Holds(m, c.product) && !m.panicked
    ensures var n := Handled(m, ShutdownPrepare, c);
      && (n.panicked <==> m.state == FactoryReset)
      && (!n.panicked ==> n.state == TerminatingFor(m.state) && (n.sleepAllowed <==> Sleepy(n.state)))
  {
    SetStateKeeps(m, TerminatingFor(m.state), c);
  }

  /** A shutdown reaches a supported terminating state under the same parent, from every
      reachable state but one. */
  lemma ShutdownTerminates(phy: PhyState, ins: seq<Input>, product: Product, i: Input)
    requires !Run(phy, ins, product).panicked
    ensures var m := Run(phy, ins, product); var n := Step(m, ShutdownPrepare, i.With(product));
      && (n.panicked <==> m.state == FactoryReset)
      && (!n.panicked ==> Code(n.state) == SubState(m.state, TERMINATING) && Terminating(n.state) && !n.sleepAllowed)
  {
    AlwaysInv(phy, ins, product);
    TerminatingIsSupported(Run(phy, ins, product).state);
    ShutdownMoves(Run(phy, ins, product), i.With(product));
  }

  /** In a core state the machine follows the earbud itself: after a change of place the
      common rules hold the in-case event exactly in the case, and the in-ear event exactly
      in the ear while the LEDs are still to be switched off; and the state says whether
      the earbud is playing. */
  lemma PlaceReachesRules(m: Machine, phy: PhyState, busy: bool, c: Config)
    requires Holds(m, c.product) && !m.panicked && Core(m.state) && phy != UnknownPlace
    ensures var n := Handled(m, PhyChanged(phy, busy), c);
      && !n.panicked && Core(n.state) && (Busy(n.state) <==> busy && phy != PlacedInCase)
      && (InCaseEvent in CommonEvents(n.rules.common) <==> phy == PlacedInCase)
      && (InEarEvent in CommonEvents(n.rules.common) <==>
            phy == PlacedInEar && !c.product.earLeds && (InEar(m.state) ==> InEarEvent in CommonEvents(m.rules.common)))
  {
    CoreFollows(m.(phy := phy), busy, c);
    CorePlaces(phy, busy);
  }

  lemma CoreFollows(m: Machine, busy: bool, c: Config)
    requires Holds(m, c.product) && !m.panicked && Core(m.state)
    ensures var n := SetCore(m, busy, c);
      && !n.panicked && n.state == CoreFor(m.phy, busy)
      && (InCaseEvent in CommonEvents(n.rules.common) <==> InCase(n.state))
      && (InEarEvent in CommonEvents(n.rules.common) <==>
            InEar(n.state) && !c.product.earLeds && (InEar(m.state) ==> InEarEvent in CommonEvents(m.rules.common)))
  {
    SetCoreKeeps(m, busy, c);
  }

  /** A message that carries a report of whether the earbud is playing, in a state in which
      the core state is set by it. */
  predicate Reports(m: Machine, msg: Message, c: Config) {
    match msg
    case AudioChanged(_) => Core(m.state)
    case PhyChanged(phy, _) =>
      phy != UnknownPlace && (Core(m.state) || (phy == PlacedInCase && m.state == HandsetPairing))
    case PairingConfirmed(_) => m.state == HandsetPairing
    case TopologyStarted(_, _, _, _) => m.state == Startup
    case RoleChanged(role, _, _) =>
      role == Secondary && m.role == Primary && c.reason != DfuReset && !Core(m.state)
    case _ => false
  }

  /** The place that the machine knows after a message. */
  function PlaceAfter(m: Machine, msg: Message): PhyState {
    if msg.PhyChanged? || msg.StateProxyEvent? || (msg.TopologyStarted? && m.state == Startup) then msg.phy else m.phy
  }

  /** A message that starts the machine up again. */
  predicate StartsUp(m: Machine, msg: Message, c: Config) {
    match msg
    case SystemActive => m.state == Initialising && c.reason != NoDfuReset
    case NoDfu(testMode) => !testMode && m.state != InCaseDfu
    case DfuEnded => m.state == InCaseDfu
    case TestServiceEnded => true
    case SleepCancelled => true
    case ShutdownCancelled => true
    case _ => false
  }

  /** A message that asks for pairing, where it is listened to. */
  predicate Pairs(m: Machine, msg: Message) {
    if msg.PairHandset?
    then m.role == Primary && m.state in {InCaseIdle, OutOfCaseIdle, InEarIdle, OutOfCaseSoporific}
    else msg == RuleRuns(HandsetPair) && m.state in {OutOfCaseIdle, InEarIdle}
  }

  /** The state after a message, told by the message, the state and the role alone: no rule
      set, timeout or place has a part in it but through a report. */
  function StateAfter(m: Machine, msg: Message, c: Config): State {
    if Reports(m, msg, c) then CoreFor(PlaceAfter(m, msg), msg.busy)
    else if StartsUp(m, msg, c) then Startup
    else if Pairs(m, msg) then HandsetPairing
    else match msg
      case SystemActive => if m.state == Initialising then DfuCheck else m.state
      case NoDfu(testMode) => if m.state == InCaseDfu then m.state else DeviceTestMode
      case EnterDfuMode(dynamicRole) => if dynamicRole then m.state else InCaseDfu
      case RequestFactoryReset => if Code(m.state) >= 0x0200 then FactoryReset else m.state
      case SleepPrepare => OutOfCaseSoporificTerminating
      case ShutdownPrepare => TerminatingFor(m.state)
      case IdleTimeout => OutOfCaseSoporific
      case EnterDutMode => OutOfCaseIdle
      case _ => m.state
  }

  /** The role after a message. */
  function RoleAfter(m: Machine, msg: Message): Role {
    match msg
    case TopologyStarted(success, role, _, _) => if m.state == Startup && success then role else m.role
    case RoleChanged(role, _, _) => if role == NoRole && m.state == InCaseDfu then m.role else role
    case _ => m.role
  }

  predicate Becomes(m: Machine, msg: Message, n: Machine, c: Config) {
    n.panicked || (n.state == StateAfter(m, msg, c) && n.phy == PlaceAfter(m, msg) && n.role == RoleAfter(m, msg))
  }

  lemma TargetBecomes(m: Machine, msg: Message, t: State, c: Config)
    requires Holds(m, c.product) && !m.panicked && t != DfuCheck
    requires StateAfter(m, msg, c) == t && PlaceAfter(m, msg) == m.phy && RoleAfter(m, msg) == m.role
    ensures Becomes(m, msg, SetState(m, t, c), c)
  {
    SetStateKeeps(m, t, c);
  }

  lemma CoreBecomes(m: Machine, n: Machine, msg: Message, busy: bool, c: Config)
    requires Holds(n, c.product) && !n.panicked
    requires StateAfter(m, msg, c) == CoreFor(n.phy, busy) && PlaceAfter(m, msg) == n.phy && RoleAfter(m, msg) == n.role
    ensures Becomes(m, msg, SetCore(n, busy, c), c)
  {
    SetCoreKeeps(n, busy, c);
  }

  lemma PowerBecomes(m: Machine, msg: Message, c: Config)
    requires Holds(m, c.product) && CanArrive(m, msg) && PowerMessage(msg)
    ensures Becomes(m, msg, Handled(m, msg, c), c)
  {
    TargetBecomes(m, msg, if msg.SleepPrepare? then OutOfCaseSoporificTerminating
                          else if msg.ShutdownPrepare? then TerminatingFor(m.state) else Startup, c);
  }

  lemma DfuBecomes(m: Machine, msg: Message, c: Config)
    requires Holds(m, c.product) && CanArrive(m, msg) && DfuMessage(msg)
    ensures Becomes(m, msg, Handled(m, msg, c), c)
  {
    if msg.EnterDfuMode? {
      if !msg.dynamicRole && m.state != InCaseDfu { TargetBecomes(m, msg, InCaseDfu, c); }
    } else if msg.NoDfu? {
      if m.state != InCaseDfu { TargetBecomes(m, msg, if msg.testMode then DeviceTestMode else Startup, c); }
    } else if m.state == InCaseDfu {
      TargetBecomes(m, msg, Startup, c);
    }
  }

  lemma PairBecomes(m: Machine, msg: Message, c: Config)
    requires Holds(m, c.product) && CanArrive(m, msg) && msg.PairHandset?
    ensures Becomes(m, msg, Handled(m, msg, c), c)
  {
    if Pairs(m, msg) { TargetBecomes(m, msg, HandsetPairing, c); }
  }

  lemma ResetBecomes(m: Machine, msg: Message, c: Config)
    requires Holds(m, c.product) && CanArrive(m, msg) && msg.RequestFactoryReset?
    ensures Becomes(m, msg, Handled(m, msg, c), c)
  {
    BitTests(m.state);
    if FromStartup(m.state) { TargetBecomes(m, msg, FactoryReset, c); }
  }

  lemma TestBecomes(m: Machine, msg: Message, c: Config)
    requires Holds(m, c.product) && CanArrive(m, msg) && (msg.EnterDutMode? || msg.TestServiceEnded?)
    ensures Becomes(m, msg, Handled(m, msg, c), c)
  {
    TargetBecomes(m, msg, if msg.EnterDutMode? then OutOfCaseIdle else Startup, c);
  }

  lemma AudioBecomes(m: Machine, msg: Message, c: Config)
    requires Holds(m, c.product) && CanArrive(m, msg) && (msg.AudioChanged? || msg.PairingConfirmed?)
    ensures Becomes(m, msg, Handled(m, msg, c), c)
  {
    if Reports(m, msg, c) { CoreBecomes(m, m, msg, msg.busy, c); }
  }

  lemma PlaceBecomes(m: Machine, msg: Message, c: Config)
    requires Holds(m, c.product) && CanArrive(m, msg) && (msg.PhyChanged? || msg.StateProxyEvent?)
    ensures Becomes(m, msg, Handled(m, msg, c), c)
  {
    if Reports(m, msg, c) { CoreBecomes(m, m.(phy := msg.phy), msg, msg.busy, c); }
  }

  /** What a change of role makes of the machine itself. */
  lemma RoleBecomes(m: Machine, role: Role, phy: PhyState, busy: bool, c: Config)
    requires Holds(m, c.product) && !m.panicked
    ensures Becomes(m, RoleChanged(role, phy, busy), RoleChange(m, role, phy, busy, c), c)
  {
    if role != NoRole { RoleEventsCommon(m.rules, role, phy, c); }
    var msg := RoleChanged(role, phy, busy);
    if Reports(m, msg, c) {
      CoreBecomes(m, m.(role := Secondary, rules := RoleEvents(m.rules, Secondary, phy, c)), msg, busy, c);
    }
  }

  /** In a core state it changes the role alone. */
  lemma RoleInCore(m: Machine, role: Role, phy: PhyState, busy: bool, c: Config)
    requires Core(m.state)
    ensures var n := RoleChange(m, role, phy, busy, c);
      n.role == role && n.state == m.state && n.phy == m.phy && n.panicked == m.panicked
  {
  }

  lemma TopologyBecomes(m: Machine, msg: Message, c: Config)
    requires Holds(m, c.product) && CanArrive(m, msg) && msg.TopologyStarted?
    ensures Becomes(m, msg, OnTopologyStarted(m, msg.success, msg.role, msg.phy, msg.busy, c), c)
  {
    if m.state == Startup {
      InitialKeeps(m, msg.phy, msg.busy, c);
      CorePlaces(msg.phy, msg.busy);
      var n := SetInitialCore(m, msg.phy, msg.busy, c);
      if !n.panicked { RoleInCore(n, msg.role, msg.phy, msg.busy, c); }
    }
  }

  lemma RuleBecomes(m: Machine, msg: Message, c: Config)
    requires Holds(m, c.product) && CanArrive(m, msg) && msg.RuleRuns?
    ensures Becomes(m, msg, Handled(m, msg, c), c)
  {
    if msg.message == HandsetPair { SetStateKeeps(m, HandsetPairing, c); }
  }

  lemma ActiveBecomes(m: Machine, msg: Message, c: Config)
    requires Holds(m, c.product) && CanArrive(m, msg) && msg.SystemActive?
    ensures Becomes(m, msg, Handled(m, msg, c), c)
  {
    if m.state == Initialising { SetStateKeeps(m, DfuCheck, c); }
  }

  lemma TimeoutBecomes(m: Machine, msg: Message, c: Config)
    requires Holds(m, c.product) && CanArrive(m, msg) && msg.IdleTimeout?
    ensures Becomes(m, msg, Handled(m, msg, c), c)
  {
    SetStateKeeps(m.(idleTimeouts := m.idleTimeouts - 1), OutOfCaseSoporific, c);
  }

  /** Every message that is not fatal takes the machine to the state, the place and the
      role that the table gives. */
  lemma HandledBecomes(m: Machine, msg: Message, c: Config)
    requires Holds(m, c.product) && CanArrive(m, msg)
    ensures Becomes(m, msg, Handled(m, msg, c), c)
  {
    if PowerMessage(msg) {
      PowerBecomes(m, msg, c);
    } else if DfuMessage(msg) {
      DfuBecomes(m, msg, c);
    } else if msg.PhyChanged? || msg.StateProxyEvent? {
      PlaceBecomes(m, msg, c);
    } else if msg.AudioChanged? || msg.PairingConfirmed? {
      AudioBecomes(m, msg, c);
    } else if msg.PairHandset? {
      PairBecomes(m, msg, c);
    } else if msg.RequestFactoryReset? {
      ResetBecomes(m, msg, c);
    } else if msg.EnterDutMode? || msg.TestServiceEnded? {
      TestBecomes(m, msg, c);
    } else if msg.RoleChanged? {
      RoleBecomes(m, msg.role, msg.phy, msg.busy, c);
    } else if msg.TopologyStarted? {
      TopologyBecomes(m, msg, c);
    } else if msg.RuleRuns? {
      RuleBecomes(m, msg, c);
    } else if msg.SystemActive? {
      ActiveBecomes(m, msg, c);
    } else if msg.IdleTimeout? {
      TimeoutBecomes(m, msg, c);
    }
  }

  /** The same of every reachable machine. */
  lemma StateIsAsTold(phy: PhyState, ins: seq<Input>, product: Product, i: Input)
    requires CanArrive(Run(phy, ins, product), i.msg)
    ensures var m, c := Run(phy, ins, product), i.With(product); var n := Step(m, i.msg, c);
      if Fatal(m, i.msg, c) then n.panicked
      else !n.panicked && n.state == StateAfter(m, i.msg, c)
           && n.phy == PlaceAfter(m, i.msg) && n.role == RoleAfter(m, i.msg)
  {
    var m := Run(phy, ins, product);
    AlwaysInv(phy, ins, product);
    HandledKeeps(m, i.msg, i.With(product));
    HandledBecomes(m, i.msg, i.With(product));
  }

  /** A change of the audio in a core state: the state says whether the earbud is playing
      unless it is in the case, it is that of the place, and an earbud that plays has no
      timeout that could put it to sleep. In another state it changes nothing. */
  lemma AudioReachesState(m: Machine, busy: bool, c: Config)
    requires Holds(m, c.product) && !m.panicked
    ensures var n := Handled(m, AudioChanged(busy), c);
      if !Core(m.state) then n == m
      else
        && !n.panicked && Core(n.state) && !Sleepy(n.state)
        && (Busy(n.state) <==> busy && m.phy !in {PlacedInCase, UnknownPlace})
        && (InCase(n.state) <==> m.phy in {PlacedInCase, UnknownPlace})
        && (InEar(n.state) <==> m.phy == PlacedInEar)
        && (Busy(n.state) ==> n.idleTimeouts == 0 && !n.sleepAllowed)
  {
    if Core(m.state) {
      SetCoreKeeps(m, busy, c);
      CorePlaces(m.phy, busy);
    }
  }

  /** Where the earbud was and whether it was playing, at the last report that has set the
      core state. The test mode of a device under test counts as one: out of the case and
      not playing. */
  function LastReport(phy: PhyState, ins: seq<Input>, product: Product): (PhyState, bool) {
    if ins == [] then (phy, false)
    else
      var m, i := Run(phy, ins[..|ins| - 1], product), ins[|ins| - 1];
      if Reports(m, i.msg, i.With(product)) && CanArrive(m, i.msg) then (PlaceAfter(m, i.msg), i.msg.busy)
      else if i.msg.EnterDutMode? then (OutOfEar, false)
      else LastReport(phy, ins[..|ins| - 1], product)
  }

  /** A core state for a report: an earbud that is idle out of the case may have become
      soporific since. */
  predicate AsReported(s: State, place: PhyState, busy: bool) {
    s == CoreFor(place, busy) || (s == OutOfCaseSoporific && CoreFor(place, busy) == OutOfCaseIdle)
  }

  lemma CoreComesFrom(m: Machine, msg: Message, c: Config)
    requires Holds(m, c.product) && CanArrive(m, msg) && !Fatal(m, msg, c) && Core(StateAfter(m, msg, c))
    ensures !Reports(m, msg, c) && !msg.EnterDutMode? ==>
      StateAfter(m, msg, c) == m.state || (StateAfter(m, msg, c) == OutOfCaseSoporific && m.state == OutOfCaseIdle)
    ensures msg.EnterDutMode? ==> StateAfter(m, msg, c) == OutOfCaseIdle
  {
  }

  lemma ReportedNow(s: State, place: PhyState, busy: bool)
    requires AsReported(s, place, busy)
    ensures Busy(s) <==> busy && place !in {PlacedInCase, UnknownPlace}
    ensures InCase(s) <==> place in {PlacedInCase, UnknownPlace}
    ensures InEar(s) <==> place == PlacedInEar
  {
  }

  lemma StepReported(m: Machine, msg: Message, c: Config)
    requires Holds(m, c.product) && CanArrive(m, msg)
    ensures var n := Step(m, msg, c);
      !n.panicked && Core(n.state) ==>
        if Reports(m, msg, c) then n.state == CoreFor(PlaceAfter(m, msg), msg.busy)
        else if msg.EnterDutMode? then n.state == OutOfCaseIdle
        else n.state == m.state || (n.state == OutOfCaseSoporific && m.state == OutOfCaseIdle)
  {
    HandledKeeps(m, msg, c);
    HandledBecomes(m, msg, c);
    if !Fatal(m, msg, c) && Core(StateAfter(m, msg, c)) { CoreComesFrom(m, msg, c); }
  }

  lemma {:induction false} CoreIsReported(phy: PhyState, ins: seq<Input>, product: Product)
    requires var m := Run(phy, ins, product); !m.panicked && Core(m.state)
    ensures var last := LastReport(phy, ins, product); AsReported(Run(phy, ins, product).state, last.0, last.1)
  {
    if ins == [] {
      SetStateKeeps(PoweredOff.(phy := phy), Initialising, Config(product, NoDfuReset, {}, {}, false));
    } else {
      var front, i := ins[..|ins| - 1], ins[|ins| - 1];
      var m := Run(phy, front, product);
      AlwaysInv(phy, front, product);
      if CanArrive(m, i.msg) { StepReported(m, i.msg, i.With(product)); }
      if !m.panicked && Core(m.state) { CoreIsReported(phy, front, product); }
    }
  }

  /** Over every run: in a core state the earbud is busy exactly if it was last reported to
      be playing outside the case, it is in the case and in the ear exactly if it was there
      at that time, and while it is busy no idle timeout is pending. */
  lemma BusyAsLastReported(phy: PhyState, ins: seq<Input>, product: Product)
    requires var m := Run(phy, ins, product); !m.panicked && Core(m.state)
    ensures var m, last := Run(phy, ins, product), LastReport(phy, ins, product);
      && (Busy(m.state) <==> last.1 && last.0 !in {PlacedInCase, UnknownPlace})
      && (InCase(m.state) <==> last.0 in {PlacedInCase, UnknownPlace})
      && (InEar(m.state) <==> last.0 == PlacedInEar)
      && (Busy(m.state) ==> m.idleTimeouts == 0 && !m.sleepAllowed)
  {
    var last := LastReport(phy, ins, product);
    AlwaysInv(phy, ins, product);
    CoreIsReported(phy, ins, product);
    ReportedNow(Run(phy, ins, product).state, last.0, last.1);
  }

  /** The state machine's own data. Each handler takes it to the machine that the
      specification gives. */
  class AppSm {
    var state: State
    var phy: PhyState
    var role: Role
    var rules: Rules
    var idleTimeouts: nat
    var sleepAllowed: bool
    var panicked: bool

    ghost function Snapshot(): Machine
      reads this
    {
      Machine(state, phy, role, rules, idleTimeouts, sleepAllowed, panicked)
    }

    constructor (place: PhyState, c: Config)
      ensures Snapshot() == Initialised(place, c)
    {
      state, phy, role, rules := Null, place, NoRole, Rules(map[], map[], map[]);
      idleTimeouts, sleepAllowed, panicked := 0, false, false;
      new;
      EnterState(Initialising, c);
    }

    /** Only the rules of one role are told. */
    method TellRoleRules(own: Role, call: Call<RuleEvent, RuleMessage>, c: Config)
      modifies this`rules
      ensures rules == TellOwn(old(rules), own, call, c)
    {
      match own {
        case NoRole =>
        case Primary => rules := rules.(primary := Told(rules.primary, PrimaryTable, call, OwnAnswers(Primary, c)));
        case Secondary =>
          rules := rules.(secondary := Told(rules.secondary, SecondaryTable, call, OwnAnswers(Secondary, c)));
      }
    }

    /** The common rules are told, and then those of the current role. */
    method TellRules(call: Call<RuleEvent, RuleMessage>, c: Config)
      modifies this`rules
      ensures rules == Tell(old(rules), role, call, c)
    {
      rules := rules.(common := Told(rules.common, CommonTable, call, OwnAnswers(NoRole, c)));
      TellRoleRules(role, call, c);
    }

    method RulesSetEvent(e: RuleEvent, c: Config)
      modifies this`rules
      ensures rules == Tell(old(rules), role, SetEvent(e), c)
    {
      TellRules(SetEvent(e), c);
    }

    method RulesResetEvent(e: RuleEvent, c: Config)
      modifies this`rules
      ensures rules == Tell(old(rules), role, ResetEvent(e), c)
    {
      TellRules(ResetEvent(e), c);
    }

    method RulesSetRuleComplete(m: RuleMessage, c: Config)
      modifies this`rules
      ensures rules == Tell(old(rules), role, Complete(m), c)
    {
      TellRules(Complete(m), c);
    }

    /** An event that another part of the earbud sets, or a message of its rules that has been
        handled: all rules are looked at. */
    method RulesLookedAt(c: Config)
      modifies this`rules
      ensures rules == Tell(old(rules), role, Look, c)
    {
      TellRules(Look, c);
    }

    /** The exit action of the pairing state. */
    method ExitPairing(c: Config)
      modifies this`rules
      ensures rules == LeavePairing(old(rules), role, state, c)
    {
      if state == HandsetPairing {
        RulesSetRuleComplete(HandsetPair, c);
      }
    }

    /** The exit actions of the parent states. */
    method ExitParents(target: State, c: Config)
      modifies this`rules
      ensures rules == LeaveParents(old(rules), role, state, target, c)
    {
      if InCase(state) && !InCase(target) {
        RulesResetEvent(InCaseEvent, c);
        RulesSetEvent(OutCaseEvent, c);
      }
      if InEar(state) && !InEar(target) {
        RulesResetEvent(InEarEvent, c);
        RulesSetEvent(OutEarEvent, c);
      }
    }

    /** The entry actions of the parent states. */
    method EnterParentStates(previous: State, c: Config)
      modifies this`rules
      ensures rules == EnterParents(old(rules), role, previous, state, c)
    {
      if !InCase(previous) && InCase(state) {
        RulesResetEvent(OutCaseEvent, c);
        RulesSetEvent(InCaseEvent, c);
      }
      if !InEar(previous) && InEar(state) {
        RulesResetEvent(OutEarEvent, c);
        RulesSetEvent(InEarEvent, c);
      }
    }

    /** The exit and entry actions of the parents, around the change of state itself. */
    method ChangeParents(target: State, c: Config)
      modifies this`state, this`rules
      ensures state == target && rules == RulesAfter(old(rules), role, old(state), target, c)
    {
      var previous := state;
      ExitPairing(c);
      ExitParents(target, c);
      state := target;
      EnterParentStates(previous, c);
    }

    method ExitActions(target: State)
      modifies this`sleepAllowed, this`idleTimeouts
      ensures sleepAllowed == (old(sleepAllowed) && !(Sleepy(state) && !Sleepy(target)))
      ensures idleTimeouts ==
        if state == OutOfCaseIdle && old(idleTimeouts) > 0 then old(idleTimeouts) - 1 else old(idleTimeouts)
    {
      if state == OutOfCaseIdle && idleTimeouts > 0 {
        idleTimeouts := idleTimeouts - 1;
      }
      if Sleepy(state) && !Sleepy(target) {
        sleepAllowed := false;
      }
    }

    method EntryActions(previous: State, idleTimeout: bool)
      modifies this`sleepAllowed, this`idleTimeouts
      ensures sleepAllowed == (old(sleepAllowed) || (!Sleepy(previous) && Sleepy(state)))
      ensures idleTimeouts == old(idleTimeouts) + (if state == OutOfCaseIdle && idleTimeout then 1 else 0)
    {
      if !Sleepy(previous) && Sleepy(state) {
        sleepAllowed := true;
      }
      if state == OutOfCaseIdle && idleTimeout {
        idleTimeouts := idleTimeouts + 1;
      }
    }

    /** The exit and entry actions of both states. */
    method MoveTo(target: State, c: Config)
      modifies this`state, this`rules, this`sleepAllowed, this`idleTimeouts
      ensures state == target && rules == RulesAfter(old(rules), role, old(state), target, c)
      ensures sleepAllowed == SleepAfter(old(sleepAllowed), old(state), target)
      ensures idleTimeouts == IdleAfter(old(idleTimeouts), old(state), target, c.product.idleTimeout)
    {
      var previous := state;
      ExitActions(target);
      ChangeParents(target, c);
      EntryActions(previous, c.product.idleTimeout);
    }

    /** Changes the state; the entry action of the firmware-update check changes it once
        more. */
    method EnterState(target: State, c: Config)
      modifies this
      ensures Snapshot() == SetState(old(Snapshot()), target, c)
      decreases if target == DfuCheck then 1 else 0
    {
      if state == FactoryReset {
        panicked := true;
        return;
      }
      MoveTo(target, c);
      MoveIs(old(Snapshot()), target, c, Snapshot());
      if target == DfuCheck && c.reason != NoDfuReset {
        EnterState(Startup, c);
      }
    }

    method SetCoreState(busy: bool, c: Config)
      modifies this
      ensures Snapshot() == SetCore(old(Snapshot()), busy, c)
    {
      var target := CoreFor(phy, busy);
      if target != state {
        EnterState(target, c);
      }
    }

    method SetInitialEvents(place: PhyState, c: Config)
      requires place != UnknownPlace
      modifies this`rules
      ensures rules == InitialEvents(old(rules), role, place, c)
    {
      if place == PlacedInCase {
        RulesSetEvent(InCaseEvent, c);
      } else if place == PlacedInEar {
        RulesSetEvent(OutCaseEvent, c);
        RulesSetEvent(InEarEvent, c);
      } else {
        RulesSetEvent(OutCaseEvent, c);
        RulesSetEvent(OutEarEvent, c);
      }
    }

    method SetInitialCoreState(place: PhyState, busy: bool, c: Config)
      modifies this
      ensures Snapshot() == SetInitialCore(old(Snapshot()), place, busy, c)
    {
      phy := place;
      if place == UnknownPlace {
        panicked := true;
        return;
      }
      SetInitialEvents(place, c);
      SetCoreState(busy, c);
    }

    /** The events of a new role go to its own rule set only. */
    method SetRoleEvents(newRole: Role, place: PhyState, c: Config)
      requires newRole != NoRole
      modifies this`rules
      ensures rules == RoleEvents(old(rules), newRole, place, c)
    {
      TellRoleRules(newRole, SetEvent(RoleSwitch), c);
      if place != PlacedInCase {
        TellRoleRules(newRole, SetEvent(OutCaseEvent), c);
      }
    }

    method ChangeRole(newRole: Role, place: PhyState, busy: bool, c: Config)
      modifies this
      ensures Snapshot() == RoleChange(old(Snapshot()), newRole, place, busy, c)
    {
      var oldRole := role;
      match newRole {
        case NoRole =>
          if state != InCaseDfu {
            role := NoRole;
            TellRoleRules(Secondary, ResetAll, c);
            TellRoleRules(Primary, ResetAll, c);
          }
        case Primary =>
          role := Primary;
          if c.reason != DfuReset {
            SetRoleEvents(Primary, place, c);
          }
        case Secondary =>
          role := Secondary;
          if c.reason != DfuReset {
            SetRoleEvents(Secondary, place, c);
            if oldRole == Primary && !Core(state) {
              SetCoreState(busy, c);
            }
          }
      }
    }

    method TopologyStart(success: bool, newRole: Role, place: PhyState, busy: bool, c: Config)
      modifies this
      ensures Snapshot() == OnTopologyStarted(old(Snapshot()), success, newRole, place, busy, c)
    {
      if state == Startup {
        SetInitialCoreState(place, busy, c);
        if !panicked && success {
          ChangeRole(newRole, place, busy, c);
        }
      }
    }

    method PhyStateChanged(place: PhyState, busy: bool, c: Config)
      modifies this
      ensures Snapshot() == OnPhyChanged(old(Snapshot()), place, busy, c)
    {
      phy := place;
      match place {
        case UnknownPlace =>
        case PlacedInCase => if Core(state) || state == HandsetPairing { SetCoreState(busy, c); }
        case _ => if Core(state) { SetCoreState(busy, c); }
      }
    }

    method InitConfirm(c: Config)
      modifies this
      ensures Snapshot() == OnSystemActive(old(Snapshot()), c)
    {
      match state {
        case Initialising => EnterState(DfuCheck, c);
        case InCaseDfu =>
        case TerminatingState =>
        case _ => panicked := true;
      }
    }

    method TimeoutIdle(c: Config)
      requires !panicked && idleTimeouts > 0
      modifies this
      ensures Snapshot() == Handled(old(Snapshot()), IdleTimeout, c)
    {
      idleTimeouts := idleTimeouts - 1;
      if state != OutOfCaseIdle {
        panicked := true;
      } else {
        EnterState(OutOfCaseSoporific, c);
      }
    }

    method OnPowerMessage(msg: Message, c: Config)
      requires !panicked && PowerMessage(msg)
      modifies this
      ensures Snapshot() == Handled(old(Snapshot()), msg, c)
    {
      if msg.SleepPrepare? {
        if state != OutOfCaseSoporific {
          panicked := true;
        } else {
          EnterState(OutOfCaseSoporificTerminating, c);
        }
      } else if msg.ShutdownPrepare? {
        EnterState(TerminatingFor(state), c);
      } else {
        EnterState(Startup, c);
      }
    }

    /** The message of a rule. */
    method OnRuleMessage(m: RuleMessage, c: Config)
      modifies this
      ensures Snapshot() == OnRule(old(Snapshot()), m, c)
    {
      if m == HandsetPair {
        if state == OutOfCaseIdle || state == InEarIdle { EnterState(HandsetPairing, c); }
      } else if m == A2dpTimeoutCancel {
        TellRoleRules(Primary, Complete(m), c);
      } else if m == SecEnterDfu {
        RulesSetRuleComplete(EnterDfu, c);
      } else {
        RulesSetRuleComplete(m, c);
      }
    }

    method PairingMessage(msg: Message, c: Config)
      requires !panicked && (msg.PairingConfirmed? || msg.PairHandset?)
      modifies this
      ensures Snapshot() == Handled(old(Snapshot()), msg, c)
    {
      if msg.PairingConfirmed? {
        if state == HandsetPairing { SetCoreState(msg.busy, c); }
      } else {
        if IdleState(state) && role == Primary { EnterState(HandsetPairing, c); }
      }
    }

    method OnDfuMessage(msg: Message, c: Config)
      requires !panicked && DfuMessage(msg)
      modifies this
      ensures Snapshot() == Handled(old(Snapshot()), msg, c)
    {
      if msg.NoDfu? {
        if state != InCaseDfu { EnterState(if msg.testMode then DeviceTestMode else Startup, c); }
      } else if msg.EnterDfuMode? {
        if !msg.dynamicRole && state != InCaseDfu { EnterState(InCaseDfu, c); }
      } else {
        if state == InCaseDfu { EnterState(Startup, c); }
      }
    }

    method TestMessage(msg: Message, c: Config)
      requires !panicked && (msg.TestServiceEnded? || msg.EnterDutMode? || msg.RequestFactoryReset?)
      modifies this
      ensures Snapshot() == Handled(old(Snapshot()), msg, c)
    {
      if msg.TestServiceEnded? {
        EnterState(Startup, c);
      } else if msg.EnterDutMode? {
        EnterState(OutOfCaseIdle, c);
      } else {
        if FromStartup(state) { EnterState(FactoryReset, c); }
      }
    }

    method PlaceMessage(msg: Message, c: Config)
      requires !panicked && (msg.PhyChanged? || msg.StateProxyEvent? || msg.AudioChanged?)
      modifies this
      ensures Snapshot() == Handled(old(Snapshot()), msg, c)
    {
      if msg.PhyChanged? {
        PhyStateChanged(msg.phy, msg.busy, c);
      } else if msg.StateProxyEvent? {
        phy := msg.phy;
      } else {
        if Core(state) { SetCoreState(msg.busy, c); }
      }
    }

    method TopologyMessage(msg: Message, c: Config)
      requires !panicked && (msg.TopologyStarted? || msg.RoleChanged?)
      modifies this
      ensures Snapshot() == Handled(old(Snapshot()), msg, c)
    {
      if msg.TopologyStarted? {
        TopologyStart(msg.success, msg.role, msg.phy, msg.busy, c);
      } else {
        ChangeRole(msg.role, msg.phy, msg.busy, c);
      }
    }

    method SystemMessage(c: Config)
      requires !panicked
      modifies this
      ensures Snapshot() == Handled(old(Snapshot()), SystemActive, c)
    {
      InitConfirm(c);
    }

    /** The message handler. */
    method HandleMessage(msg: Message, c: Config)
      requires CanArrive(Snapshot(), msg)
      modifies this
      ensures Snapshot() == Step(old(Snapshot()), msg, c)
    {
      if msg.SystemActive? {
        SystemMessage(c);
      } else if msg.IdleTimeout? {
        TimeoutIdle(c);
      } else if DfuMessage(msg) {
        OnDfuMessage(msg, c);
      } else if msg.TestServiceEnded? || msg.EnterDutMode? || msg.RequestFactoryReset? {
        TestMessage(msg, c);
      } else if msg.PhyChanged? || msg.StateProxyEvent? || msg.AudioChanged? {
        PlaceMessage(msg, c);
      } else if msg.TopologyStarted? || msg.RoleChanged? {
        TopologyMessage(msg, c);
      } else if msg.PairingConfirmed? || msg.PairHandset? {
        PairingMessage(msg, c);
      } else if msg.RuleRuns? {
        OnRuleMessage(msg.message, c);
      } else if msg.OtherEvent? {
        RulesLookedAt(c);
      } else {
        OnPowerMessage(msg, c);
      }
    }
  }
}

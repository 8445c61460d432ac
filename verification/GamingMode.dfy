/** Gaming mode of an earbud: a state machine whose entry functions may enter the next
    state at once, two locks that hold back messages, and a timer that gives up waiting
    for the peer. */
module GamingMode {

  datatype State = None | Enabled | Enabling | Disabling | Disabled

  /** What the rest of the earbud answers while one message is handled. */
  datatype Env = Env(primary: bool, peerConnected: bool, streaming: bool, mirroring: bool, a2dpConnected: bool)

  /** The module's data with what is on its way to it: latency-reconfigure messages, held
      back by txLock; cancel timers; completions that Kymera owes; peer toggles and A2DP
      disconnections, held back by stateLock; and confirmations of sent peer messages.
      The last three fields count accepted requests and what they have started. */
  datatype Mode = Mode(state: State, stateLock: bool, txLock: bool,
                       reconfigures: nat, timers: nat, completions: nat,
                       toggles: seq<bool>, disconnections: nat, unconfirmed: nat,
                       accepted: nat, started: nat, tones: nat)

  const Initial := Mode(Disabled, false, false, 0, 0, 0, [], 0, 0, 0, 0, 0)

  predicate Transitional(s: State) {
    s == Enabling || s == Disabling
  }

  /** A transitional state is left for a steady one, never the other way round. */
  function Depth(s: State): nat {
    if Transitional(s) then 1 else 0
  }

  function Reconfigure(m: Mode): Mode {
    m.(completions := m.completions + 1, started := m.started + 1)
  }

  /** SetState and the entry functions it calls. */
  function SetState(m: Mode, target: State, env: Env): Mode
    decreases Depth(target), 3
  {
    if m.state == target then m
    else
      var n := m.(state := target);
      match target
      case Enabling => EnterEnabling(n, env)
      case Disabling => EnterDisabling(n, env)
      case Enabled => n.(stateLock := false)
      case Disabled => n.(stateLock := false)
      case None => n
  }

  function EnterEnabling(m: Mode, env: Env): Mode
    decreases 1, 2
  {
    var n := m.(stateLock := true);
    if env.primary then SendAndReconfigure(n, env)
    else if env.mirroring then Reconfigure(n)
    else SetState(n, Enabled, env)
  }

  function EnterDisabling(m: Mode, env: Env): Mode
    decreases 1, 2
  {
    var n := m.(stateLock := true);
    if env.primary then SendAndReconfigure(n, env)
    else if env.peerConnected && env.mirroring then Reconfigure(n)
    else SetState(n, Disabled, env)
  }

  /** A message to the peer takes the lock until it is confirmed. */
  function SendToPeer(m: Mode, env: Env): Mode {
    if env.peerConnected then m.(txLock := true, unconfirmed := m.unconfirmed + 1) else m
  }

  function SendAndReconfigure(m: Mode, env: Env): Mode
    decreases 1, 1
  {
    if env.peerConnected
    then SendToPeer(m, env).(reconfigures := m.reconfigures + 1, timers := m.timers + 1)
    else HandleReconfigure(m, env)
  }

  function HandleReconfigure(m: Mode, env: Env): Mode
    decreases 1, 0
  {
    match m.state
    case Enabling =>
      if env.streaming then Reconfigure(m) else SetState(m.(tones := m.tones + 1), Enabled, env)
    case Disabling =>
      if env.streaming then Reconfigure(m) else SetState(m.(tones := m.tones + 1), Disabled, env)
    case _ => m
  }

  predicate EnableAccepted(m: Mode, env: Env) {
    env.a2dpConnected && env.primary && m.state == Disabled
  }

  predicate DisableAccepted(m: Mode, env: Env) {
    m.state == Enabled && env.primary
  }

  function Enable(m: Mode, env: Env): Mode {
    if EnableAccepted(m, env) then SetState(m.(accepted := m.accepted + 1), Enabling, env) else m
  }

  function Disable(m: Mode, env: Env): Mode {
    if DisableAccepted(m, env) then SetState(m.(accepted := m.accepted + 1), Disabling, env) else m
  }

  datatype Event =
    | Toggle(env: Env)
    | EnableCall(env: Env)
    | DisableCall(env: Env)
    | A2dpLost
    | PeerMessage(enable: bool)
    | PeerUp(env: Env)
    | PeerDown(env: Env, left: nat)
    | TxConfirmed
    | DeliverDisconnection(env: Env)
    | DeliverToggle(env: Env)
    | DeliverReconfigure(env: Env)
    | TimerFires(env: Env)
    | KymeraDone(env: Env)

  /** A message can be handled when it is there and its lock is free. */
  predicate CanHappen(m: Mode, e: Event) {
    match e
    case PeerDown(_, left) => left <= m.unconfirmed
    case TxConfirmed => m.unconfirmed > 0
    case DeliverDisconnection(_) => m.disconnections > 0 && !m.stateLock
    case DeliverToggle(_) => m.toggles != [] && !m.stateLock
    case DeliverReconfigure(_) => m.reconfigures > 0 && !m.txLock
    case TimerFires(_) => m.timers > 0
    case KymeraDone(_) => m.completions > 0
    case _ => true
  }

  function ReconfigComplete(m: Mode, env: Env): Mode {
    match m.state
    case Enabling => SetState(m, Enabled, env)
    case Disabling => SetState(m, Disabled, env)
    case _ => m
  }

  function Toggled(m: Mode, env: Env): Mode {
    match m.state
    case Disabled => Enable(m, env)
    case Enabled => Disable(m, env)
    case _ => m
  }

  function OnPeerUp(m: Mode, env: Env): Mode {
    if env.primary && (m.state == Enabled || m.state == Enabling) then SendToPeer(m, env) else m
  }

  /** The lock and the timers go with the connection; `left` confirmations may still come. */
  function OnPeerDown(m: Mode, env: Env, left: nat): Mode {
    var n := m.(txLock := false, timers := 0, unconfirmed := left);
    if !env.primary && n.state != Disabled then SetState(n, Disabling, env) else n
  }

  function Handled(m: Mode, e: Event): Mode
    requires CanHappen(m, e)
  {
    match e
    case Toggle(env) => Toggled(m, env)
    case EnableCall(env) => Enable(m, env)
    case DisableCall(env) => Disable(m, env)
    case A2dpLost => m.(disconnections := m.disconnections + 1)
    case PeerMessage(enable) => m.(toggles := m.toggles + [enable])
    case PeerUp(env) => OnPeerUp(m, env)
    case PeerDown(env, left) => OnPeerDown(m, env, left)
    case TxConfirmed => m.(txLock := false, timers := 0, unconfirmed := m.unconfirmed - 1)
    case DeliverDisconnection(env) =>
      var n := m.(disconnections := m.disconnections - 1);
      if n.state == Enabled then Disable(n, env) else n
    case DeliverToggle(env) =>
      SetState(m.(toggles := m.toggles[1..]), if m.toggles[0] then Enabling else Disabling, env)
    case DeliverReconfigure(env) => HandleReconfigure(m.(reconfigures := m.reconfigures - 1), env)
    case TimerFires(env) =>
      HandleReconfigure(m.(timers := m.timers - 1, txLock := false, reconfigures := 0), env)
    case KymeraDone(env) => ReconfigComplete(m.(completions := m.completions - 1), env)
  }

  /** An event that cannot happen now changes nothing. */
  function Step(m: Mode, e: Event): Mode {
    if CanHappen(m, e) then Handled(m, e) else m
  }

  /** What holds after every handler, whatever the roles and the environment: the state
      lock is held exactly in a transitional state; a transitional state has a
      reconfigure message or a completion on its way; a lock on peer messages has a
      confirmation on its way. */
  predicate Inv(m: Mode) {
    && (m.stateLock <==> Transitional(m.state))
    && (Transitional(m.state) ==> m.reconfigures > 0 || m.completions > 0)
    && (m.txLock ==> m.unconfirmed > 0)
  }

  /** The locks and what is pending, whatever the state is. */
  predicate Unlocked(m: Mode) {
    m.txLock ==> m.unconfirmed > 0
  }

  lemma SteadyKeeps(m: Mode, target: State, env: Env)
    requires (target == Enabled || target == Disabled) && Unlocked(m) && m.state != target
    ensures Inv(SetState(m, target, env))
  {
  }

  lemma HandleReconfigureKeeps(m: Mode, env: Env)
    requires (m.stateLock <==> Transitional(m.state)) && Unlocked(m)
    ensures Inv(HandleReconfigure(m, env))
  {
    if Transitional(m.state) {
      SteadyKeeps(m.(tones := m.tones + 1), if m.state == Enabling then Enabled else Disabled, env);
    }
  }

  lemma SendAndReconfigureKeeps(m: Mode, env: Env)
    requires Transitional(m.state) && m.stateLock && Unlocked(m)
    ensures Inv(SendAndReconfigure(m, env))
  {
    if !env.peerConnected { HandleReconfigureKeeps(m, env); }
  }

  /** Entering a state keeps the invariant, from any state and with any locks held. */
  lemma SetStateKeeps(m: Mode, target: State, env: Env)
    requires target != None && Unlocked(m) && (m.state == target ==> Inv(m))
    ensures Inv(SetState(m, target, env))
  {
    var n := m.(state := target, stateLock := true);
    if m.state != target {
      match target
      case Enabling => SendAndReconfigureKeeps(n, env); SteadyKeeps(n, Enabled, env);
      case Disabling => SendAndReconfigureKeeps(n, env); SteadyKeeps(n, Disabled, env);
      case _ => SteadyKeeps(m, target, env);
    }
  }

  lemma StepKeeps(m: Mode, e: Event)
    requires Inv(m)
    ensures Inv(Step(m, e))
  {
    if !CanHappen(m, e) { return; }
    match e
    case DeliverToggle(env) =>
      SetStateKeeps(m.(toggles := m.toggles[1..]), if m.toggles[0] then Enabling else Disabling, env);
    case DeliverReconfigure(env) => HandleReconfigureKeeps(m.(reconfigures := m.reconfigures - 1), env);
    case TimerFires(env) =>
      HandleReconfigureKeeps(m.(timers := m.timers - 1, txLock := false, reconfigures := 0), env);
    case PeerDown(env, left) =>
      var n := m.(txLock := false, timers := 0, unconfirmed := left);
      if n.state != Disabled { SetStateKeeps(n, Disabling, env); }
    case Toggle(env) => ToggleKeeps(m, env);
    case EnableCall(env) => ToggleKeeps(m, env);
    case DisableCall(env) => ToggleKeeps(m, env);
    case DeliverDisconnection(env) => ToggleKeeps(m.(disconnections := m.disconnections - 1), env);
    case _ =>
  }

  lemma ToggleKeeps(m: Mode, env: Env)
    requires Inv(m)
    ensures Inv(Enable(m, env)) && Inv(Disable(m, env))
  {
    SetStateKeeps(m.(accepted := m.accepted + 1), Enabling, env);
    SetStateKeeps(m.(accepted := m.accepted + 1), Disabling, env);
  }

  function Run(m: Mode, es: seq<Event>): Mode {
    if es == [] then m else Step(Run(m, es[..|es| - 1]), es[|es| - 1])
  }

  /** In every reachable state, in every role history. */
  lemma {:induction false} AlwaysInv(es: seq<Event>)
    ensures Inv(Run(Initial, es))
  {
    if es != [] {
      AlwaysInv(es[..|es| - 1]);
      StepKeeps(Run(Initial, es[..|es| - 1]), es[|es| - 1]);
    }
  }

  /** So a deferred peer toggle or disconnection is only ever handled in a steady state. */
  lemma DeferredRunSteady(es: seq<Event>, e: Event)
    requires CanHappen(Run(Initial, es), e)
    requires e.DeliverToggle? || e.DeliverDisconnection?
    ensures !Transitional(Run(Initial, es).state)
  {
    AlwaysInv(es);
  }

  /** How far a mode is from a steady state: the peer lock, the reconfigure message and
      the completion are still ahead. */
  function Distance(m: Mode): nat {
    if !Transitional(m.state) then 0
    else if m.completions > 0 then 1
    else if !m.txLock then 2
    else 3
  }

  /** What the mode waits for next: something that can always happen, by the invariant. */
  predicate Awaited(m: Mode, e: Event) {
    if m.completions > 0 then e.KymeraDone?
    else if !m.txLock then e.DeliverReconfigure?
    else e.TxConfirmed? || e.TimerFires?
  }

  predicate Happens(m: Mode, e: Event) {
    Awaited(m, e) && CanHappen(m, e)
  }

  lemma AwaitedCanHappen(m: Mode, env: Env)
    requires Inv(m) && Transitional(m.state)
    ensures exists e :: Happens(m, e)
  {
    assert Happens(m, if m.completions > 0 then KymeraDone(env)
                      else if !m.txLock then DeliverReconfigure(env) else TxConfirmed);
  }

  /** Handling a reconfigure message leaves at most a completion to wait for. */
  lemma ReconfigureAdvances(m: Mode, env: Env)
    requires Transitional(m.state)
    ensures Distance(HandleReconfigure(m, env)) <= 1
  {
  }

  /** So does a secondary earbud that disables gaming mode. */
  lemma DisablingAdvances(m: Mode, env: Env)
    requires !env.primary
    ensures m.state != Disabling ==> Distance(SetState(m, Disabling, env)) <= 1
  {
    SteadyKeeps(m.(state := Disabling, stateLock := true, txLock := false), Disabled, env);
  }

  /** What the mode waits for brings it closer to a steady state. */
  lemma AwaitedAdvances(m: Mode, e: Event)
    requires Inv(m) && Transitional(m.state) && Happens(m, e)
    ensures Distance(Step(m, e)) < Distance(m)
  {
    match e
    case DeliverReconfigure(env) => ReconfigureAdvances(m.(reconfigures := m.reconfigures - 1), env);
    case TimerFires(env) => ReconfigureAdvances(m.(timers := m.timers - 1, txLock := false, reconfigures := 0), env);
    case _ =>
  }

  /** Only a new connection to the peer takes it further away again. */
  lemma OthersKeepDistance(m: Mode, e: Event)
    requires Inv(m) && Transitional(m.state) && !e.PeerUp?
    ensures Distance(Step(m, e)) <= Distance(m)
  {
    if !CanHappen(m, e) { return; }
    match e
    case DeliverReconfigure(env) => ReconfigureAdvances(m.(reconfigures := m.reconfigures - 1), env);
    case TimerFires(env) => ReconfigureAdvances(m.(timers := m.timers - 1, txLock := false, reconfigures := 0), env);
    case PeerDown(env, left) =>
      if !env.primary { DisablingAdvances(m.(txLock := false, timers := 0, unconfirmed := left), env); }
    case _ =>
  }

  function Goal(s: State): State {
    match s
    case Enabling => Enabled
    case Disabling => Disabled
    case _ => s
  }

  lemma ReconfigureReachesGoal(m: Mode, env: Env)
    requires Transitional(m.state)
    ensures HandleReconfigure(m, env).state in {m.state, Goal(m.state)}
  {
  }

  lemma EntryReachesGoal(m: Mode, target: State, env: Env)
    requires Transitional(target)
    ensures SetState(m, target, env).state in {target, Goal(target)}
  {
    var n := m.(state := target, stateLock := true);
    ReconfigureReachesGoal(n, env);
    assert SendAndReconfigure(n, env).state in {target, Goal(target)};
    assert SetState(n, Goal(target), env).state == Goal(target);
  }

  /** A transition ends where it was headed; only a secondary earbud that loses its peer
      turns back, to disabled. */
  lemma TransitionHoldsCourse(m: Mode, e: Event)
    requires Inv(m) && Transitional(m.state)
    ensures if e.PeerDown? && !e.env.primary then Step(m, e).state in {m.state, Disabling, Disabled}
            else Step(m, e).state in {m.state, Goal(m.state)}
  {
    if !CanHappen(m, e) { return; }
    match e
    case DeliverReconfigure(env) => ReconfigureReachesGoal(m.(reconfigures := m.reconfigures - 1), env);
    case TimerFires(env) => ReconfigureReachesGoal(m.(timers := m.timers - 1, txLock := false, reconfigures := 0), env);
    case PeerDown(env, left) => EntryReachesGoal(m.(txLock := false, timers := 0, unconfirmed := left), Disabling, env);
    case _ =>
  }

  /** An accepted request sets out for the other mode, or is there at once. */
  lemma RequestsSetOut(m: Mode, env: Env)
    ensures EnableAccepted(m, env) ==> Enable(m, env).state in {Enabling, Enabled}
    ensures DisableAccepted(m, env) ==> Disable(m, env).state in {Disabling, Disabled}
  {
    EntryReachesGoal(m.(accepted := m.accepted + 1), Enabling, env);
    EntryReachesGoal(m.(accepted := m.accepted + 1), Disabling, env);
  }

  /** The awaited events that happen in a run. */
  function AwaitedIn(m: Mode, es: seq<Event>): nat
  {
    if es == [] then 0
    else AwaitedIn(m, es[..|es| - 1]) + (if Happens(Run(m, es[..|es| - 1]), es[|es| - 1]) then 1 else 0)
  }

  /** The mode stays transitional all along a run. */
  predicate StaysTransitional(m: Mode, es: seq<Event>)
  {
    Transitional(Run(m, es).state) && (es == [] || StaysTransitional(m, es[..|es| - 1]))
  }

  /** A transition cannot last through more than two awaited events without a new
      connection to the peer. */
  lemma {:induction false} TransitionEnds(m: Mode, es: seq<Event>)
    requires Inv(m) && StaysTransitional(m, es)
    requires forall k :: 0 <= k < |es| ==> !es[k].PeerUp?
    ensures Inv(Run(m, es)) && Distance(Run(m, es)) + AwaitedIn(m, es) <= Distance(m)
    ensures AwaitedIn(m, es) <= 2
  {
    if es != [] {
      var front, e := es[..|es| - 1], es[|es| - 1];
      TransitionEnds(m, front);
      var n := Run(m, front);
      StepKeeps(n, e);
      OthersKeepDistance(n, e);
      if Happens(n, e) { AwaitedAdvances(n, e); }
    }
  }

  /** The earbud is the primary one throughout; its peer sends it no gaming-mode messages. */
  predicate AsPrimary(e: Event) {
    match e
    case PeerMessage(_) => false
    case DeliverToggle(_) => false
    case A2dpLost => true
    case TxConfirmed => true
    case _ => e.env.primary
  }

  /** On a primary earbud each accepted request has started one reconfiguration or played
      one tone, or its reconfigure message is still pending; exactly one thing is pending
      in a transitional state, nothing in a steady one; and a running timer guards a
      pending reconfigure message that the peer lock holds back. */
  predicate Exact(m: Mode) {
    && m.accepted == m.started + m.tones + m.reconfigures
    && m.reconfigures + m.completions == (if Transitional(m.state) then 1 else 0)
    && m.timers <= m.reconfigures && (m.timers > 0 ==> m.txLock)
    && m.state != None
  }

  lemma SteadyExact(m: Mode, target: State, env: Env)
    requires target == Enabled || target == Disabled
    requires m.accepted == m.started + m.tones && m.reconfigures == m.completions == m.timers == 0 && m.state != target
    ensures Exact(SetState(m, target, env))
  {
  }

  /** A reconfigure message that has been taken out starts one reconfiguration or tone. */
  lemma HandleReconfigureExact(m: Mode, env: Env)
    requires Transitional(m.state) && m.reconfigures == m.completions == m.timers == 0
    requires m.accepted == m.started + m.tones + 1
    ensures Exact(HandleReconfigure(m, env))
  {
    SteadyExact(m.(tones := m.tones + 1), if m.state == Enabling then Enabled else Disabled, env);
  }

  lemma EnterExact(m: Mode, target: State, env: Env)
    requires Exact(m) && !Transitional(m.state) && Transitional(target) && env.primary
    ensures Exact(SetState(m.(accepted := m.accepted + 1), target, env))
  {
    var n := m.(accepted := m.accepted + 1, state := target, stateLock := true);
    HandleReconfigureExact(n, env);
    assert Exact(SendAndReconfigure(n, env));
  }

  lemma StepExact(m: Mode, e: Event)
    requires Inv(m) && Exact(m) && AsPrimary(e)
    ensures Exact(Step(m, e))
  {
    if !CanHappen(m, e) { return; }
    match e
    case Toggle(env) => RequestExact(m, env);
    case EnableCall(env) => RequestExact(m, env);
    case DisableCall(env) => RequestExact(m, env);
    case DeliverDisconnection(env) => RequestExact(m.(disconnections := m.disconnections - 1), env);
    case DeliverReconfigure(env) => HandleReconfigureExact(m.(reconfigures := m.reconfigures - 1), env);
    case TimerFires(env) =>
      HandleReconfigureExact(m.(timers := m.timers - 1, txLock := false, reconfigures := 0), env);
    case KymeraDone(env) =>
      SteadyExact(m.(completions := m.completions - 1), if m.state == Enabling then Enabled else Disabled, env);
    case _ =>
  }

  lemma RequestExact(m: Mode, env: Env)
    requires Exact(m) && env.primary
    ensures Exact(Enable(m, env)) && Exact(Disable(m, env))
  {
    if EnableAccepted(m, env) { EnterExact(m, Enabling, env); }
    if DisableAccepted(m, env) { EnterExact(m, Disabling, env); }
  }

  lemma {:induction false} PrimaryIsExact(es: seq<Event>)
    requires forall k :: 0 <= k < |es| ==> AsPrimary(es[k])
    ensures Inv(Run(Initial, es)) && Exact(Run(Initial, es))
  {
    AlwaysInv(es);
    if es != [] {
      PrimaryIsExact(es[..|es| - 1]);
      StepExact(Run(Initial, es[..|es| - 1]), es[|es| - 1]);
    }
  }

  /** A reconfigure message that is held back while no timer is running. */
  predicate Unguarded(m: Mode) {
    m.reconfigures > 0 && m.txLock && m.timers == 0
  }

  /** A new connection takes the lock again, while the message is waiting that an earlier
      confirmation has set free. */
  predicate LocksAgain(m: Mode, e: Event) {
    && e.PeerUp? && e.env.primary && e.env.peerConnected && m.state == Enabling
    && m.reconfigures > 0 && m.timers == 0
  }

  lemma UnguardedStep(m: Mode, e: Event)
    requires Inv(m) && Exact(m) && AsPrimary(e)
    ensures Unguarded(Step(m, e)) <==>
      LocksAgain(m, e) || (Unguarded(m) && !e.TxConfirmed? && !(e.PeerDown? && CanHappen(m, e)))
  {
    StepExact(m, e);
    StepKeeps(m, e);
    match e
    case Toggle(env) => RequestGuards(m, env);
    case EnableCall(env) => RequestGuards(m, env);
    case DisableCall(env) => RequestGuards(m, env);
    case DeliverDisconnection(env) =>
      if CanHappen(m, e) { RequestGuards(m.(disconnections := m.disconnections - 1), env); }
    case DeliverReconfigure(env) =>
      if CanHappen(m, e) { NoTimerAdded(m.(reconfigures := m.reconfigures - 1), env); }
    case TimerFires(env) =>
      if CanHappen(m, e) { NoTimerAdded(m.(timers := m.timers - 1, txLock := false, reconfigures := 0), env); }
    case _ =>
  }

  lemma RequestGuards(m: Mode, env: Env)
    requires Exact(m) && env.primary
    ensures EnableAccepted(m, env) ==> !Unguarded(Enable(m, env))
    ensures DisableAccepted(m, env) ==> !Unguarded(Disable(m, env))
    ensures EnableAccepted(m, env) || DisableAccepted(m, env) ==> !Unguarded(m)
  {
    if EnableAccepted(m, env) { EntryGuards(m, Enabling, env); }
    if DisableAccepted(m, env) { EntryGuards(m, Disabling, env); }
  }

  lemma EntryGuards(m: Mode, target: State, env: Env)
    requires Exact(m) && !Transitional(m.state) && Transitional(target) && env.primary
    ensures !Unguarded(SetState(m.(accepted := m.accepted + 1), target, env))
  {
    var n := m.(accepted := m.accepted + 1, state := target, stateLock := true);
    if !env.peerConnected {
      HandleReconfigureExact(n, env);
      NoTimerAdded(n, env);
    }
    assert SetState(m.(accepted := m.accepted + 1), target, env) == SendAndReconfigure(n, env);
  }

  lemma NoTimerAdded(m: Mode, env: Env)
    ensures HandleReconfigure(m, env).reconfigures == m.reconfigures
  {
  }

  /** Exactly when the message of a primary earbud is left without a timer: a connection
      comes up after the confirmation. Then only a confirmation or the loss of the
      peer sets it free. */
  lemma UnguardedExactly(es: seq<Event>, e: Event)
    requires AsPrimary(e) && forall k :: 0 <= k < |es| ==> AsPrimary(es[k])
    ensures var m := Run(Initial, es);
      && (Unguarded(Step(m, e)) <==>
            LocksAgain(m, e) || (Unguarded(m) && !e.TxConfirmed? && !(e.PeerDown? && CanHappen(m, e))))
      && (Unguarded(m) ==> !CanHappen(m, e) || (!e.DeliverReconfigure? && !e.TimerFires?))
  {
    PrimaryIsExact(es);
    UnguardedStep(Run(Initial, es), e);
  }

  /** What the first request leaves on a primary earbud that can reach its peer. */
  predicate JustAsked(m: Mode) {
    m == Initial.(state := Enabling, stateLock := true, txLock := true, unconfirmed := 1,
                  reconfigures := 1, timers := 1, accepted := 1)
  }

  lemma FirstRequest(up: Env)
    requires up.primary && up.peerConnected && up.a2dpConnected
    ensures JustAsked(Step(Initial, Toggle(up)))
  {
    var n := Initial.(state := Enabling, accepted := 1);
    assert SetState(Initial.(accepted := 1), Enabling, up) == EnterEnabling(n, up)
        == SendAndReconfigure(n.(stateLock := true), up);
  }

  /** Such a run goes on from there: the confirmation, and a new connection. */
  lemma MessageWithoutTimer(asked: Mode, confirmed: Mode, up: Env)
    requires JustAsked(asked) && confirmed == Step(asked, TxConfirmed) && up.primary && up.peerConnected
    ensures LocksAgain(confirmed, PeerUp(up)) && Unguarded(Step(confirmed, PeerUp(up)))
  {
  }

  /** The transition that an earbud of this state and role is asked for by a request. */
  function Asked(s: State, env: Env): State {
    if !env.primary then None
    else if s == Disabled && env.a2dpConnected then Enabling
    else if s == Enabled then Disabling
    else None
  }

  /** Which transition an event sets out on, if any: a request on a primary earbud, a
      message from the peer, or the loss of the peer on a secondary one. */
  function SetsOut(m: Mode, e: Event): State {
    match e
    case Toggle(env) => Asked(m.state, env)
    case EnableCall(env) => if m.state == Disabled then Asked(m.state, env) else None
    case DisableCall(env) => if m.state == Enabled then Asked(m.state, env) else None
    case DeliverDisconnection(env) =>
      if m.disconnections > 0 && m.state == Enabled then Asked(m.state, env) else None
    case DeliverToggle(env) =>
      if m.toggles == [] || Transitional(m.state) then None
      else if m.toggles[0] then Enabling else Disabling
    case PeerDown(env, left) =>
      if left > m.unconfirmed || env.primary || m.state in {Disabled, Disabling} then None else Disabling
    case _ => None
  }

  /** A reconfigure message, or the timer that takes its place, is handled in a transition. */
  predicate Answers(m: Mode, e: Event) {
    && Transitional(m.state)
    && ((e.DeliverReconfigure? && m.reconfigures > 0 && !m.txLock) || (e.TimerFires? && m.timers > 0))
  }

  /** Nothing has to be waited for when a transition is entered. */
  predicate AtOnce(target: State, env: Env) {
    if env.primary then !env.peerConnected && !env.streaming
    else !env.mirroring || (target == Disabling && !env.peerConnected)
  }

  /** The state after an event, told without the entry functions. */
  function StateAfter(m: Mode, e: Event): State {
    var target := SetsOut(m, e);
    if target != None then (if AtOnce(target, e.env) then Goal(target) else target)
    else if Answers(m, e) && !e.env.streaming then Goal(m.state)
    else if e.KymeraDone? && m.completions > 0 then Goal(m.state)
    else m.state
  }

  /** Kymera is asked to reconfigure: by a primary earbud while its audio is streaming,
      by a secondary one while it mirrors the audio. */
  predicate Starts(m: Mode, e: Event) {
    if SetsOut(m, e) == None then Answers(m, e) && e.env.streaming
    else if e.env.primary then !e.env.peerConnected && e.env.streaming
    else !AtOnce(SetsOut(m, e), e.env)
  }

  /** The tone is played at once: by a primary earbud without streaming audio. */
  predicate Plays(m: Mode, e: Event) {
    if SetsOut(m, e) == None then Answers(m, e) && !e.env.streaming
    else e.env.primary && AtOnce(SetsOut(m, e), e.env)
  }

  /** The peer is told of the mode: when a primary earbud sets out on a transition, or is
      enabled or about to be when the peer connects. */
  predicate Tells(m: Mode, e: Event) {
    if e.PeerUp? then e.env.primary && e.env.peerConnected && m.state in {Enabled, Enabling}
    else SetsOut(m, e) != None && e.env.primary && e.env.peerConnected
  }

  /** What an event leaves of the confirmations that were pending. */
  function StillPending(m: Mode, e: Event): nat {
    if e.PeerDown? && e.left <= m.unconfirmed then e.left
    else if e.TxConfirmed? && m.unconfirmed > 0 then m.unconfirmed - 1
    else m.unconfirmed
  }

  function One(b: bool): nat {
    if b then 1 else 0
  }

  /** Everything of a mode that the audio and the peer decide. */
  predicate Becomes(m: Mode, s: State, starts: bool, plays: bool, tells: bool, pending: nat, n: Mode) {
    && n.state == s
    && n.started == m.started + One(starts)
    && n.tones == m.tones + One(plays)
    && n.unconfirmed == pending + One(tells)
  }

  lemma SteadyBecomes(m: Mode, target: State, env: Env)
    requires target == Enabled || target == Disabled
    ensures Becomes(m, target, false, false, false, m.unconfirmed, SetState(m, target, env))
  {
  }

  /** While the audio is streaming, a reconfigure message that is handled in a transition
      asks Kymera and waits for it. Without it the tone is played and the transition over. */
  lemma AudioDecides(m: Mode, env: Env)
    requires Transitional(m.state)
    ensures var n := HandleReconfigure(m, env);
      if env.streaming then n == m.(started := m.started + 1, completions := m.completions + 1)
      else n == m.(tones := m.tones + 1, state := Goal(m.state), stateLock := false)
  {
    var played := m.(tones := m.tones + 1);
    assert SetState(played, Goal(m.state), env) == played.(state := Goal(m.state), stateLock := false);
  }

  lemma SendBecomes(m: Mode, env: Env)
    requires Transitional(m.state)
    ensures Becomes(m, if AtOnce(m.state, env.(primary := true)) then Goal(m.state) else m.state,
      !env.peerConnected && env.streaming, !env.peerConnected && !env.streaming, env.peerConnected,
      m.unconfirmed, SendAndReconfigure(m, env))
  {
    if !env.peerConnected { AudioDecides(m, env); }
  }

  /** Entering a transition, in either role. */
  lemma EntryBecomes(m: Mode, target: State, env: Env)
    requires Transitional(target) && m.state != target
    ensures Becomes(m, if AtOnce(target, env) then Goal(target) else target,
      if env.primary then !env.peerConnected && env.streaming else !AtOnce(target, env),
      env.primary && AtOnce(target, env), env.primary && env.peerConnected,
      m.unconfirmed, SetState(m, target, env))
  {
    var n := m.(state := target, stateLock := true);
    SendBecomes(n, env);
    SteadyBecomes(n, Goal(target), env);
  }

  lemma RequestBecomes(m: Mode, env: Env)
    requires Asked(m.state, env) != None
    ensures var target := Asked(m.state, env);
      && (m.state == Disabled ==> Enable(m, env) == SetState(m.(accepted := m.accepted + 1), target, env))
      && (m.state == Enabled ==> Disable(m, env) == SetState(m.(accepted := m.accepted + 1), target, env))
  {
  }

  lemma NotAsked(m: Mode, env: Env)
    requires Asked(m.state, env) == None
    ensures Enable(m, env) == m && Disable(m, env) == m
  {
  }

  predicate IsRequest(e: Event) {
    e.Toggle? || e.EnableCall? || e.DisableCall? || e.DeliverDisconnection?
  }

  lemma RequestEvent(m: Mode, e: Event)
    requires Inv(m) && IsRequest(e) && CanHappen(m, e)
    ensures var target, left := SetsOut(m, e),
        if e.DeliverDisconnection? then m.(disconnections := m.disconnections - 1) else m;
      Step(m, e) == (if target == None then left else SetState(left.(accepted := left.accepted + 1), target, e.env))
  {
    var left := if e.DeliverDisconnection? then m.(disconnections := m.disconnections - 1) else m;
    if Asked(m.state, e.env) != None {
      RequestBecomes(left, e.env);
    } else {
      NotAsked(left, e.env);
    }
  }

  lemma RequestStepBecomes(m: Mode, e: Event)
    requires Inv(m) && IsRequest(e) && CanHappen(m, e)
    ensures Becomes(m, StateAfter(m, e), Starts(m, e), Plays(m, e), Tells(m, e), StillPending(m, e), Step(m, e))
  {
    var target, left := SetsOut(m, e),
      if e.DeliverDisconnection? then m.(disconnections := m.disconnections - 1) else m;
    RequestEvent(m, e);
    if target != None { EntryBecomes(left.(accepted := left.accepted + 1), target, e.env); }
  }

  lemma PeerStepBecomes(m: Mode, e: Event)
    requires Inv(m) && (e.DeliverToggle? || e.PeerDown?) && CanHappen(m, e)
    ensures Becomes(m, StateAfter(m, e), Starts(m, e), Plays(m, e), Tells(m, e), StillPending(m, e), Step(m, e))
  {
    var target := SetsOut(m, e);
    match e
    case DeliverToggle(env) => EntryBecomes(m.(toggles := m.toggles[1..]), target, env);
    case PeerDown(env, left) =>
      if target != None { EntryBecomes(m.(txLock := false, timers := 0, unconfirmed := left), target, env); }
  }

  lemma AudioStepBecomes(m: Mode, e: Event)
    requires Inv(m) && (e.DeliverReconfigure? || e.TimerFires? || e.KymeraDone?) && CanHappen(m, e)
    ensures Becomes(m, StateAfter(m, e), Starts(m, e), Plays(m, e), Tells(m, e), StillPending(m, e), Step(m, e))
  {
    if Transitional(m.state) {
      match e
      case DeliverReconfigure(env) => AudioDecides(m.(reconfigures := m.reconfigures - 1), env);
      case TimerFires(env) => AudioDecides(m.(timers := m.timers - 1, txLock := false, reconfigures := 0), env);
      case KymeraDone(env) => SteadyBecomes(m.(completions := m.completions - 1), Goal(m.state), env);
    }
  }

  /** In every role, the state after an event, whether it starts a reconfiguration or plays
      a tone, and whether the peer is told, follow from the state and the environment as
      the table says. */
  lemma StepBecomes(m: Mode, e: Event)
    requires Inv(m)
    ensures Becomes(m, StateAfter(m, e), Starts(m, e), Plays(m, e), Tells(m, e), StillPending(m, e), Step(m, e))
  {
    if !CanHappen(m, e) {
      CannotHappen(m, e);
    } else if IsRequest(e) {
      RequestStepBecomes(m, e);
    } else if e.DeliverToggle? || e.PeerDown? {
      PeerStepBecomes(m, e);
    } else if e.DeliverReconfigure? || e.TimerFires? || e.KymeraDone? {
      AudioStepBecomes(m, e);
    }
  }

  lemma CannotHappen(m: Mode, e: Event)
    requires Inv(m) && !CanHappen(m, e)
    ensures SetsOut(m, e) == None && !Answers(m, e) && !Tells(m, e)
    ensures StateAfter(m, e) == m.state && StillPending(m, e) == m.unconfirmed
  {
  }

  function StartsIn(es: seq<Event>): nat {
    if es == [] then 0
    else StartsIn(es[..|es| - 1]) + One(Starts(Run(Initial, es[..|es| - 1]), es[|es| - 1]))
  }

  function PlaysIn(es: seq<Event>): nat {
    if es == [] then 0
    else PlaysIn(es[..|es| - 1]) + One(Plays(Run(Initial, es[..|es| - 1]), es[|es| - 1]))
  }

  /** Over every run, in every role history: Kymera has been asked once for each event that
      should ask it, and one tone played for each that should play it. */
  lemma {:induction false} AudioCounts(es: seq<Event>)
    ensures Run(Initial, es).started == StartsIn(es) && Run(Initial, es).tones == PlaysIn(es)
  {
    if es != [] {
      AudioCounts(es[..|es| - 1]);
      AlwaysInv(es[..|es| - 1]);
      StepBecomes(Run(Initial, es[..|es| - 1]), es[|es| - 1]);
    }
  }

  /** The messages that have come from the peer. */
  function Arrived(es: seq<Event>): seq<bool> {
    if es == [] then []
    else
      var e := es[|es| - 1];
      Arrived(es[..|es| - 1]) + (if e.PeerMessage? then [e.enable] else [])
  }

  /** The transitions that they have set out on. */
  function Followed(es: seq<Event>): seq<bool> {
    if es == [] then []
    else
      var e, m := es[|es| - 1], Run(Initial, es[..|es| - 1]);
      Followed(es[..|es| - 1])
        + (if e.DeliverToggle? && SetsOut(m, e) != None then [SetsOut(m, e) == Enabling] else [])
  }

  /** The messages of the peer are followed in the order in which they came, each once. */
  lemma {:induction false} PeerIsFollowed(es: seq<Event>)
    ensures Followed(es) + Run(Initial, es).toggles == Arrived(es)
  {
    if es != [] {
      var front, e := es[..|es| - 1], es[|es| - 1];
      var m := Run(Initial, front);
      PeerIsFollowed(front);
      AlwaysInv(front);
      StepToggles(m, e);
    }
  }

  lemma HandleToggles(m: Mode, env: Env)
    ensures HandleReconfigure(m, env).toggles == m.toggles
  {
    if Transitional(m.state) { AudioDecides(m, env); }
  }

  lemma SetStateToggles(m: Mode, target: State, env: Env)
    ensures SetState(m, target, env).toggles == m.toggles
  {
    var n := m.(state := target, stateLock := true);
    HandleToggles(n, env);
    assert SetState(n, Enabled, env).toggles == SetState(n, Disabled, env).toggles == m.toggles;
  }

  lemma StepToggles(m: Mode, e: Event)
    requires Inv(m)
    ensures Step(m, e).toggles ==
      if e.PeerMessage? then m.toggles + [e.enable]
      else if e.DeliverToggle? && SetsOut(m, e) != None then m.toggles[1..]
      else m.toggles
    ensures e.DeliverToggle? && SetsOut(m, e) != None ==> m.toggles != [] && (SetsOut(m, e) == Enabling) == m.toggles[0]
  {
    if !CanHappen(m, e) { return; }
    if IsRequest(e) {
      var left := if e.DeliverDisconnection? then m.(disconnections := m.disconnections - 1) else m;
      RequestEvent(m, e);
      SetStateToggles(left.(accepted := left.accepted + 1), SetsOut(m, e), e.env);
    } else {
      match e
      case PeerDown(env, left) =>
        SetStateToggles(m.(txLock := false, timers := 0, unconfirmed := left), Disabling, env);
      case DeliverToggle(env) => SetStateToggles(m.(toggles := m.toggles[1..]), SetsOut(m, e), env);
      case KymeraDone(env) => SetStateToggles(m.(completions := m.completions - 1), Goal(m.state), env);
      case DeliverReconfigure(env) => HandleToggles(m.(reconfigures := m.reconfigures - 1), env);
      case TimerFires(env) => HandleToggles(m.(timers := m.timers - 1, txLock := false, reconfigures := 0), env);
      case _ =>
    }
  }

  /** How many accepted requests have neither started anything nor a message pending;
      it is negative when more has started than was asked for. */
  function Unanswered(m: Mode): int {
    m.accepted - m.started - m.tones - m.reconfigures
  }

  /** What an event adds to that number: a reconfigure message that is handled, or dropped
      by the timer, adds one unless a transition uses it; a transition that no request on
      this earbud has started takes one away when it reconfigures. */
  function Change(m: Mode, e: Event): int
    requires CanHappen(m, e)
  {
    match e
    case DeliverReconfigure(_) => if Transitional(m.state) then 0 else 1
    case TimerFires(_) => m.reconfigures - (if Transitional(m.state) then 1 else 0)
    case DeliverToggle(env) =>
      if env.primary || (env.mirroring && (m.toggles[0] || env.peerConnected)) then -1 else 0
    case PeerDown(env, _) =>
      if !env.primary && m.state != Disabled && m.state != Disabling && env.peerConnected && env.mirroring
      then -1 else 0
    case _ => 0
  }

  /** Whether an event breaks the count; it can be told before the event is handled. */
  predicate Breaks(m: Mode, e: Event) {
    CanHappen(m, e) && Change(m, e) != 0
  }

  lemma SteadyCounts(m: Mode, target: State, env: Env)
    requires !Transitional(target)
    ensures Unanswered(SetState(m, target, env)) == Unanswered(m)
  {
  }

  lemma ReconfigureCounts(m: Mode, env: Env)
    ensures Unanswered(HandleReconfigure(m, env)) == Unanswered(m) - (if Transitional(m.state) then 1 else 0)
  {
    if Transitional(m.state) {
      SteadyCounts(m.(tones := m.tones + 1), if m.state == Enabling then Enabled else Disabled, env);
    }
  }

  lemma SendCounts(m: Mode, env: Env)
    requires Transitional(m.state)
    ensures Unanswered(SendAndReconfigure(m, env)) == Unanswered(m) - 1
  {
    if !env.peerConnected { ReconfigureCounts(m, env); }
  }

  /** Whether entering a transition starts something or sends a message. */
  predicate Costs(target: State, env: Env) {
    env.primary || (env.mirroring && (target == Enabling || env.peerConnected))
  }

  lemma EntryCounts(m: Mode, target: State, env: Env)
    requires Transitional(target) && m.state != target
    ensures Unanswered(SetState(m, target, env)) == Unanswered(m) - (if Costs(target, env) then 1 else 0)
  {
    var n := m.(state := target, stateLock := true);
    SendCounts(n, env);
    SteadyCounts(n, Goal(target), env);
  }

  lemma RequestCounts(m: Mode, env: Env)
    ensures Unanswered(Enable(m, env)) == Unanswered(Disable(m, env)) == Unanswered(m)
  {
    if EnableAccepted(m, env) { EntryCounts(m.(accepted := m.accepted + 1), Enabling, env); }
    if DisableAccepted(m, env) { EntryCounts(m.(accepted := m.accepted + 1), Disabling, env); }
  }

  /** In every role: an event changes the count by exactly that. */
  lemma CountChanges(m: Mode, e: Event)
    requires Inv(m) && CanHappen(m, e)
    ensures Unanswered(Step(m, e)) == Unanswered(m) + Change(m, e)
  {
    match e
    case Toggle(env) => RequestCounts(m, env);
    case EnableCall(env) => RequestCounts(m, env);
    case DisableCall(env) => RequestCounts(m, env);
    case DeliverDisconnection(env) => RequestCounts(m.(disconnections := m.disconnections - 1), env);
    case DeliverToggle(env) =>
      EntryCounts(m.(toggles := m.toggles[1..]), if m.toggles[0] then Enabling else Disabling, env);
    case DeliverReconfigure(env) => ReconfigureCounts(m.(reconfigures := m.reconfigures - 1), env);
    case TimerFires(env) =>
      ReconfigureCounts(m.(timers := m.timers - 1, txLock := false, reconfigures := 0), env);
    case KymeraDone(env) =>
      var n := m.(completions := m.completions - 1);
      SteadyCounts(n, Goal(n.state), env);
    case PeerDown(env, left) =>
      var n := m.(txLock := false, timers := 0, unconfirmed := left);
      if n.state != Disabling { EntryCounts(n, Disabling, env); }
    case _ =>
  }

  /** Every accepted request has been answered, all along a run. */
  predicate AlwaysAnswered(es: seq<Event>) {
    Unanswered(Run(Initial, es)) == 0 && (es == [] || AlwaysAnswered(es[..|es| - 1]))
  }

  predicate NeverBreaks(es: seq<Event>) {
    es == [] || (!Breaks(Run(Initial, es[..|es| - 1]), es[|es| - 1]) && NeverBreaks(es[..|es| - 1]))
  }

  /** Over every run, in every role history, the count holds throughout exactly when no
      event breaks it. */
  lemma {:induction false} CountHoldsExactly(es: seq<Event>)
    ensures AlwaysAnswered(es) <==> NeverBreaks(es)
  {
    if es != [] {
      var front, e := es[..|es| - 1], es[|es| - 1];
      CountHoldsExactly(front);
      AlwaysInv(front);
      AnsweredNow(front);
      if CanHappen(Run(Initial, front), e) { CountChanges(Run(Initial, front), e); }
    }
  }

  lemma AnsweredNow(es: seq<Event>)
    ensures AlwaysAnswered(es) ==> Unanswered(Run(Initial, es)) == 0
  {
  }

  /** A run that breaks it goes on from the first request, which leaves such a mode: the
      primary earbud that has sent its message becomes secondary when the peer is lost, and
      the reconfigure message is left behind and then starts nothing. */
  lemma RoleChangeBreaksCount(m: Mode, down: Env)
    requires m.state == Enabling && m.reconfigures == 1 && !down.primary && !down.peerConnected
    ensures var k := Step(m, PeerDown(down, 0)); var n := Step(k, DeliverReconfigure(down));
      && k.state == Disabled && Breaks(k, DeliverReconfigure(down))
      && n.accepted == m.accepted && n.started == m.started && n.tones == m.tones && n.reconfigures == 0
  {
    var k := m.(txLock := false, timers := 0, unconfirmed := 0, state := Disabled, stateLock := false);
    var d := m.(txLock := false, timers := 0, unconfirmed := 0, state := Disabling, stateLock := true);
    assert SetState(d, Disabled, down) == k;
  }

  /** The module itself, with the counters of what is on its way to it. */
  class EarbudGamingMode {
    var state: State
    var stateLock: bool
    var txLock: bool
    var reconfigures: nat
    var timers: nat
    var completions: nat
    var toggles: seq<bool>
    var disconnections: nat
    var unconfirmed: nat
    ghost var accepted: nat
    ghost var started: nat
    ghost var tones: nat

    ghost function Snapshot(): Mode
      reads this
    {
      Mode(state, stateLock, txLock, reconfigures, timers, completions, toggles, disconnections, unconfirmed,
           accepted, started, tones)
    }

    constructor ()
      ensures Snapshot() == Initial
    {
      state, stateLock, txLock := Disabled, false, false;
      reconfigures, timers, completions, toggles, disconnections, unconfirmed := 0, 0, 0, [], 0, 0;
      accepted, started, tones := 0, 0, 0;
    }

    method ReconfigureLatency()
      modifies this
      ensures Snapshot() == Reconfigure(old(Snapshot()))
    {
      completions := completions + 1;
      started := started + 1;
    }

    method EnterState(target: State, env: Env)
      modifies this
      ensures Snapshot() == SetState(old(Snapshot()), target, env)
      decreases Depth(target), 3
    {
      if state == target {
        return;
      }
      state := target;
      match target {
        case Enabling => EnterEnablingState(env);
        case Disabling => EnterDisablingState(env);
        case Enabled => stateLock := false;
        case Disabled => stateLock := false;
        case None =>
      }
    }

    method EnterEnablingState(env: Env)
      modifies this
      ensures Snapshot() == EnterEnabling(old(Snapshot()), env)
      decreases 1, 2
    {
      stateLock := true;
      if env.primary {
        SendAndReconfigureLatency(env);
      } else if env.mirroring {
        ReconfigureLatency();
      } else {
        EnterState(Enabled, env);
      }
    }

    method EnterDisablingState(env: Env)
      modifies this
      ensures Snapshot() == EnterDisabling(old(Snapshot()), env)
      decreases 1, 2
    {
      stateLock := true;
      if env.primary {
        SendAndReconfigureLatency(env);
      } else if env.peerConnected && env.mirroring {
        ReconfigureLatency();
      } else {
        EnterState(Disabled, env);
      }
    }

    method SendMode(env: Env) returns (sent: bool)
      modifies this
      ensures sent == env.peerConnected && Snapshot() == SendToPeer(old(Snapshot()), env)
    {
      sent := false;
      if env.peerConnected {
        unconfirmed := unconfirmed + 1;
        txLock := true;
        sent := true;
      }
    }

    method SendAndReconfigureLatency(env: Env)
      modifies this
      ensures Snapshot() == SendAndReconfigure(old(Snapshot()), env)
      decreases 1, 1
    {
      var sent := SendMode(env);
      if sent {
        reconfigures := reconfigures + 1;
        timers := timers + 1;
      } else {
        OnReconfigure(env);
      }
    }

    method OnReconfigure(env: Env)
      modifies this
      ensures Snapshot() == HandleReconfigure(old(Snapshot()), env)
      decreases 1, 0
    {
      if state == Enabling {
        if env.streaming {
          ReconfigureLatency();
        } else {
          tones := tones + 1;
          EnterState(Enabled, env);
        }
      } else if state == Disabling {
        if env.streaming {
          ReconfigureLatency();
        } else {
          tones := tones + 1;
          EnterState(Disabled, env);
        }
      }
    }

    method EnableMode(env: Env) returns (ok: bool)
      modifies this
      ensures ok == EnableAccepted(old(Snapshot()), env) && Snapshot() == Enable(old(Snapshot()), env)
    {
      ok := env.a2dpConnected && env.primary && state == Disabled;
      if ok {
        accepted := accepted + 1;
        EnterState(Enabling, env);
      }
    }

    method DisableMode(env: Env) returns (ok: bool)
      modifies this
      ensures ok == DisableAccepted(old(Snapshot()), env) && Snapshot() == Disable(old(Snapshot()), env)
    {
      ok := state == Enabled && env.primary;
      if ok {
        accepted := accepted + 1;
        EnterState(Disabling, env);
      }
    }

    method OnToggle(env: Env)
      modifies this
      ensures Snapshot() == Toggled(old(Snapshot()), env)
    {
      match state {
        case Disabled => var _ := EnableMode(env);
        case Enabled => var _ := DisableMode(env);
        case _ =>
      }
    }

    method OnReconfigComplete(env: Env)
      modifies this
      ensures Snapshot() == ReconfigComplete(old(Snapshot()), env)
    {
      if state == Enabling {
        EnterState(Enabled, env);
      } else if state == Disabling {
        EnterState(Disabled, env);
      }
    }

    method PeerConnected(env: Env)
      modifies this
      ensures Snapshot() == OnPeerUp(old(Snapshot()), env)
    {
      if env.primary && (state == Enabled || state == Enabling) {
        var _ := SendMode(env);
      }
    }

    method PeerDisconnected(env: Env, left: nat)
      modifies this
      ensures Snapshot() == OnPeerDown(old(Snapshot()), env, left)
    {
      txLock := false;
      timers := 0;
      unconfirmed := left;
      if !env.primary && state != Disabled {
        EnterState(Disabling, env);
      }
    }

    method OnDisconnection(env: Env)
      requires disconnections > 0 && !stateLock
      modifies this
      ensures Snapshot() == Step(old(Snapshot()), DeliverDisconnection(env))
    {
      disconnections := disconnections - 1;
      if state == Enabled {
        var _ := DisableMode(env);
      }
    }

    method OnCancelWait(env: Env)
      requires timers > 0
      modifies this
      ensures Snapshot() == Step(old(Snapshot()), TimerFires(env))
    {
      timers := timers - 1;
      txLock := false;
      reconfigures := 0;
      OnReconfigure(env);
    }

    method OnPeerToggle(env: Env)
      requires toggles != [] && !stateLock
      modifies this
      ensures Snapshot() == Step(old(Snapshot()), DeliverToggle(env))
    {
      var enable := toggles[0];
      toggles := toggles[1..];
      if enable {
        EnterState(Enabling, env);
      } else {
        EnterState(Disabling, env);
      }
    }

    method PeerTxConfirmed()
      requires unconfirmed > 0
      modifies this
      ensures Snapshot() == Step(old(Snapshot()), TxConfirmed)
    {
      unconfirmed := unconfirmed - 1;
      txLock := false;
      timers := 0;
    }

    method OnCompletion(env: Env)
      requires completions > 0
      modifies this
      ensures Snapshot() == Step(old(Snapshot()), KymeraDone(env))
    {
      completions := completions - 1;
      OnReconfigComplete(env);
    }

    /** The message handler: one event, if it can happen. */
    method HandleMessage(e: Event)
      modifies this
      ensures Snapshot() == Step(old(Snapshot()), e)
    {
      match e {
        case Toggle(env) => OnToggle(env);
        case EnableCall(env) => var _ := EnableMode(env);
        case DisableCall(env) => var _ := DisableMode(env);
        case A2dpLost => disconnections := disconnections + 1;
        case PeerMessage(enable) => toggles := toggles + [enable];
        case PeerUp(env) => PeerConnected(env);
        case PeerDown(env, left) => if left <= unconfirmed { PeerDisconnected(env, left); }
        case TxConfirmed => if unconfirmed > 0 { PeerTxConfirmed(); }
        case DeliverDisconnection(env) => if disconnections > 0 && !stateLock { OnDisconnection(env); }
        case DeliverToggle(env) => if toggles != [] && !stateLock { OnPeerToggle(env); }
        case DeliverReconfigure(env) =>
          if reconfigures > 0 && !txLock {
            reconfigures := reconfigures - 1;
            OnReconfigure(env);
          }
        case TimerFires(env) => if timers > 0 { OnCancelWait(env); }
        case KymeraDone(env) => if completions > 0 { OnCompletion(env); }
      }
    }
  }
}

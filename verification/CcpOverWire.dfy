/** The protocol layer on the wire layer: what the wire accepts and tells, the protocol
    asks for and hears. */
module CcpOverWire {
  import opened Options
  import Ccp
  import Wire

  datatype Stack = Stack(tracks: Ccp.Each<Ccp.Track>, wire: Wire.Layer)

  const NoTrack := Ccp.Track(Ccp.NoTransaction, 0, false)
  const Initial := Stack(Ccp.Each(NoTrack, NoTrack), Wire.Initial)

  /** A message for one earbud, a periodic tick of the protocol for one earbud, or anything
      that reaches the wire from elsewhere. A payload that comes carries `ms`. */
  datatype Input =
    | Ask(e: Ccp.EarbudId, len: nat, needAnswer: bool, active: bool)
    | PollTick(e: Ccp.EarbudId, active: bool)
    | Broadcast(len: nat, active: bool)
    | Arrives(e: Ccp.EarbudId, p: Wire.Packet)
    | Corrupted(e: Ccp.EarbudId)
    | WireTick(active: bool, activeRight: bool, ms: Ccp.Each<Ccp.Message>)

  /** The wire takes a message of n octets for e. */
  predicate Accepts(w: Wire.Layer, e: Ccp.EarbudId, n: nat, active: bool) {
    Wire.Accepts(w, n, active) && !Wire.Pending(w.links.Get(e))
  }

  /** What reaches the wire. The protocol adds one octet to a message; a poll is empty. */
  function ToWire(s: Stack, x: Input): Option<Wire.Input> {
    match x
    case Ask(e, len, needAnswer, active) =>
      if len + 2 <= Ccp.CCP_MAX_MSG_SIZE && !s.tracks.Get(e).t.busy then Some(Wire.Send(e, len + 1, active)) else None
    case PollTick(e, active) => if Ccp.PollDue(s.tracks.Get(e).t) then Some(Wire.Send(e, 0, active)) else None
    case Broadcast(len, active) => Some(Wire.Broadcast(len, active))
    case Arrives(e, p) => Some(Wire.Arrives(e, p))
    case Corrupted(e) => Some(Wire.Corrupted(e))
    case WireTick(active, activeRight, ms) => Some(Wire.Tick(active, activeRight))
  }

  /** What the wire tells of an earbud at its turn. */
  function Told(l: Wire.Link, active: bool, m: Ccp.Message): Option<Ccp.Event> {
    var r := Wire.ProcessRx(l);
    if Wire.Taking(l) then Some(if l.rx.value.payload then Ccp.RxIn(m) else Ccp.AckIn)
    else if Wire.Pending(r) && !Wire.Exhausted(r) && !Wire.Pending(Wire.Manage(r, active)) then Some(Ccp.GiveUpIn)
    else None
  }

  /** What the protocol sees for e. */
  function Sees(s: Stack, x: Input, e: Ccp.EarbudId): Option<Ccp.Event> {
    match x
    case Ask(f, len, needAnswer, active) =>
      if f == e && needAnswer && len + 2 <= Ccp.CCP_MAX_MSG_SIZE
      then Some(Ccp.Request(Accepts(s.wire, e, len + 1, active))) else None
    case PollTick(f, active) => if f == e then Some(Ccp.Tick(Accepts(s.wire, e, 0, active))) else None
    case Broadcast(len, active) =>
      if Wire.Accepts(s.wire, len, active) && Wire.Pending(s.wire.links.Get(e)) then Some(Ccp.AbortIn) else None
    case Arrives(f, p) => None
    case Corrupted(f) => None
    case WireTick(active, activeRight, ms) =>
      if s.wire.broadcastLen > 0 then None
      else Told(Wire.AtTurn(s.wire, e, active).links.Get(e), if e == Ccp.Left then active else activeRight, ms.Get(e))
  }

  function Heard(k: Ccp.Track, ev: Option<Ccp.Event>): Ccp.Track {
    if ev.Some? then Ccp.Next(k, ev.value) else k
  }

  function Step(s: Stack, x: Input): Stack {
    var i := ToWire(s, x);
    Stack(Ccp.Each(Heard(s.tracks.left, Sees(s, x, Ccp.Left)), Heard(s.tracks.right, Sees(s, x, Ccp.Right))),
          if i.Some? then Wire.Step(s.wire, i.value) else s.wire)
  }

  function Run(s: Stack, xs: seq<Input>): Stack {
    if xs == [] then s else Step(Run(s, xs[..|xs| - 1]), xs[|xs| - 1])
  }

  /** While a transaction is busy, an acknowledgement is owed exactly if the wire has a
      message for the earbud pending. */
  ghost predicate Linked(s: Stack, e: Ccp.EarbudId) {
    var k := s.tracks.Get(e);
    && Ccp.Tracked(k)
    && (k.t.busy ==> (k.owed <==> Wire.Pending(s.wire.links.Get(e))))
  }

  /** An acknowledgement comes although nothing is pending. */
  predicate Stray(s: Stack, x: Input, e: Ccp.EarbudId) {
    Sees(s, x, e) == Some(Ccp.AckIn) && !Wire.Pending(s.wire.links.Get(e))
  }

  /** The wire tells of every end of a pending message, and of nothing else but stray
      acknowledgements and payloads. */
  lemma TurnTells(w: Wire.Layer, e: Ccp.EarbudId, active: bool, m: Ccp.Message)
    ensures var l, t := w.links.Get(e), Wire.ManageEarbud(w, e, active).links.Get(e);
      var ev := Told(l, active, m);
      && (ev == None ==> !Wire.Taking(l) && (Wire.Pending(t) <==> Wire.Pending(l)))
      && (ev == Some(Ccp.AckIn) ==> !Wire.Pending(t))
      && (ev != None ==> ev.value.AckIn? || ev.value.RxIn? || ev.value.GiveUpIn?)
  {
  }

  lemma TickTells(s: Stack, x: Input, e: Ccp.EarbudId)
    requires x.WireTick?
    ensures var l, t, ev := s.wire.links.Get(e), Step(s, x).wire.links.Get(e), Sees(s, x, e);
      && (ev == None ==> Wire.Untaken(s.wire, Wire.Tick(x.active, x.activeRight), e))
      && (ev == None ==> (Wire.Pending(t) <==> Wire.Pending(l)))
      && (ev == Some(Ccp.AckIn) ==> !Wire.Pending(t))
      && (ev != None ==> ev.value.AckIn? || ev.value.RxIn? || ev.value.GiveUpIn?)
  {
    if s.wire.broadcastLen == 0 {
      var m := Wire.ManageEarbud(s.wire, Ccp.Left, x.active);
      if e == Ccp.Left {
        TurnTells(s.wire, e, x.active, x.ms.left);
        Wire.OtherTurn(m, Ccp.Left, Ccp.Right, x.activeRight);
      } else {
        Wire.OtherTurn(s.wire, Ccp.Right, Ccp.Left, x.active);
        TurnTells(m, e, x.activeRight, x.ms.right);
      }
    }
  }

  lemma StepLinks(s: Stack, x: Input, e: Ccp.EarbudId)
    requires Linked(s, e)
    ensures Linked(Step(s, x), e)
  {
    if x.WireTick? { TickTells(s, x, e); }
  }

  /** Over every run of both layers, whatever comes from the earbuds and however the line is
      used: of a busy transaction the wire has a message pending exactly if an answer is owed. */
  lemma {:induction false} AlwaysLinked(xs: seq<Input>, e: Ccp.EarbudId)
    ensures Linked(Run(Initial, xs), e)
  {
    if xs != [] {
      AlwaysLinked(xs[..|xs| - 1], e);
      StepLinks(Run(Initial, xs[..|xs| - 1]), xs[|xs| - 1], e);
    }
  }

  /** So what a busy transaction sees is fair exactly if it is not a stray acknowledgement. */
  lemma FairExactly(xs: seq<Input>, x: Input, e: Ccp.EarbudId)
    requires Run(Initial, xs).tracks.Get(e).t.busy && Sees(Run(Initial, xs), x, e).Some?
    ensures Ccp.Fair(Run(Initial, xs).tracks.Get(e), Sees(Run(Initial, xs), x, e).value) <==>
            !Stray(Run(Initial, xs), x, e)
  {
    AlwaysLinked(xs, e);
  }

  /** What the protocol sees for e over a run. */
  function Events(s: Stack, xs: seq<Input>, e: Ccp.EarbudId): seq<Ccp.Event> {
    if xs == [] then []
    else
      var ev := Sees(Run(s, xs[..|xs| - 1]), xs[|xs| - 1], e);
      if ev.Some? then Events(s, xs[..|xs| - 1], e) + [ev.value] else Events(s, xs[..|xs| - 1], e)
  }

  /** Its transaction is busy, and no stray acknowledgement comes, all along a run. */
  ghost predicate StaysBusy(s: Stack, xs: seq<Input>, e: Ccp.EarbudId) {
    && Run(s, xs).tracks.Get(e).t.busy
    && (xs == [] ||
        (StaysBusy(s, xs[..|xs| - 1], e) && !Stray(Run(s, xs[..|xs| - 1]), xs[|xs| - 1], e)))
  }

  lemma RunNext(k: Ccp.Track, es: seq<Ccp.Event>, ev: Ccp.Event)
    ensures Ccp.Run(k, es + [ev]) == Ccp.Next(Ccp.Run(k, es), ev)
    ensures Ccp.StaysBusy(k, es) && Ccp.Fair(Ccp.Run(k, es), ev) && Ccp.Next(Ccp.Run(k, es), ev).t.busy ==>
      Ccp.StaysBusy(k, es + [ev])
  {
    assert (es + [ev])[..|es|] == es;
  }

  /** A run of both layers is a run of the protocol on what it sees, with fair
      acknowledgements as long as none is stray. */
  lemma {:induction false} Projects(s: Stack, xs: seq<Input>, e: Ccp.EarbudId)
    requires Linked(s, e)
    ensures Linked(Run(s, xs), e)
    ensures Ccp.Run(s.tracks.Get(e), Events(s, xs, e)) == Run(s, xs).tracks.Get(e)
    ensures StaysBusy(s, xs, e) ==> Ccp.StaysBusy(s.tracks.Get(e), Events(s, xs, e))
  {
    if xs != [] {
      Projects(s, xs[..|xs| - 1], e);
      var m, x := Run(s, xs[..|xs| - 1]), xs[|xs| - 1];
      StepLinks(m, x, e);
      if Sees(m, x, e).Some? {
        RunNext(s.tracks.Get(e), Events(s, xs[..|xs| - 1], e), Sees(m, x, e).value);
      }
    }
  }

  /** A turn of the message that is pending for e. */
  predicate MessageTurn(s: Stack, x: Input, e: Ccp.EarbudId) {
    x.WireTick? && Wire.Pending(s.wire.links.Get(e)) && Wire.Turn(s.wire, Wire.Tick(x.active, x.activeRight), e)
  }

  predicate Restarts(s: Stack, x: Input) {
    x.WireTick? && Wire.Restarts(s.wire, Wire.Tick(x.active, x.activeRight))
  }

  function MessageTurns(s: Stack, xs: seq<Input>, e: Ccp.EarbudId): nat {
    if xs == [] then 0
    else MessageTurns(s, xs[..|xs| - 1], e) + (if MessageTurn(Run(s, xs[..|xs| - 1]), xs[|xs| - 1], e) then 1 else 0)
  }

  function RestartCount(s: Stack, xs: seq<Input>): nat {
    if xs == [] then 0
    else RestartCount(s, xs[..|xs| - 1]) + (if Restarts(Run(s, xs[..|xs| - 1]), xs[|xs| - 1]) then 1 else 0)
  }

  /** A bound on the turns that the messages of a transaction can still have: those of the
      polls to come, and of the one that is pending. */
  function TurnsLeft(s: Stack, e: Ccp.EarbudId): nat
    requires Linked(s, e) && Wire.Inv(s.wire)
  {
    var l := s.wire.links.Get(e);
    (5 - s.tracks.Get(e).t.pollCount) * 606 + (if Wire.Pending(l) then Wire.Remaining(l) + 1 else 0)
  }

  lemma WireKeeps(s: Stack, x: Input)
    requires Wire.Inv(s.wire)
    ensures Wire.Inv(Step(s, x).wire)
  {
    var i := ToWire(s, x);
    if i.Some? { Wire.StepKeeps(s.wire, i.value); }
  }

  lemma BusyTick(s: Stack, x: Input, e: Ccp.EarbudId)
    requires x.WireTick? && Linked(s, e) && Wire.Inv(s.wire) && !Stray(s, x, e)
    requires s.tracks.Get(e).t.busy && Step(s, x).tracks.Get(e).t.busy
    ensures Linked(Step(s, x), e) && Wire.Inv(Step(s, x).wire)
    ensures TurnsLeft(Step(s, x), e) + (if MessageTurn(s, x, e) then 1 else 0)
      <= TurnsLeft(s, e) + (if Restarts(s, x) then 405 else 0)
  {
    StepLinks(s, x, e);
    WireKeeps(s, x);
    TickTells(s, x, e);
    if Sees(s, x, e) == None && Wire.Pending(s.wire.links.Get(e)) {
      Wire.PendingStep(s.wire, Wire.Tick(x.active, x.activeRight), e);
    }
  }

  lemma BusyStep(s: Stack, x: Input, e: Ccp.EarbudId)
    requires Linked(s, e) && Wire.Inv(s.wire) && !Stray(s, x, e)
    requires s.tracks.Get(e).t.busy && Step(s, x).tracks.Get(e).t.busy
    ensures Linked(Step(s, x), e) && Wire.Inv(Step(s, x).wire)
    ensures TurnsLeft(Step(s, x), e) + (if MessageTurn(s, x, e) then 1 else 0)
      <= TurnsLeft(s, e) + (if Restarts(s, x) then 405 else 0)
  {
    StepLinks(s, x, e);
    WireKeeps(s, x);
    if x.WireTick? { BusyTick(s, x, e); }
  }

  lemma {:induction false} BusyUsesUp(s: Stack, xs: seq<Input>, e: Ccp.EarbudId)
    requires Linked(s, e) && Wire.Inv(s.wire) && StaysBusy(s, xs, e)
    ensures Linked(Run(s, xs), e) && Wire.Inv(Run(s, xs).wire)
    ensures MessageTurns(s, xs, e) + TurnsLeft(Run(s, xs), e) <= TurnsLeft(s, e) + 405 * RestartCount(s, xs)
  {
    if xs != [] {
      BusyUsesUp(s, xs[..|xs| - 1], e);
      BusyStep(Run(s, xs[..|xs| - 1]), xs[|xs| - 1], e);
    }
  }

  lemma {:induction false} AlwaysGood(xs: seq<Input>)
    ensures Wire.Inv(Run(Initial, xs).wire)
  {
    if xs != [] {
      AlwaysGood(xs[..|xs| - 1]);
      WireKeeps(Run(Initial, xs[..|xs| - 1]), xs[|xs| - 1]);
    }
  }

  /** From the request on, and with no stray acknowledgement, a transaction is not busy for
      more than 3636 turns of its messages on the wire, and 405 more for each restart, and
      not for more than 556 acknowledgements and ticks that move it on. While it is busy, it
      has one or the other coming: a message is pending, or the time of the next poll runs. */
  lemma BusyEnds(before: seq<Input>, xs: seq<Input>, e: Ccp.EarbudId)
    requires Run(Initial, before).tracks.Get(e).t == Ccp.Requested
    requires StaysBusy(Run(Initial, before), xs, e)
    ensures var s := Run(Initial, before);
      && MessageTurns(s, xs, e) <= 3636 + 405 * RestartCount(s, xs)
      && Ccp.Steps(s.tracks.Get(e), Events(s, xs, e)) <= 556
      && (Wire.Pending(Run(s, xs).wire.links.Get(e)) || Run(s, xs).tracks.Get(e).t.pollTimeout > 0)
  {
    var s := Run(Initial, before);
    AlwaysLinked(before, e);
    AlwaysGood(before);
    BusyUsesUp(s, xs, e);
    Wire.AtMost605(s.wire.links.Get(e));
    Projects(s, xs, e);
    Ccp.BusyIsBounded(s.tracks.Get(e), Events(s, xs, e));
  }
}

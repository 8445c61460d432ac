/** The wire layer below the protocol: for each earbud one message at a time, sent again
    until it is acknowledged or given up, with sequence bits in both directions; and
    broadcasts, which discard everything in progress. */
module Wire {
  import opened Options
  import Ccp

  const NO_OF_BYTES := 2
  const MAX_PACKET_SIZE := 16
  const NO_RESPONSE_TIMEOUT := 200
  const MAX_RETRIES := 2
  const BROADCAST_SENDS := 3
  const BROADCAST_TIMEOUT := 10

  /** A packet with a valid checksum: its sequence bits, and whether it carries a payload. */
  datatype Packet = Packet(sn: bool, nesn: bool, payload: bool)

  /** What has happened to the messages for one earbud: sends that were accepted, payloads
      that came while nothing was pending, acknowledgements of a pending message and stray
      ones, messages given up and aborted; and, since the sequence bits were last reset,
      by which bit each packet was accepted, and the bits of the packets that were new. */
  datatype Log = Log(sends: nat, unasked: nat, acks: nat, strays: nat, giveUps: nat, aborts: nat,
                     taken: seq<bool>, news: seq<bool>)

  const NoLog := Log(0, 0, 0, 0, 0, 0, [], [])

  /** The transaction with one earbud. It is pending while `txLen` is not zero. */
  datatype Link = Link(txLen: nat, rx: Option<Packet>, retry: bool, timeout: nat, retries: nat, nacks: nat,
                       sn: bool, nesn: bool, log: Log)

  const NoLink := Link(0, None, false, 0, 0, 0, false, false, NoLog)

  datatype Layer = Layer(links: Ccp.Each<Link>, broadcastLen: nat, broadcastTimeout: nat, broadcastCount: nat)

  const Initial := Layer(Ccp.Each(NoLink, NoLink), 0, 0, 0)

  predicate Pending(l: Link) {
    l.txLen > 0
  }

  /** A packet is taken if its bit differs from the one being sent; otherwise it says that
      the message has not arrived. */
  predicate Takes(l: Link, p: Packet) {
    p.nesn != l.sn
  }

  /** A taken packet: a payload is passed on and leaves an acknowledgement to be sent;
      anything else acknowledges. */
  function Take(l: Link, p: Packet): Link {
    var g := l.log.(taken := l.log.taken + [p.nesn]);
    if p.payload
    then l.(sn := !l.sn, txLen := NO_OF_BYTES, retries := 0, retry := true,
            log := if Pending(l) then g else g.(unasked := g.unasked + 1))
    else l.(sn := !l.sn, txLen := 0,
            log := if Pending(l) then g.(acks := g.acks + 1) else g.(strays := g.strays + 1))
  }

  /** A packet is new if it carries the bit that is expected next. */
  function Hear(l: Link, p: Packet): Link {
    if p.sn == l.nesn then l.(nesn := !l.nesn, log := l.log.(news := l.log.news + [p.sn])) else l
  }

  function ProcessRx(l: Link): Link {
    match l.rx
    case None => l
    case Some(p) =>
      var m := Hear(l, p).(rx := None);
      if Takes(l, p) then Take(m, p) else m.(retry := true, nacks := (m.nacks + 1) % 0x100)
  }

  function GiveUp(l: Link): Link {
    l.(txLen := 0, log := l.log.(giveUps := l.log.giveUps + 1))
  }

  /** Both sides start again from zero bits, and what is pending is sent again. */
  function Restarted(l: Link): Link {
    l.(sn := false, nesn := false, retries := 0, retry := true, nacks := 0,
       log := l.log.(taken := [], news := []))
  }

  /** The retries of this message are used up although the earbud has answered. */
  predicate Exhausted(l: Link) {
    Pending(l) && l.retry && l.retries >= MAX_RETRIES && l.nacks > 0
  }

  /** A pending message waits for its answer, is sent again, or is given up. */
  function Manage(l: Link, active: bool): Link {
    if !Pending(l) then l
    else if l.retry then
      if l.retries < MAX_RETRIES then
        if active then l else l.(timeout := NO_RESPONSE_TIMEOUT, retries := l.retries + 1, retry := false)
      else if l.nacks > 0 then l
      else GiveUp(l)
    else if l.timeout == 0 then GiveUp(l)
    else l.(timeout := l.timeout - 1)
  }

  /** One tick for one earbud. */
  function ManageEarbud(s: Layer, e: Ccp.EarbudId, active: bool): Layer {
    var l := ProcessRx(s.links.Get(e));
    if Exhausted(l) then
      var t := s.links.Set(e, l);
      Layer(Ccp.Each(Restarted(t.left), Restarted(t.right)), NO_OF_BYTES, 0, 0)
    else s.(links := s.links.Set(e, Manage(l, active)))
  }

  function BroadcastTick(s: Layer, active: bool): Layer {
    if s.broadcastTimeout > 0 then s.(broadcastTimeout := s.broadcastTimeout - 1)
    else if active then s
    else if s.broadcastCount + 1 < BROADCAST_SENDS
    then s.(broadcastCount := s.broadcastCount + 1, broadcastTimeout := BROADCAST_TIMEOUT)
    else s.(broadcastCount := s.broadcastCount + 1, broadcastLen := 0)
  }

  /** The periodic function; the second answer about the link below is for the right. */
  function Periodic(s: Layer, active: bool, activeRight: bool): Layer {
    if s.broadcastLen > 0 then BroadcastTick(s, active)
    else ManageEarbud(ManageEarbud(s, Ccp.Left, active), Ccp.Right, activeRight)
  }

  /** A broadcast clears a transaction, and aborts what was pending in it. */
  function Cleared(l: Link): Link {
    NoLink.(log := l.log.(aborts := l.log.aborts + (if Pending(l) then 1 else 0), taken := [], news := []))
  }

  function Sent(l: Link, len: nat): Link {
    l.(txLen := len + NO_OF_BYTES, timeout := NO_RESPONSE_TIMEOUT, retries := 0, nacks := 0, retry := false,
       log := l.log.(sends := l.log.sends + 1))
  }

  predicate Accepts(s: Layer, len: nat, active: bool) {
    len <= MAX_PACKET_SIZE - NO_OF_BYTES && s.broadcastLen == 0 && !active
  }

  datatype Input =
    | Send(e: Ccp.EarbudId, len: nat, active: bool)
    | Broadcast(len: nat, active: bool)
    | Arrives(e: Ccp.EarbudId, p: Packet)
    | Corrupted(e: Ccp.EarbudId)
    | Tick(active: bool, activeRight: bool)

  function Step(s: Layer, i: Input): Layer {
    match i
    case Send(e, len, active) =>
      if Accepts(s, len, active) && !Pending(s.links.Get(e)) then s.(links := s.links.Set(e, Sent(s.links.Get(e), len)))
      else s
    case Broadcast(len, active) =>
      if Accepts(s, len, active)
      then Layer(Ccp.Each(Cleared(s.links.left), Cleared(s.links.right)), len + NO_OF_BYTES, BROADCAST_TIMEOUT, 1)
      else s
    case Arrives(e, p) => s.(links := s.links.Set(e, s.links.Get(e).(rx := Some(p))))
    case Corrupted(e) => s.(links := s.links.Set(e, s.links.Get(e).(retry := true)))
    case Tick(active, activeRight) => Periodic(s, active, activeRight)
  }

  function Run(s: Layer, ins: seq<Input>): Layer {
    if ins == [] then s else Step(Run(s, ins[..|ins| - 1]), ins[|ins| - 1])
  }

  /** Every accepted send, and every acknowledgement that a payload asks for, is pending or
      has ended in exactly one way: acknowledged, given up or aborted. */
  predicate Balanced(l: Link) {
    l.log.sends + l.log.unasked == l.log.acks + l.log.giveUps + l.log.aborts + (if Pending(l) then 1 else 0)
  }

  predicate Alternates(first: bool, bits: seq<bool>) {
    (bits != [] ==> bits[0] == first) && forall k :: 0 < k < |bits| ==> bits[k] != bits[k - 1]
  }

  /** The accepted packets alternate their bits, and the layer's bit is that of the last;
      so do the new ones, and the layer asks for the bit that the last of them did not have. */
  predicate InSequence(l: Link) {
    && Alternates(true, l.log.taken) && l.sn == LastBit(true, l.log.taken)
    && Alternates(false, l.log.news) && l.nesn == !LastBit(false, l.log.news)
  }

  predicate Bounded(l: Link) {
    l.txLen <= MAX_PACKET_SIZE && l.timeout <= NO_RESPONSE_TIMEOUT && l.retries <= MAX_RETRIES && l.nacks < 0x100
  }

  predicate Good(l: Link) {
    Balanced(l) && InSequence(l) && Bounded(l)
  }

  ghost predicate Inv(s: Layer) {
    Good(s.links.left) && Good(s.links.right)
  }

  /** The last bit; before the first one, the opposite of that. */
  function LastBit(first: bool, bits: seq<bool>): bool {
    if bits == [] then !first else bits[|bits| - 1]
  }

  lemma OneMoreBit(first: bool, bits: seq<bool>, b: bool)
    requires Alternates(first, bits) && b != LastBit(first, bits)
    ensures Alternates(first, bits + [b]) && LastBit(first, bits + [b]) == b
  {
  }

  lemma TakeKeeps(l: Link, p: Packet)
    requires Good(l) && Takes(l, p)
    ensures Good(Take(l, p))
  {
    var m := Take(l, p);
    OneMoreBit(true, l.log.taken, p.nesn);
    assert m.log.taken == l.log.taken + [p.nesn];
    assert Balanced(m) && Bounded(m);
  }

  lemma HearKeeps(l: Link, p: Packet)
    requires Good(l)
    ensures Good(Hear(l, p).(rx := None)) && Hear(l, p).sn == l.sn
  {
    if p.sn == l.nesn { OneMoreBit(false, l.log.news, p.sn); }
  }

  lemma ProcessKeeps(l: Link)
    requires Good(l)
    ensures Good(ProcessRx(l))
  {
    if l.rx.Some? {
      var p := l.rx.value;
      var m := Hear(l, p).(rx := None);
      HearKeeps(l, p);
      if Takes(l, p) { TakeKeeps(m, p); }
    }
  }

  lemma ManageKeeps(l: Link, active: bool)
    requires Good(l)
    ensures Good(Manage(l, active)) && Good(Restarted(l)) && Good(Cleared(l))
  {
  }

  lemma EarbudKeeps(s: Layer, e: Ccp.EarbudId, active: bool)
    requires Inv(s)
    ensures Inv(ManageEarbud(s, e, active))
  {
    var l := ProcessRx(s.links.Get(e));
    ProcessKeeps(s.links.Get(e));
    ManageKeeps(l, active);
    var t := s.links.Set(e, l);
    ManageKeeps(t.left, active);
    ManageKeeps(t.right, active);
  }

  lemma StepKeeps(s: Layer, i: Input)
    requires Inv(s)
    ensures Inv(Step(s, i))
  {
    match i
    case Send(e, len, active) =>
    case Broadcast(len, active) => ManageKeeps(s.links.left, true); ManageKeeps(s.links.right, true);
    case Arrives(e, p) =>
    case Corrupted(e) =>
    case Tick(active, activeRight) =>
      if s.broadcastLen == 0 {
        EarbudKeeps(s, Ccp.Left, active);
        EarbudKeeps(ManageEarbud(s, Ccp.Left, active), Ccp.Right, activeRight);
      }
  }

  lemma {:induction false} RunKeeps(ins: seq<Input>)
    ensures Inv(Run(Initial, ins))
  {
    if ins != [] {
      RunKeeps(ins[..|ins| - 1]);
      StepKeeps(Run(Initial, ins[..|ins| - 1]), ins[|ins| - 1]);
    }
  }

  /** Over every run, whatever the earbuds send: each message ends in one way, and since the
      bits were last reset no two packets in a row with the same bit have been accepted, so
      a packet that is received twice counts once. */
  lemma AlwaysGood(ins: seq<Input>, e: Ccp.EarbudId)
    ensures var l := Run(Initial, ins).links.Get(e);
      && l.log.sends + l.log.unasked == l.log.acks + l.log.giveUps + l.log.aborts + (if Pending(l) then 1 else 0)
      && Alternates(true, l.log.taken)
      && (l.rx.Some? ==> (Takes(l, l.rx.value) <==> l.rx.value.nesn != LastBit(true, l.log.taken)))
  {
    RunKeeps(ins);
  }

  /** The other direction: since the bits were last reset no two packets in a row with the
      same bit have counted as new, so one that is repeated is new once, and the bit that
      every message carries asks for the other one than the last new packet had. */
  lemma AsksForTheNext(ins: seq<Input>, e: Ccp.EarbudId)
    ensures var l := Run(Initial, ins).links.Get(e); var news := l.log.news;
      && Alternates(false, news)
      && (l.nesn <==> news != [] && !news[|news| - 1])
      && (l.rx.Some? ==>
            ProcessRx(l).log.news == if l.rx.value.sn == LastBit(false, news) then news else news + [l.rx.value.sn])
  {
    RunKeeps(ins);
    if Run(Initial, ins).links.Get(e).rx.Some? { HearsTheNext(Run(Initial, ins).links.Get(e)); }
  }

  lemma HearsTheNext(l: Link)
    requires Good(l) && l.rx.Some?
    ensures ProcessRx(l).log.news ==
      if l.rx.value.sn == LastBit(false, l.log.news) then l.log.news else l.log.news + [l.rx.value.sn]
  {
  }

  /** A bound on the turns for which a pending message can still wait. */
  function Remaining(l: Link): nat
    requires Bounded(l)
  {
    (MAX_RETRIES - l.retries) * 202 + (if l.retry then 0 else l.timeout + 1)
  }

  lemma AtMost605(l: Link)
    requires Bounded(l)
    ensures Remaining(l) <= 605
  {
  }

  /** The line is free if the message has to be sent again. */
  predicate HasTurn(l: Link, active: bool) {
    !(l.retry && l.retries < MAX_RETRIES && active)
  }

  /** The layer when the turn of an earbud comes. */
  function AtTurn(s: Layer, e: Ccp.EarbudId, active: bool): Layer {
    if e == Ccp.Left then s else ManageEarbud(s, Ccp.Left, active)
  }

  function ActiveFor(i: Input, e: Ccp.EarbudId): bool
    requires i.Tick?
  {
    if e == Ccp.Left then i.active else i.activeRight
  }

  /** A packet that is taken is waiting for this link. */
  predicate Taking(l: Link) {
    l.rx.Some? && Takes(l, l.rx.value)
  }

  /** A tick on which no broadcast is on its way serves both earbuds. */
  predicate Serves(s: Layer, i: Input) {
    i.Tick? && s.broadcastLen == 0
  }

  /** With the packet that has come, if one has, the message for e has its turn. */
  predicate Turn(s: Layer, i: Input, e: Ccp.EarbudId) {
    Serves(s, i) && HasTurn(ProcessRx(AtTurn(s, e, i.active).links.Get(e)), ActiveFor(i, e))
  }

  /** One of the earbuds has answered, but the retries of its message are used up. */
  predicate Restarts(s: Layer, i: Input) {
    Serves(s, i) && exists e :: Exhausted(ProcessRx(AtTurn(s, e, i.active).links.Get(e)))
  }

  /** Nothing is taken for e, and the layer above makes no broadcast. */
  predicate Untaken(s: Layer, i: Input, e: Ccp.EarbudId) {
    !i.Broadcast? && (Serves(s, i) ==> !Taking(AtTurn(s, e, i.active).links.Get(e)))
  }

  lemma LinkTurn(l: Link, active: bool)
    requires Bounded(l) && Pending(l) && !Taking(l)
    ensures var m := ProcessRx(l); !Exhausted(m) && Pending(Manage(m, active)) ==>
      && Bounded(Manage(m, active))
      && Remaining(Manage(m, active)) + (if HasTurn(m, active) then 1 else 0) <= Remaining(l)
  {
  }

  lemma OwnTurn(s: Layer, e: Ccp.EarbudId, active: bool)
    requires Inv(s) && Pending(s.links.Get(e)) && !Taking(s.links.Get(e))
    requires Pending(ManageEarbud(s, e, active).links.Get(e))
    ensures Inv(ManageEarbud(s, e, active))
    ensures var l := s.links.Get(e);
      Remaining(ManageEarbud(s, e, active).links.Get(e)) + (if HasTurn(ProcessRx(l), active) then 1 else 0)
      <= if Exhausted(ProcessRx(l)) then 405 else Remaining(l)
  {
    EarbudKeeps(s, e, active);
    LinkTurn(s.links.Get(e), active);
  }

  /** The other earbud's turn takes nothing from what is pending. */
  lemma OtherTurn(s: Layer, e: Ccp.EarbudId, f: Ccp.EarbudId, active: bool)
    requires e != f
    ensures var l, t := s.links.Get(e), ManageEarbud(s, f, active).links.Get(e);
      && (Pending(t) <==> Pending(l)) && t.log.giveUps == l.log.giveUps
      && t == if Exhausted(ProcessRx(s.links.Get(f))) then Restarted(l) else l
  {
  }

  lemma ServedTick(s: Layer, i: Input, e: Ccp.EarbudId)
    requires Inv(s) && Serves(s, i) && Pending(s.links.Get(e)) && Untaken(s, i, e)
    requires Pending(Step(s, i).links.Get(e))
    ensures Inv(Step(s, i))
    ensures Remaining(Step(s, i).links.Get(e)) + (if Turn(s, i, e) then 1 else 0)
      <= Remaining(s.links.Get(e)) + (if Restarts(s, i) then 405 else 0)
  {
    StepKeeps(s, i);
    var t := ManageEarbud(s, Ccp.Left, i.active);
    assert AtTurn(s, Ccp.Right, i.active) == t && AtTurn(s, Ccp.Left, i.active) == s;
    EarbudKeeps(s, Ccp.Left, i.active);
    if e == Ccp.Left {
      OtherTurn(t, Ccp.Left, Ccp.Right, i.activeRight);
      OwnTurn(s, Ccp.Left, i.active);
    } else {
      OtherTurn(s, Ccp.Right, Ccp.Left, i.active);
      OwnTurn(t, Ccp.Right, i.activeRight);
    }
  }

  /** Nothing but a restart gives a pending message more time. */
  lemma PendingStep(s: Layer, i: Input, e: Ccp.EarbudId)
    requires Inv(s) && Pending(s.links.Get(e)) && Untaken(s, i, e) && Pending(Step(s, i).links.Get(e))
    ensures Inv(Step(s, i))
    ensures Remaining(Step(s, i).links.Get(e)) + (if Turn(s, i, e) then 1 else 0)
      <= Remaining(s.links.Get(e)) + (if Restarts(s, i) then 405 else 0)
  {
    StepKeeps(s, i);
    if Serves(s, i) { ServedTick(s, i, e); }
  }

  /** The message for e is pending all along a run. */
  ghost predicate StaysPending(s: Layer, ins: seq<Input>, e: Ccp.EarbudId) {
    Pending(Run(s, ins).links.Get(e)) && (ins == [] || StaysPending(s, ins[..|ins| - 1], e))
  }

  /** Nothing is taken for e, and no broadcast is made above, all along a run. */
  ghost predicate StaysUntaken(s: Layer, ins: seq<Input>, e: Ccp.EarbudId) {
    ins == [] ||
    (StaysUntaken(s, ins[..|ins| - 1], e) && Untaken(Run(s, ins[..|ins| - 1]), ins[|ins| - 1], e))
  }

  function Turns(s: Layer, ins: seq<Input>, e: Ccp.EarbudId): nat {
    if ins == [] then 0
    else Turns(s, ins[..|ins| - 1], e) + (if Turn(Run(s, ins[..|ins| - 1]), ins[|ins| - 1], e) then 1 else 0)
  }

  function RestartCount(s: Layer, ins: seq<Input>): nat {
    if ins == [] then 0
    else RestartCount(s, ins[..|ins| - 1]) + (if Restarts(Run(s, ins[..|ins| - 1]), ins[|ins| - 1]) then 1 else 0)
  }

  lemma {:induction false} PendingUsesUp(s: Layer, ins: seq<Input>, e: Ccp.EarbudId)
    requires Inv(s) && StaysPending(s, ins, e) && StaysUntaken(s, ins, e)
    ensures Inv(Run(s, ins))
    ensures Turns(s, ins, e) + Remaining(Run(s, ins).links.Get(e))
      <= Remaining(s.links.Get(e)) + 405 * RestartCount(s, ins)
  {
    if ins != [] {
      PendingUsesUp(s, ins[..|ins| - 1], e);
      PendingStep(Run(s, ins[..|ins| - 1]), ins[|ins| - 1], e);
    }
  }

  /** Whatever the earbuds send and the layer above sends to the other one: a message for
      which nothing is taken cannot be pending for more than 605 of its turns, and 405 more
      for each restart. */
  lemma PendingIsBounded(s: Layer, ins: seq<Input>, e: Ccp.EarbudId)
    requires Inv(s) && StaysPending(s, ins, e) && StaysUntaken(s, ins, e)
    ensures Turns(s, ins, e) <= 605 + 405 * RestartCount(s, ins)
  {
    PendingUsesUp(s, ins, e);
    AtMost605(s.links.Get(e));
  }

  /** The turns after which a pending message is given up if nothing more comes: the wait
      after the last send, and one send if it has to be sent again. */
  function TurnsLeft(l: Link): nat {
    if !l.retry then l.timeout + 1 else if l.retries < MAX_RETRIES then 202 else 1
  }

  /** Nothing has come that would bring a restart, and no packet is waiting. */
  predicate Unanswered(l: Link) {
    Pending(l) && l.rx.None? && !Exhausted(l)
  }

  /** Nothing comes for e, and neither a broadcast nor a restart disturbs it. */
  predicate Silent(s: Layer, i: Input, e: Ccp.EarbudId) {
    !i.Broadcast? && i != Corrupted(e) && !(i.Arrives? && i.e == e) && !Restarts(s, i)
  }

  ghost predicate AlwaysSilent(s: Layer, ins: seq<Input>, e: Ccp.EarbudId) {
    ins == [] ||
    (AlwaysSilent(s, ins[..|ins| - 1], e) && Silent(Run(s, ins[..|ins| - 1]), ins[|ins| - 1], e))
  }

  /** What n turns make of a message that is not answered. */
  predicate HasWaited(l: Link, n: nat, m: Link) {
    if n < TurnsLeft(l) then Unanswered(m) && TurnsLeft(m) == TurnsLeft(l) - n && m.log.giveUps == l.log.giveUps
    else !Pending(m) && m.log.giveUps == l.log.giveUps + 1
  }

  lemma SilentLink(l: Link, active: bool)
    requires Unanswered(l)
    ensures ProcessRx(l) == l && HasWaited(l, if HasTurn(l, active) then 1 else 0, Manage(l, active))
  {
  }

  lemma SilentTurn(s: Layer, i: Input, e: Ccp.EarbudId)
    requires Serves(s, i) && Silent(s, i, e) && Unanswered(s.links.Get(e))
    ensures HasWaited(s.links.Get(e), if Turn(s, i, e) then 1 else 0, Step(s, i).links.Get(e))
  {
    var t := ManageEarbud(s, Ccp.Left, i.active);
    assert AtTurn(s, Ccp.Right, i.active) == t && AtTurn(s, Ccp.Left, i.active) == s;
    SilentLink(s.links.Get(e), ActiveFor(i, e));
    if e == Ccp.Left {
      OtherTurn(t, Ccp.Left, Ccp.Right, i.activeRight);
    } else {
      OtherTurn(s, Ccp.Right, Ccp.Left, i.active);
    }
  }

  lemma SilentStep(s: Layer, i: Input, e: Ccp.EarbudId)
    requires Silent(s, i, e) && Unanswered(s.links.Get(e))
    ensures HasWaited(s.links.Get(e), if Turn(s, i, e) then 1 else 0, Step(s, i).links.Get(e))
  {
    if Serves(s, i) { SilentTurn(s, i, e); }
  }

  /** An earbud that does not answer is waited for exactly as long as that: the message is
      pending before its last turn, and given up with it. After a message has been taken
      from above this is the 201st turn. */
  lemma {:induction false} SilenceIsGivenUp(s: Layer, ins: seq<Input>, e: Ccp.EarbudId)
    requires Unanswered(s.links.Get(e)) && AlwaysSilent(s, ins, e)
    requires ins == [] || Turns(s, ins[..|ins| - 1], e) < TurnsLeft(s.links.Get(e))
    ensures HasWaited(s.links.Get(e), Turns(s, ins, e), Run(s, ins).links.Get(e))
  {
    if ins != [] {
      var front := ins[..|ins| - 1];
      if front != [] { TurnsGrow(s, front, e); }
      SilenceIsGivenUp(s, front, e);
      SilentStep(Run(s, front), ins[|ins| - 1], e);
    }
  }

  lemma TurnsGrow(s: Layer, ins: seq<Input>, e: Ccp.EarbudId)
    requires ins != []
    ensures Turns(s, ins[..|ins| - 1], e) <= Turns(s, ins, e)
  {
  }

  /** How long that is: 201 turns after a new message; 202 after an answer that was corrupted
      or that refuses the message, as long as it may be sent again; and 202 for the two
      octets that acknowledge a payload, which still have to be sent. */
  lemma WaitsFor(s: Layer, e: Ccp.EarbudId, len: nat)
    requires var l := s.links.Get(e); Accepts(s, len, false) && l.rx.None?
    ensures var l, t := s.links.Get(e), Step(s, Send(e, len, false)).links.Get(e);
      !Pending(l) ==> Unanswered(t) && TurnsLeft(t) == 201
    ensures var l, t := s.links.Get(e), Step(s, Corrupted(e)).links.Get(e);
      Pending(l) && l.retries < 2 ==> Unanswered(t) && TurnsLeft(t) == 202
    ensures forall p: Packet :: var l, t := s.links.Get(e), ProcessRx(Step(s, Arrives(e, p)).links.Get(e));
      if !Takes(l, p) then Pending(l) && l.retries < 2 ==> Unanswered(t) && TurnsLeft(t) == 202
      else if p.payload then Unanswered(t) && TurnsLeft(t) == 202 && t.txLen == 2
      else !Pending(t)
  {
  }

  /** An earbud that keeps answering that the message has not arrived. */
  predicate Refused(s: Layer, e: Ccp.EarbudId) {
    && s.links.Get(e).rx.Some? && !Takes(s.links.Get(e), s.links.Get(e).rx.value)
    && Pending(s.links.Get(e)) && s.links.Get(e).nacks + 1 < 0x100
  }

  lemma RefusedIsKept(s: Layer, e: Ccp.EarbudId, active: bool)
    requires Refused(s, e)
    ensures var t := ManageEarbud(s, e, active);
      && Pending(t.links.Get(e)) && t.links.Get(e).log.giveUps == s.links.Get(e).log.giveUps
      && (t.broadcastLen != s.broadcastLen ==> s.links.Get(e).retries >= MAX_RETRIES)
  {
  }

  /** At each of its turns the earbud has just refused the message, and no broadcast is
      made by the layer above. */
  ghost predicate AlwaysRefused(s: Layer, ins: seq<Input>, e: Ccp.EarbudId) {
    ins == [] ||
    (var m, i := Run(s, ins[..|ins| - 1]), ins[|ins| - 1];
     && AlwaysRefused(s, ins[..|ins| - 1], e) && !i.Broadcast?
     && (i.Tick? && m.broadcastLen == 0 ==> Refused(AtTurn(m, e, i.active), e)))
  }

  lemma RefusedTick(s: Layer, e: Ccp.EarbudId, active: bool, activeRight: bool)
    requires Pending(s.links.Get(e)) && (s.broadcastLen == 0 ==> Refused(AtTurn(s, e, active), e))
    ensures var t := Periodic(s, active, activeRight);
      Pending(t.links.Get(e)) && t.links.Get(e).log.giveUps == s.links.Get(e).log.giveUps
  {
    if s.broadcastLen == 0 {
      if e == Ccp.Left {
        RefusedIsKept(s, e, active);
        OtherTurn(ManageEarbud(s, e, active), e, Ccp.Right, activeRight);
      } else {
        OtherTurn(s, e, Ccp.Left, active);
        RefusedIsKept(ManageEarbud(s, Ccp.Left, active), e, activeRight);
      }
    }
  }

  /** A message that is refused again and again is never given up, however long the run:
      the layer has no bound for it. */
  lemma {:induction false} RefusalIsUnbounded(s: Layer, ins: seq<Input>, e: Ccp.EarbudId)
    requires Pending(s.links.Get(e)) && AlwaysRefused(s, ins, e)
    ensures StaysPending(s, ins, e) && Run(s, ins).links.Get(e).log.giveUps == s.links.Get(e).log.giveUps
  {
    if ins != [] {
      RefusalIsUnbounded(s, ins[..|ins| - 1], e);
      var m, i := Run(s, ins[..|ins| - 1]), ins[|ins| - 1];
      if i.Tick? { RefusedTick(m, e, i.active, i.activeRight); }
    }
  }

  /** The left earbud refuses once more: a packet with the bit of the message, and a tick. */
  function Refusal(s: Layer): (Input, Input) {
    (Arrives(Ccp.Left, Packet(false, s.links.left.sn, false)), Tick(false, false))
  }

  function Refusals(s: Layer, n: nat): seq<Input> {
    if n == 0 then []
    else var r := Refusal(Run(s, Refusals(s, n - 1))); Refusals(s, n - 1) + ([r.0] + [r.1])
  }

  predicate Refusing(s: Layer) {
    && Pending(s.links.left) && s.links.left.nacks <= s.links.left.retries <= MAX_RETRIES
    && s.links.right.rx.None? && !Pending(s.links.right)
    && (s.broadcastLen > 0 ==>
          && s.broadcastCount < BROADCAST_SENDS && s.links.left.retries == 0
          && s.broadcastTimeout <= if s.broadcastCount == 0 then 0 else BROADCAST_TIMEOUT)
  }

  /** On an idle line a broadcast takes 22 ticks, and a restart 23. */
  function BroadcastLeft(s: Layer): nat {
    if s.broadcastLen == 0 then 0
    else s.broadcastTimeout + (if s.broadcastCount < 2 then 11 * (2 - s.broadcastCount) else 0) + 1
  }

  /** The tick brings the broadcast on: the line is free if it has to be sent again. */
  predicate BringsOn(s: Layer, i: Input) {
    i.Tick? && s.broadcastLen > 0 && (s.broadcastTimeout > 0 || !i.active)
  }

  function BroughtOn(s: Layer, ins: seq<Input>): nat {
    if ins == [] then 0
    else BroughtOn(s, ins[..|ins| - 1]) + (if BringsOn(Run(s, ins[..|ins| - 1]), ins[|ins| - 1]) then 1 else 0)
  }

  predicate Broadcasting(s: Layer) {
    s.broadcastLen > 0 && s.broadcastCount < 3
  }

  lemma BroadcastStep(s: Layer, i: Input)
    requires Broadcasting(s)
    ensures var t, n := Step(s, i), BroadcastLeft(s) - (if BringsOn(s, i) then 1 else 0);
      && BroadcastLeft(t) == n && (if n > 0 then Broadcasting(t) else t.broadcastCount == 3)
      && Pending(t.links.left) == Pending(s.links.left) && Pending(t.links.right) == Pending(s.links.right)
  {
  }

  /** A broadcast is over after exactly that many ticks, when it has been sent three times;
      until then nothing else is taken from above, and no pending message has a turn. */
  lemma {:induction false} BroadcastEnds(s: Layer, ins: seq<Input>)
    requires Broadcasting(s) && (ins == [] || BroughtOn(s, ins[..|ins| - 1]) < BroadcastLeft(s))
    ensures var t, n := Run(s, ins), BroughtOn(s, ins);
      && BroadcastLeft(t) == BroadcastLeft(s) - n
      && (if n < BroadcastLeft(s) then Broadcasting(t) else t.broadcastCount == 3)
      && Pending(t.links.left) == Pending(s.links.left) && Pending(t.links.right) == Pending(s.links.right)
  {
    if ins != [] {
      var front := ins[..|ins| - 1];
      BroughtOnGrows(s, front);
      BroadcastEnds(s, front);
      BroadcastStep(Run(s, front), ins[|ins| - 1]);
    }
  }

  lemma BroughtOnGrows(s: Layer, ins: seq<Input>)
    ensures ins != [] ==> BroughtOn(s, ins[..|ins| - 1]) <= BroughtOn(s, ins)
  {
  }

  lemma BroadcastTakes(s: Layer, len: nat, i: Input)
    requires s.broadcastLen == 0 && len <= 14 && Restarts(s, i)
    ensures Broadcasting(Step(s, Broadcast(len, false))) && BroadcastLeft(Step(s, Broadcast(len, false))) == 22
    ensures Broadcasting(Step(s, i)) && BroadcastLeft(Step(s, i)) == 23
  {
    var t := ManageEarbud(s, Ccp.Left, i.active);
    assert AtTurn(s, Ccp.Right, i.active) == t && AtTurn(s, Ccp.Left, i.active) == s;
    var e :| Exhausted(ProcessRx(AtTurn(s, e, i.active).links.Get(e)));
    assert e == Ccp.Left || e == Ccp.Right;
  }

  /** The refusals up to the next restart. */
  function ToRestart(s: Layer): int {
    BroadcastLeft(s) + 3 - s.links.left.retries
  }

  lemma RefusedWhileBroadcast(s: Layer)
    requires Refusing(s) && s.broadcastLen > 0
    ensures var t := BroadcastTick(s, false); Refusing(t) && BroadcastLeft(t) == BroadcastLeft(s) - 1
  {
  }

  lemma RefusedTurn(m: Layer)
    requires Refusing(m) && m.broadcastLen == 0 && m.links.left.rx.Some? && !Taking(m.links.left)
    ensures var i, t := Tick(false, false), Periodic(m, false, false);
      && Turn(m, i, Ccp.Left) && Refused(m, Ccp.Left) && Refusing(t)
      && (Restarts(m, i) <==> m.links.left.retries == 2)
      && t.links.left.retries == (if Restarts(m, i) then 0 else m.links.left.retries + 1)
      && BroadcastLeft(t) == (if Restarts(m, i) then 23 else 0)
  {
    var t := ManageEarbud(m, Ccp.Left, false);
    assert t.links.right.rx.None? && !Pending(t.links.right);
    assert ManageEarbud(t, Ccp.Right, false) == t;
    assert AtTurn(m, Ccp.Left, false) == m && AtTurn(m, Ccp.Right, false) == t;
  }

  /** One refusal: a turn, which brings the restart nearer or makes it, or a tick of the
      restart. */
  lemma RefusalCounts(s: Layer)
    requires Refusing(s)
    ensures var r := Refusal(s); var m := Step(s, r.0); var t := Step(m, r.1);
      && Refusing(t) && (m.broadcastLen == 0 ==> Refused(m, Ccp.Left))
      && ToRestart(t) == ToRestart(s) - 1 + (if Restarts(m, r.1) then 26 else 0)
      && t.links.left.retries == s.links.left.retries
           + (if Turn(m, r.1, Ccp.Left) then 1 else 0) - (if Restarts(m, r.1) then 3 else 0)
  {
    var m := Step(s, Refusal(s).0);
    assert Refusing(m) && !Taking(m.links.left);
    if m.broadcastLen > 0 { RefusedWhileBroadcast(m); } else { RefusedTurn(m); }
  }

  lemma RunTwice(s: Layer, ins: seq<Input>, i: Input, j: Input)
    ensures (ins + ([i] + [j]))[..|ins| + 1] == ins + [i] && (ins + [i])[..|ins|] == ins
    ensures Run(s, ins + [i]) == Step(Run(s, ins), i)
    ensures Run(s, ins + ([i] + [j])) == Step(Step(Run(s, ins), i), j)
  {
    assert (ins + ([i] + [j]))[..|ins| + 1] == ins + [i];
    assert (ins + [i])[..|ins|] == ins;
  }

  lemma CountTwice(s: Layer, ins: seq<Input>, i: Input, j: Input)
    requires !i.Tick?
    ensures var m := Step(Run(s, ins), i);
      && RestartCount(s, ins + ([i] + [j])) == RestartCount(s, ins) + (if Restarts(m, j) then 1 else 0)
      && Turns(s, ins + ([i] + [j]), Ccp.Left) == Turns(s, ins, Ccp.Left) + (if Turn(m, j, Ccp.Left) then 1 else 0)
  {
    RunTwice(s, ins, i, j);
    var all := ins + ([i] + [j]);
    assert all[..|all| - 1] == ins + [i] && all[|all| - 1] == j;
    assert (ins + [i])[..|ins + [i]| - 1] == ins;
  }

  lemma RefusedOnce(s: Layer, front: seq<Input>, m: Layer, i: Input, j: Input)
    requires m == Run(s, front) && AlwaysRefused(s, front, Ccp.Left) && Refusing(m)
    requires i == Refusal(m).0 && j == Refusal(m).1
    ensures AlwaysRefused(s, front + ([i] + [j]), Ccp.Left)
  {
    RefusalCounts(m);
    RunTwice(s, front, i, j);
    assert AlwaysRefused(s, front + [i], Ccp.Left);
    var ins := front + ([i] + [j]);
    assert ins[..|ins| - 1] == front + [i] && ins[|ins| - 1] == j;
  }

  lemma RefusalsNext(s: Layer, front: seq<Input>, m: Layer) returns (restart: nat, turn: nat)
    requires m == Run(s, front) && AlwaysRefused(s, front, Ccp.Left) && Refusing(m)
    ensures var ins := front + ([Refusal(m).0] + [Refusal(m).1]); var t := Run(s, ins);
      && AlwaysRefused(s, ins, Ccp.Left) && Refusing(t)
      && RestartCount(s, ins) == RestartCount(s, front) + restart
      && Turns(s, ins, Ccp.Left) == Turns(s, front, Ccp.Left) + turn
      && ToRestart(t) == ToRestart(m) - 1 + 26 * restart
      && t.links.left.retries == m.links.left.retries + turn - 3 * restart
  {
    var r := Refusal(m);
    RefusedOnce(s, front, m, r.0, r.1);
    RunTwice(s, front, r.0, r.1);
    CountTwice(s, front, r.0, r.1);
    RefusalCounts(m);
    restart := if Restarts(Step(m, r.0), r.1) then 1 else 0;
    turn := if Turn(Step(m, r.0), r.1, Ccp.Left) then 1 else 0;
  }

  /** How a run of refusals has brought the message on. */
  ghost predicate Counted(s: Layer, ins: seq<Input>, n: nat) {
    var t := Run(s, ins);
    && AlwaysRefused(s, ins, Ccp.Left) && Refusing(t)
    && n + ToRestart(t) == ToRestart(s) + 26 * RestartCount(s, ins)
    && s.links.left.retries + Turns(s, ins, Ccp.Left) == t.links.left.retries + 3 * RestartCount(s, ins)
  }

  lemma CountedNext(s: Layer, front: seq<Input>, all: seq<Input>, n: nat)
    requires Counted(s, front, n)
    requires var r := Refusal(Run(s, front)); all == front + ([r.0] + [r.1])
    ensures Counted(s, all, n + 1)
  {
    var restart, turn := RefusalsNext(s, front, Run(s, front));
  }

  lemma RefusalsGrow(s: Layer, n: nat)
    requires n > 0
    ensures var r := Refusal(Run(s, Refusals(s, n - 1))); Refusals(s, n) == Refusals(s, n - 1) + ([r.0] + [r.1])
  {
  }

  lemma CountedNone(s: Layer)
    requires Refusing(s)
    ensures Counted(s, [], 0)
  {
  }

  lemma {:induction false} RefusalsCount(s: Layer, n: nat)
    requires Refusing(s)
    ensures Counted(s, Refusals(s, n), n)
  {
    if n == 0 {
      CountedNone(s);
    } else {
      RefusalsCount(s, n - 1);
      RefusalsGrow(s, n);
      CountedNext(s, Refusals(s, n - 1), Refusals(s, n), n - 1);
    }
  }

  lemma JustSent(len: nat)
    requires len <= MAX_PACKET_SIZE - NO_OF_BYTES
    ensures var s := Run(Initial, [Send(Ccp.Left, len, false)]);
      Refusing(s) && ToRestart(s) == 3 && s.links.left.retries == s.links.left.log.giveUps == 0
  {
    var i := Send(Ccp.Left, len, false);
    assert [i][..0] == [];
    assert Run(Initial, [i]) == Step(Initial, i);
  }

  /** The n-th refusal is this many restarts after the first. */
  lemma RestartsOf(n: nat, restarts: nat, left: int)
    requires 1 <= left <= 26 && n + left == 3 + 26 * restarts
    ensures restarts == (n + 23) / 26
  {
  }

  /** Such runs are as long as one likes. From the start of the layer, an earbud that refuses
      a message n times leaves it pending, with a restart on the third tick and on every 26th
      after that, and three turns from one to the next. */
  lemma RefusalGoesOn(len: nat, n: nat)
    requires len <= MAX_PACKET_SIZE - NO_OF_BYTES
    ensures var s := Run(Initial, [Send(Ccp.Left, len, false)]); var ins := Refusals(s, n);
      && AlwaysRefused(s, ins, Ccp.Left) && StaysPending(s, ins, Ccp.Left)
      && Run(s, ins).links.left.log.giveUps == 0
      && RestartCount(s, ins) == (n + 23) / 26
      && 3 * RestartCount(s, ins) <= Turns(s, ins, Ccp.Left) <= 3 * RestartCount(s, ins) + 2
  {
    JustSent(len);
    var s := Run(Initial, [Send(Ccp.Left, len, false)]);
    RefusalsCount(s, n);
    RefusalIsUnbounded(s, Refusals(s, n), Ccp.Left);
    RestartsOf(n, RestartCount(s, Refusals(s, n)), ToRestart(Run(s, Refusals(s, n))));
  }

  /** The layer itself, with its two transactions and its broadcast. */
  class WireLayer {
    var links: Ccp.Each<Link>
    var broadcastLen: nat
    var broadcastTimeout: nat
    var broadcastCount: nat

    ghost function Snapshot(): Layer
      reads this
    {
      Layer(links, broadcastLen, broadcastTimeout, broadcastCount)
    }

    constructor ()
      ensures Snapshot() == Initial
    {
      links := Ccp.Each(NoLink, NoLink);
      broadcastLen, broadcastTimeout, broadcastCount := 0, 0, 0;
    }

    /** A message for one earbud. */
    method Tx(e: Ccp.EarbudId, len: nat, active: bool) returns (ret: bool)
      modifies this
      ensures Snapshot() == Step(old(Snapshot()), Send(e, len, active))
      ensures ret <==> len <= 14 && old(broadcastLen) == 0 && !active && old(links).Get(e).txLen == 0
    {
      ret := false;
      if len <= MAX_PACKET_SIZE - NO_OF_BYTES && broadcastLen == 0 && !active {
        var wt := links.Get(e);
        if wt.txLen == 0 {
          wt := wt.(txLen := len + NO_OF_BYTES, log := wt.log.(sends := wt.log.sends + 1));
          wt := wt.(timeout := NO_RESPONSE_TIMEOUT, retries := 0, nacks := 0, retry := false);
          links := links.Set(e, wt);
          ret := true;
        }
      }
    }

    /** A message for both: everything in progress is discarded. */
    method TxBroadcast(len: nat, active: bool) returns (ret: bool)
      modifies this
      ensures Snapshot() == Step(old(Snapshot()), Broadcast(len, active))
      ensures ret <==> len <= 14 && old(broadcastLen) == 0 && !active
    {
      ret := false;
      if len <= MAX_PACKET_SIZE - NO_OF_BYTES && broadcastLen == 0 && !active {
        links := Ccp.Each(Cleared(links.left), Cleared(links.right));
        broadcastLen, broadcastTimeout, broadcastCount := len + NO_OF_BYTES, BROADCAST_TIMEOUT, 1;
        ret := true;
      }
    }

    /** The packet that has come for one earbud, if there is one. */
    method ProcessPacket(e: Ccp.EarbudId)
      modifies this`links
      ensures links == old(links).Set(e, ProcessRx(old(links).Get(e)))
    {
      var wt := links.Get(e);
      if wt.rx.Some? {
        var p := wt.rx.value;
        if p.sn == wt.nesn {
          wt := wt.(nesn := !wt.nesn, log := wt.log.(news := wt.log.news + [p.sn]));
        }
        if p.nesn == wt.sn {
          wt := wt.(retry := true, nacks := (wt.nacks + 1) % 0x100);
        } else {
          wt := Take(wt, p);
        }
        wt := wt.(rx := None);
        links := links.Set(e, wt);
      }
    }

    /** The periodic work for one earbud. */
    method ManageTransaction(e: Ccp.EarbudId, active: bool)
      modifies this
      ensures Snapshot() == ManageEarbud(old(Snapshot()), e, active)
    {
      ProcessPacket(e);
      var wt := links.Get(e);
      if wt.txLen > 0 {
        if wt.retry {
          if wt.retries < MAX_RETRIES {
            if !active {
              wt := wt.(timeout := NO_RESPONSE_TIMEOUT, retries := wt.retries + 1, retry := false);
            }
          } else if wt.nacks > 0 {
            links := Ccp.Each(Restarted(links.left), Restarted(links.right));
            broadcastLen, broadcastTimeout, broadcastCount := NO_OF_BYTES, 0, 0;
            return;
          } else {
            wt := GiveUp(wt);
          }
        } else if wt.timeout == 0 {
          wt := GiveUp(wt);
        } else {
          wt := wt.(timeout := wt.timeout - 1);
        }
        links := links.Set(e, wt);
      }
    }

    method OnPeriodic(active: bool, activeRight: bool)
      modifies this
      ensures Snapshot() == Step(old(Snapshot()), Tick(active, activeRight))
    {
      if broadcastLen > 0 {
        if broadcastTimeout > 0 {
          broadcastTimeout := broadcastTimeout - 1;
        } else if !active {
          broadcastCount := broadcastCount + 1;
          if broadcastCount < BROADCAST_SENDS {
            broadcastTimeout := BROADCAST_TIMEOUT;
          } else {
            broadcastLen := 0;
          }
        }
      } else {
        ManageTransaction(Ccp.Left, active);
        ManageTransaction(Ccp.Right, activeRight);
      }
    }
  }
}

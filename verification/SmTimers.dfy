/** The timers of the application state machine move with the primary role: the old
    primary writes down when each is due on a wrapping 32-bit microsecond clock, and the
    new primary starts it again for what is left of its time. */
module SmTimers {

  import opened Options

  const US_PER_MS := 1000
  const CLOCK := 0x1_0000_0000
  const HALF := 0x8000_0000

  datatype Timer = OutOfEarA2dp | OutOfEarSco | InEarA2dpStart

  /** One of something for each timer. */
  datatype Three<T> = Three(a2dp: T, sco: T, play: T) {
    function Get(k: Timer): T {
      match k case OutOfEarA2dp => a2dp case OutOfEarSco => sco case InEarA2dpStart => play
    }

    function Set(k: Timer, x: T): Three<T> {
      match k
      case OutOfEarA2dp => this.(a2dp := x)
      case OutOfEarSco => this.(sco := x)
      case InEarA2dpStart => this.(play := x)
    }
  }

  /** A field of the timers structure with its valid flag. */
  datatype Slot = Slot(valid: bool, time: nat)

  const EmptySlot := Slot(false, 0)
  const NoTimers := Three(EmptySlot, EmptySlot, EmptySlot)

  /** The local clock register at a given time. */
  function Register(now: nat): nat {
    now % CLOCK
  }

  /** A 32-bit difference read as a signed number. */
  function Signed32(x: int): int {
    var r := x % CLOCK;
    if r < HALF then r else r - CLOCK
  }

  /** The absolute local time of a timer that is due in so many milliseconds. */
  function AbsoluteTime(due: int, now: nat): nat {
    if due < 0 then Register(now)
    else (Register(now) + due * US_PER_MS % CLOCK) % CLOCK
  }

  /** The milliseconds left until an absolute time, none if it has passed. */
  function Offset(time: nat, now: nat): nat {
    var left := Signed32(time - Register(now));
    if left > 0 then left / US_PER_MS else 0
  }

  function Max(a: int, b: int): int {
    if a > b then a else b
  }

  lemma ModMultiple(x: int, k: int)
    ensures (x - k * CLOCK) % CLOCK == x % CLOCK
  {
  }

  /** A sum and a difference of wrapped values wrap like those of the values. */
  lemma WrappedDifference(a: nat, b: int, c: nat)
    ensures ((a % CLOCK + b % CLOCK) % CLOCK - c % CLOCK) % CLOCK == (a + b - c) % CLOCK
  {
    var sum := a % CLOCK + b % CLOCK;
    ModMultiple(a + b - c, a / CLOCK + b / CLOCK + sum / CLOCK - c / CLOCK);
  }

  lemma RegisterDifference(a: nat, c: nat)
    ensures (a % CLOCK - c % CLOCK) % CLOCK == (a - c) % CLOCK
  {
    ModMultiple(a - c, a / CLOCK - c / CLOCK);
  }

  /** What the new primary subtracts is, read modulo the clock, what is left. */
  lemma LeftModulo(due: int, at: nat, now: nat)
    ensures (AbsoluteTime(due, at) - Register(now)) % CLOCK == (Max(due, 0) * US_PER_MS - (now - at)) % CLOCK
  {
    if due < 0 {
      RegisterDifference(at, now);
    } else {
      WrappedDifference(at, due * US_PER_MS, now);
    }
  }

  lemma Signed32Range(x: int)
    requires -HALF <= x
    ensures x < HALF ==> Signed32(x) == x
    ensures x >= HALF ==> Signed32(x) <= x - CLOCK
  {
  }

  /** The offset, computed on wrapped values, is the real one rounded down to a
      millisecond: what was left when the time was written down, less what has passed
      since. With at most half a clock period in between, this holds exactly when less
      than half a period is left; wrapping of the clock itself does not matter. */
  lemma OffsetIsExact(due: int, at: nat, now: nat)
    requires at <= now <= at + HALF
    ensures var left := Max(due, 0) * US_PER_MS - (now - at);
      Offset(AbsoluteTime(due, at), now) == Max(left, 0) / US_PER_MS <==> left < HALF
  {
    var left := Max(due, 0) * US_PER_MS - (now - at);
    LeftModulo(due, at, now);
    SignedModulo(AbsoluteTime(due, at) - Register(now), left);
    Signed32Range(left);
    if left >= HALF {
      Millis(left, Signed32(left));
    }
  }

  lemma SignedModulo(x: int, y: int)
    requires x % CLOCK == y % CLOCK
    ensures Signed32(x) == Signed32(y)
  {
  }

  lemma Millis(a: int, b: int)
    requires a >= HALF && b <= a - CLOCK
    ensures a / US_PER_MS > Max(b, 0) / US_PER_MS
  {
  }

  /** One earbud: the timeouts pending for each timer, by the time they are due, and the
      timers structure. */
  datatype Device = Device(pending: Three<seq<int>>, timers: Three<Slot>)

  /** The milliseconds until a pending timeout, negative once it is late. */
  function FirstDue(time: int, now: nat): int {
    (time - now) / US_PER_MS
  }

  function SlotFor(ps: seq<int>, now: nat): Slot {
    if ps == [] then EmptySlot else Slot(true, AbsoluteTime(FirstDue(ps[0], now), now))
  }

  function Slots(p: Three<seq<int>>, now: nat): Three<Slot> {
    Three(SlotFor(p.a2dp, now), SlotFor(p.sco, now), SlotFor(p.play, now))
  }

  predicate AnyPending(p: Three<seq<int>>) {
    p.a2dp != [] || p.sco != [] || p.play != []
  }

  /** What marshalling offers: the structure, if it has a timer in it. */
  function Offered(p: Three<seq<int>>, now: nat): Option<Three<Slot>> {
    if AnyPending(p) then Some(Slots(p, now)) else None
  }

  function CancelFirst(ps: seq<int>): seq<int> {
    if ps == [] then [] else ps[1..]
  }

  function Restart(ps: seq<int>, slot: Slot, now: nat): seq<int> {
    if slot.valid then ps + [now + Offset(slot.time, now) * US_PER_MS] else ps
  }

  function Committed(d: Device, primary: bool, now: nat): Device {
    var p := d.pending;
    Device(
      if primary
      then Three(Restart(p.a2dp, d.timers.a2dp, now),
                 Restart(p.sco, d.timers.sco, now),
                 Restart(p.play, d.timers.play, now))
      else Three(CancelFirst(p.a2dp), CancelFirst(p.sco), CancelFirst(p.play)),
      NoTimers)
  }

  class EarbudSm {
    var pending: Three<seq<int>>
    var timers: Three<Slot>

    ghost function Snapshot(): Device
      reads this
    {
      Device(pending, timers)
    }

    constructor ()
      ensures Snapshot() == Device(Three([], [], []), NoTimers)
    {
      pending, timers := Three([], [], []), NoTimers;
    }

    method TimersReset()
      modifies this`timers
      ensures timers == NoTimers
    {
      timers := NoTimers;
    }

    /** Writes down when each pending timeout is due, after clearing the structure. */
    method HandoverMarshal(now: nat) returns (obj: Option<Three<Slot>>)
      modifies this`timers
      ensures timers == Slots(pending, now) && obj == Offered(pending, now)
    {
      var status := false;
      TimersReset();
      if pending.a2dp != [] {
        timers := timers.(a2dp := Slot(true, AbsoluteTime(FirstDue(pending.a2dp[0], now), now)));
        status := true;
      }
      if pending.sco != [] {
        timers := timers.(sco := Slot(true, AbsoluteTime(FirstDue(pending.sco[0], now), now)));
        status := true;
      }
      if pending.play != [] {
        timers := timers.(play := Slot(true, AbsoluteTime(FirstDue(pending.play[0], now), now)));
        status := true;
      }
      obj := if status then Some(timers) else None;
    }

    method HandoverUnmarshal(obj: Three<Slot>)
      modifies this`timers
      ensures timers == obj
    {
      timers := obj;
    }

    method HandoverCommit(primary: bool, now: nat)
      modifies this
      ensures Snapshot() == Committed(old(Snapshot()), primary, now)
    {
      if !primary {
        pending := pending.(a2dp := CancelFirst(pending.a2dp));
        pending := pending.(sco := CancelFirst(pending.sco));
        pending := pending.(play := CancelFirst(pending.play));
      } else {
        if timers.a2dp.valid {
          pending := pending.(a2dp := pending.a2dp + [now + Offset(timers.a2dp.time, now) * US_PER_MS]);
        }
        if timers.sco.valid {
          pending := pending.(sco := pending.sco + [now + Offset(timers.sco.time, now) * US_PER_MS]);
        }
        if timers.play.valid {
          pending := pending.(play := pending.play + [now + Offset(timers.play.time, now) * US_PER_MS]);
        }
      }
      TimersReset();
    }
  }

  /** A handover under way: what was marshalled, when, and what was pending then. */
  datatype Flight = Flight(obj: Option<Three<Slot>>, at: nat, was: Three<seq<int>>)

  /** The two earbuds by their roles, on a common clock. */
  datatype Pair = Pair(clock: nat, primary: Device, secondary: Device, flight: Option<Flight>)

  const NoDevice := Device(Three([], [], []), NoTimers)
  const Initial := Pair(0, NoDevice, NoDevice, None)

  datatype Event = Elapse(us: nat) | Start(k: Timer, ms: nat) | Stop(k: Timer) | Marshal | Abort | Complete

  function Unmarshalled(d: Device, obj: Option<Three<Slot>>): Device {
    match obj case None => d case Some(t) => d.(timers := t)
  }

  /** Both sides complete: the secondary unmarshals what it was sent and commits as
      primary, the primary as secondary. */
  function Completed(p: Pair, f: Flight): Pair {
    Pair(p.clock,
         Committed(Unmarshalled(p.secondary, f.obj), true, p.clock),
         Committed(p.primary, false, p.clock),
         None)
  }

  function Step(p: Pair, e: Event): Pair {
    match e
    case Elapse(us) => p.(clock := p.clock + us)
    case Start(k, ms) =>
      if p.primary.pending.Get(k) != [] then p
      else p.(primary := p.primary.(pending := p.primary.pending.Set(k, [p.clock + ms * US_PER_MS])))
    case Stop(k) =>
      p.(primary := p.primary.(pending := p.primary.pending.Set(k, CancelFirst(p.primary.pending.Get(k)))))
    case Marshal =>
      var was := p.primary.pending;
      p.(primary := p.primary.(timers := Slots(was, p.clock)),
         flight := Some(Flight(Offered(was, p.clock), p.clock, was)))
    case Abort => p.(flight := None)
    case Complete => match p.flight case None => p case Some(f) => Completed(p, f)
  }

  function Run(p: Pair, es: seq<Event>): Pair {
    if es == [] then p else Step(Run(p, es[..|es| - 1]), es[|es| - 1])
  }

  predicate AtMostOne(p: Three<seq<int>>) {
    |p.a2dp| <= 1 && |p.sco| <= 1 && |p.play| <= 1
  }

  /** The secondary has no timers at all, not even written down. */
  predicate Inv(p: Pair) {
    && p.secondary == NoDevice && AtMostOne(p.primary.pending)
    && match p.flight
       case None => true
       case Some(f) => f.obj == Offered(f.was, f.at) && AtMostOne(f.was) && f.at <= p.clock
  }

  lemma CompleteKeeps(p: Pair, f: Flight)
    requires Inv(p) && p.flight == Some(f)
    ensures Inv(Completed(p, f))
  {
    CancelLast(p.primary.pending.a2dp);
    CancelLast(p.primary.pending.sco);
    CancelLast(p.primary.pending.play);
  }

  lemma CancelLast(ps: seq<int>)
    requires |ps| <= 1
    ensures CancelFirst(ps) == []
  {
  }

  lemma {:induction false} AlwaysInv(es: seq<Event>)
    ensures Inv(Run(Initial, es))
  {
    if es != [] {
      AlwaysInv(es[..|es| - 1]);
      var p := Run(Initial, es[..|es| - 1]);
      if es[|es| - 1].Complete? && p.flight.Some? { CompleteKeeps(p, p.flight.value); }
    }
  }

  /** The first of the timeouts pending at one time, started again at another. */
  function Moved(was: seq<int>, at: nat, now: nat): seq<int> {
    if was == [] then [] else [now + Offset(AbsoluteTime(FirstDue(was[0], at), at), now) * US_PER_MS]
  }

  lemma NewPrimaryTimers(was: Three<seq<int>>, at: nat, now: nat, k: Timer)
    ensures Committed(Unmarshalled(NoDevice, Offered(was, at)), true, now).pending.Get(k) == Moved(was.Get(k), at, now)
  {
    match k
    case OutOfEarA2dp =>
    case OutOfEarSco =>
    case InEarA2dpStart =>
  }

  /** Over any run, a handover that completes leaves the old primary without timers, and
      gives the new primary exactly those that were pending when they were marshalled. */
  lemma HandoverMovesTimers(es: seq<Event>, f: Flight, k: Timer)
    requires Run(Initial, es).flight == Some(f)
    ensures var p := Run(Initial, es); var q := Step(p, Complete);
      && q.secondary == NoDevice && q.primary.timers == NoTimers
      && q.primary.pending.Get(k) == Moved(f.was.Get(k), f.at, p.clock)
  {
    AlwaysInv(es);
    var p := Run(Initial, es);
    CompleteKeeps(p, f);
    NewPrimaryTimers(f.was, f.at, p.clock, k);
  }

  /** And each is due when it was, to within a millisecond of the time that was reported
      for it, or at once if that has passed: across any wrap of the clock, with at most
      half a clock period between marshalling and completion and less than half left. */
  lemma HandoverKeepsDeadlines(es: seq<Event>, f: Flight, k: Timer)
    requires Run(Initial, es).flight == Some(f) && f.was.Get(k) != []
    requires Run(Initial, es).clock <= f.at + HALF
    requires f.at + Max(FirstDue(f.was.Get(k)[0], f.at), 0) * US_PER_MS < Run(Initial, es).clock + HALF
    ensures var p := Run(Initial, es); var q := Step(p, Complete);
      var deadline := f.at + Max(FirstDue(f.was.Get(k)[0], f.at), 0) * US_PER_MS;
      && |q.primary.pending.Get(k)| == 1
      && q.primary.pending.Get(k)[0] >= p.clock
      && deadline - US_PER_MS < q.primary.pending.Get(k)[0] <= Max(deadline, p.clock)
  {
    AlwaysInv(es);
    HandoverMovesTimers(es, f, k);
    OffsetIsExact(FirstDue(f.was.Get(k)[0], f.at), f.at, Run(Initial, es).clock);
  }

  /** The reported time is the pending one rounded down to a millisecond, or the present if
      the timer is late. */
  lemma ReportedTime(time: int, at: nat)
    ensures var deadline := at + Max(FirstDue(time, at), 0) * US_PER_MS;
      if time < at then deadline == at else time - US_PER_MS < deadline <= time
  {
  }

  /** In terms of the pending time itself: a timer that is due at some time on the old
      primary is due on the new one less than two milliseconds before it and never after
      it, or at once if it has passed, across any wrap of the clock. */
  lemma HandoverKeepsTimes(es: seq<Event>, f: Flight, k: Timer)
    requires Run(Initial, es).flight == Some(f) && f.was.Get(k) != []
    requires Run(Initial, es).clock <= f.at + HALF && f.was.Get(k)[0] < Run(Initial, es).clock + HALF
    ensures var p := Run(Initial, es); var q := Step(p, Complete);
      var time := f.was.Get(k)[0];
      && |q.primary.pending.Get(k)| == 1
      && q.primary.pending.Get(k)[0] >= p.clock
      && time - 2 * US_PER_MS < q.primary.pending.Get(k)[0] <= Max(time, p.clock)
  {
    AlwaysInv(es);
    ReportedTime(f.was.Get(k)[0], f.at);
    HandoverKeepsDeadlines(es, f, k);
  }

  /** Why the secondary must have nothing written down: when nothing is marshalled, the
      new primary starts exactly the timers it finds in its own structure. */
  lemma StaleTimersRestart(p: Pair, f: Flight, k: Timer)
    requires f.obj == None && p.secondary.pending.Get(k) == []
    ensures Completed(p, f).primary.pending.Get(k) != [] <==> p.secondary.timers.Get(k).valid
  {
  }

  /** A primary whose handover was aborted does have its timers written down; they are
      cleared before they are used only because it marshals again, or commits, first. */
  lemma AbortLeavesTimers(p: Pair, k: Timer)
    ensures Step(Step(p, Marshal), Abort).primary.timers.Get(k).valid <==> p.primary.pending.Get(k) != []
    ensures Step(Step(Step(Step(p, Marshal), Abort), Marshal), Complete).secondary.timers == NoTimers
  {
  }
}

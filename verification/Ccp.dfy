/** The charger-case protocol layer: one polled transaction per earbud over a wire
    layer that may refuse to send. */
module Ccp {

  datatype EarbudId = Left | Right

  /** One of something for each earbud. */
  datatype Each<T> = Each(left: T, right: T) {
    function Get(e: EarbudId): T {
      if e.Left? then left else right
    }

    function Set(e: EarbudId, x: T): (r: Each<T>) {
      if e.Left? then this.(left := x) else this.(right := x)
    }
  }

  const CCP_POLL_TIMEOUT := 50
  const CCP_MAX_POLLS := 5
  const CCP_MAX_MSG_SIZE := 20

  datatype Transaction = Transaction(busy: bool, pollTimeout: nat, pollCount: nat)

  const NoTransaction := Transaction(false, 0, 0)

  /** The state after a message that needs an answer has been accepted. */
  const Requested := Transaction(true, 0, 0)

  /** What the layer above is told. */
  datatype Upcall = Nothing | EarbudStatus(pp: bool, battery: nat, charging: bool) | Acked | GivenUp | Aborted

  /** A message from an earbud: an earbud status, or anything else. */
  datatype Message = Status(pp: bool, battery: nat, charging: bool) | Other

  predicate Bounded(t: Transaction) {
    t.pollTimeout <= CCP_POLL_TIMEOUT && t.pollCount <= CCP_MAX_POLLS
  }

  function Ended(t: Transaction): Transaction {
    t.(busy := false)
  }

  /** An acknowledgement of a request only starts the wait for the next poll; any
      other one is news for the layer above. */
  function OnAck(t: Transaction): (Transaction, Upcall) {
    if t.busy then (t.(pollTimeout := CCP_POLL_TIMEOUT), Nothing) else (t, Acked)
  }

  function OnRx(t: Transaction, m: Message, finalPiece: bool): (Transaction, Upcall) {
    if !finalPiece then (t, Nothing)
    else (Ended(t), match m case Status(pp, b, c) => EarbudStatus(pp, b, c) case Other => Nothing)
  }

  /** This tick sends a poll, if the wire takes it. */
  predicate PollDue(t: Transaction) {
    t.busy && t.pollTimeout == 1 && t.pollCount < CCP_MAX_POLLS
  }

  /** One periodic tick; `accept` is the wire's answer to a poll. */
  function OnTick(t: Transaction, accept: bool): (Transaction, Upcall) {
    if !t.busy || t.pollTimeout == 0 then (t, Nothing)
    else if t.pollTimeout > 1 then (t.(pollTimeout := t.pollTimeout - 1), Nothing)
    else if t.pollCount == CCP_MAX_POLLS then (Transaction(false, 0, t.pollCount), GivenUp)
    else if accept then (Transaction(true, CCP_POLL_TIMEOUT, t.pollCount + 1), Nothing)
    else (t, Nothing)
  }

  class Protocol {
    var transactions: Each<Transaction>

    ghost predicate Valid()
      reads this
    {
      Bounded(transactions.left) && Bounded(transactions.right)
    }

    constructor ()
      ensures Valid() && transactions == Each(NoTransaction, NoTransaction)
    {
      transactions := Each(NoTransaction, NoTransaction);
    }

    /** Sends `len` octets to one earbud unless its transaction is busy, the message
        does not fit or the wire refuses. */
    method Tx(e: EarbudId, len: nat, needAnswer: bool, accept: bool) returns (ret: bool)
      requires Valid()
      modifies this
      ensures Valid()
      ensures ret == (len + 2 <= CCP_MAX_MSG_SIZE && !old(transactions).Get(e).busy && accept)
      ensures transactions ==
        if ret && needAnswer then old(transactions).Set(e, Requested) else old(transactions)
    {
      ret := false;
      if len + 2 <= CCP_MAX_MSG_SIZE {
        if !transactions.Get(e).busy && accept {
          if needAnswer {
            transactions := transactions.Set(e, transactions.Get(e).(busy := true, pollCount := 0, pollTimeout := 0));
          }
          ret := true;
        }
      }
    }

    method Rx(e: EarbudId, m: Message, finalPiece: bool) returns (up: Upcall)
      requires Valid()
      modifies this
      ensures Valid() && (transactions.Get(e), up) == OnRx(old(transactions).Get(e), m, finalPiece)
      ensures transactions == old(transactions).Set(e, transactions.Get(e))
    {
      up := Nothing;
      if finalPiece {
        match m {
          case Status(pp, battery, charging) => up := EarbudStatus(pp, battery, charging);
          case Other =>
        }
        transactions := transactions.Set(e, transactions.Get(e).(busy := false));
      }
    }

    method Ack(e: EarbudId) returns (up: Upcall)
      requires Valid()
      modifies this
      ensures Valid() && (transactions.Get(e), up) == OnAck(old(transactions).Get(e))
      ensures transactions == old(transactions).Set(e, transactions.Get(e))
    {
      if transactions.Get(e).busy {
        transactions := transactions.Set(e, transactions.Get(e).(pollTimeout := CCP_POLL_TIMEOUT));
        up := Nothing;
      } else {
        up := Acked;
      }
    }

    method GiveUp(e: EarbudId) returns (up: Upcall)
      requires Valid()
      modifies this
      ensures Valid() && up == GivenUp
      ensures transactions == old(transactions).Set(e, Ended(old(transactions).Get(e)))
    {
      up := GivenUp;
      transactions := transactions.Set(e, transactions.Get(e).(busy := false));
    }

    method Abort(e: EarbudId) returns (up: Upcall)
      requires Valid()
      modifies this
      ensures Valid() && up == Aborted
      ensures transactions == old(transactions).Set(e, Ended(old(transactions).Get(e)))
    {
      up := Aborted;
      transactions := transactions.Set(e, transactions.Get(e).(busy := false));
    }

    method ManageTransaction(e: EarbudId, accept: bool) returns (up: Upcall)
      requires Valid()
      modifies this
      ensures Valid() && (transactions.Get(e), up) == OnTick(old(transactions).Get(e), accept)
      ensures transactions == old(transactions).Set(e, transactions.Get(e))
    {
      up := Nothing;
      var ct := transactions.Get(e);
      if ct.busy && ct.pollTimeout > 0 {
        ct := ct.(pollTimeout := ct.pollTimeout - 1);
        transactions := transactions.Set(e, ct);
        if ct.pollTimeout == 0 {
          if ct.pollCount < CCP_MAX_POLLS {
            if accept {
              transactions := transactions.Set(e, ct.(pollTimeout := CCP_POLL_TIMEOUT, pollCount := ct.pollCount + 1));
            } else {
              transactions := transactions.Set(e, ct.(pollTimeout := ct.pollTimeout + 1));
            }
          } else {
            transactions := transactions.Set(e, ct.(busy := false));
            up := GiveUp(e);
          }
        }
      }
    }
  }

  /** One transaction with its history: the polls the wire has accepted since the
      request, and whether the last send is still unanswered. */
  datatype Track = Track(t: Transaction, polls: nat, owed: bool)

  datatype Event = Request(accept: bool) | Tick(accept: bool) | AckIn | RxIn(m: Message) | GiveUpIn | AbortIn

  function Next(k: Track, e: Event): Track {
    match e
    case Request(accept) => if !k.t.busy && accept then Track(Requested, 0, true) else k
    case Tick(accept) =>
      if PollDue(k.t) && accept then Track(OnTick(k.t, accept).0, k.polls + 1, true)
      else k.(t := OnTick(k.t, accept).0)
    case AckIn => Track(OnAck(k.t).0, k.polls, k.owed && !k.t.busy)
    case RxIn(m) => k.(t := OnRx(k.t, m, true).0)
    case GiveUpIn => k.(t := Ended(k.t))
    case AbortIn => k.(t := Ended(k.t))
  }

  function Run(k: Track, es: seq<Event>): Track {
    if es == [] then k else Next(Run(k, es[..|es| - 1]), es[|es| - 1])
  }

  /** In a busy transaction the counter counts accepted polls, and if no poll is
      timed the wire still owes an answer. */
  ghost predicate Tracked(k: Track) {
    && Bounded(k.t)
    && (k.t.busy ==> k.t.pollCount == k.polls)
    && (k.t.busy && k.t.pollTimeout == 0 ==> k.owed)
  }

  lemma {:induction false} AlwaysTracked(es: seq<Event>)
    ensures Tracked(Run(Track(NoTransaction, 0, false), es))
  {
    if es != [] { AlwaysTracked(es[..|es| - 1]); }
  }

  /** The layer itself gives up exactly when the wire has accepted five polls and the
      wait after the last one has run out; refused polls do not count. */
  lemma GiveUpAfterFivePolls(es: seq<Event>, accept: bool)
    ensures var k := Run(Track(NoTransaction, 0, false), es);
      OnTick(k.t, accept).1 == GivenUp <==> k.t.busy && k.t.pollTimeout == 1 && k.polls == 5
  {
    AlwaysTracked(es);
  }

  /** A bound on what is left of a busy transaction. */
  function Remaining(k: Track): nat
    requires Bounded(k.t)
  {
    (CCP_MAX_POLLS - k.t.pollCount) * 101 + (if k.owed then 51 else 0) + k.t.pollTimeout
  }

  /** The event moves the transaction on: an owed acknowledgement, or a tick of a
      running timeout that is not a refused poll. */
  predicate Productive(k: Track, e: Event) {
    match e
    case Tick(accept) => k.t.pollTimeout > 0 && !(PollDue(k.t) && !accept)
    case AckIn => true
    case _ => false
  }

  /** At most one acknowledgement follows each send. */
  predicate Fair(k: Track, e: Event) {
    e.AckIn? ==> k.owed
  }

  function Steps(k: Track, es: seq<Event>): nat {
    if es == [] then 0
    else Steps(k, es[..|es| - 1])
         + (if Productive(Run(k, es[..|es| - 1]), es[|es| - 1]) then 1 else 0)
  }

  /** The transaction is busy, and acknowledgements are fair, all along a run. */
  ghost predicate StaysBusy(k: Track, es: seq<Event>) {
    && Run(k, es).t.busy
    && (es == [] || (StaysBusy(k, es[..|es| - 1]) && Fair(Run(k, es[..|es| - 1]), es[|es| - 1])))
  }

  lemma NextDecreases(k: Track, e: Event)
    requires Tracked(k) && k.t.busy && Fair(k, e) && Next(k, e).t.busy
    ensures Tracked(Next(k, e))
    ensures Remaining(Next(k, e)) + (if Productive(k, e) then 1 else 0) <= Remaining(k)
  {
  }

  /** Every productive event uses up the measure, so a transaction cannot stay busy
      for more of them than it allows: at most 556 after a request. */
  lemma {:induction false} BusyIsBounded(k: Track, es: seq<Event>)
    requires Tracked(k) && StaysBusy(k, es)
    ensures Tracked(Run(k, es))
    ensures Remaining(Run(k, es)) + Steps(k, es) <= Remaining(k)
    ensures k.t == Requested ==> Steps(k, es) <= 556
  {
    if es != [] {
      BusyIsBounded(k, es[..|es| - 1]);
      NextDecreases(Run(k, es[..|es| - 1]), es[|es| - 1]);
    }
  }

  predicate Ticks(es: seq<Event>) {
    forall k :: 0 <= k < |es| ==> es[k].Tick?
  }

  /** While only ticks come, nothing is sent before the timeout has run down to one; from
      then on each tick sends the poll, or gives up when the polls are used up. */
  lemma {:induction false} WaitRunsDown(k: Track, es: seq<Event>)
    requires k.t.busy && Ticks(es) && |es| < k.t.pollTimeout
    ensures Run(k, es) == k.(t := k.t.(pollTimeout := k.t.pollTimeout - |es|))
  {
    if es != [] { WaitRunsDown(k, es[..|es| - 1]); }
  }

  /** After an acknowledgement of a request the wait is exactly 50 ticks: for 49 of them
      nothing is sent whatever the wire would take, and the 50th sends the next poll, if
      the wire takes it, or gives up after the fifth. A poll that is refused is due again
      on the next tick. */
  lemma PollTakes50(k: Track, es: seq<Event>, accept: bool)
    requires Tracked(k) && k.t.busy && Ticks(es) && |es| <= 49
    ensures var waiting := Run(Next(k, AckIn), es); var next := Next(waiting, Tick(accept));
      && waiting.polls == k.polls && waiting.t.busy
      && if |es| < 49 then next == waiting.(t := waiting.t.(pollTimeout := 49 - |es|))
         else if k.t.pollCount == CCP_MAX_POLLS then !next.t.busy
         else if accept then next.polls == k.polls + 1 && next.t == Transaction(true, 50, k.t.pollCount + 1)
         else next == waiting && PollDue(next.t)
  {
    WaitRunsDown(Next(k, AckIn), es);
  }
}

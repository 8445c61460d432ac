/** The rules engine: each event has a list of rules, which are looked at one after the
    other. A rule that runs sends a message; while that message is being handled the rule is
    in progress, holds its event and keeps the rules behind it waiting. A deferred rule holds
    its event too, but is passed over until the rules are looked at again. When all rules of
    an event are complete the event is cleared. */
module RulesEngine {

  datatype Rule<E, M> = Rule(event: E, message: M)

  datatype Status = NotDone | Running | Deferred | Done

  /** What a rule answers when it is looked at; complete and ignored are treated alike. */
  datatype Action = Start | Ignore | Defer

  /** One event: whether it is set, and the status of each of its rules. */
  datatype Entry = Entry(held: bool, status: seq<Status>)

  predicate Every(status: seq<Status>, a: Status) {
    forall k :: 0 <= k < |status| ==> status[k] == a
  }

  function Fresh(n: nat): (r: seq<Status>)
    ensures |r| == n && Every(r, NotDone)
  {
    seq(n, _ => NotDone)
  }

  /** An event whose rules are all done is cleared, and they start afresh. */
  function Settled(x: Entry): Entry {
    if Every(x.status, Done) then Entry(false, Fresh(|x.status|)) else x
  }

  /** The rules of one event from number k on: the first that runs or is running stops the
      others; after a deferred one they go on; the last one done clears the event. */
  function Scan(x: Entry, answers: seq<Action>, k: nat): (y: Entry)
    requires |answers| == |x.status|
    ensures |y.status| == |x.status|
    decreases |x.status| - k
  {
    if k >= |x.status| then x
    else if x.status[k] == Done then Scan(x, answers, k + 1)
    else if x.status[k] == Running then x
    else
      match answers[k]
      case Start => x.(status := x.status[k := Running])
      case Ignore => Scan(Settled(x.(status := x.status[k := Done])), answers, k + 1)
      case Defer => Scan(x.(status := x.status[k := Deferred]), answers, k + 1)
  }

  /** The rules of an event that is set are looked at. */
  function Checked(x: Entry, answers: seq<Action>): (y: Entry)
    requires |answers| == |x.status|
    ensures |y.status| == |x.status|
  {
    if x.held then Scan(x, answers, 0) else x
  }

  /** The rule is in progress, and has sent this message. */
  predicate Sends<M(==)>(x: Entry, rules: seq<M>, message: M, k: nat)
    requires k < |x.status| == |rules|
  {
    x.status[k] == Running && rules[k] == message
  }

  /** The message has been handled: the rules in progress that sent it are done. */
  function Finished<M(==)>(x: Entry, rules: seq<M>, message: M): (y: Entry)
    requires |x.status| == |rules|
    ensures |y.status| == |rules|
  {
    if exists k :: 0 <= k < |rules| && Sends(x, rules, message, k) then
      Settled(x.(status := seq(|rules|, k requires 0 <= k < |rules| =>
        if Sends(x, rules, message, k) then Done else x.status[k])))
    else x
  }

  /** The events that are set, or whose rules are not fresh. */
  type RuleSet<E(==)> = map<E, Entry>

  /** The messages of the rules of an event, in the order of the table. */
  function RulesFor<E(==), M>(table: map<E, seq<M>>, e: E): seq<M> {
    if e in table then table[e] else []
  }

  function EntryIn<E(==), M>(s: RuleSet<E>, table: map<E, seq<M>>, e: E): (x: Entry)
    ensures |x.status| == |RulesFor(table, e)|
  {
    if e in s && |s[e].status| == |RulesFor(table, e)| then s[e] else Entry(false, Fresh(|RulesFor(table, e)|))
  }

  /** What the rules answer: these run, and of the others these are deferred. */
  datatype Answers<E(==), M(==)> = Answers(runs: set<Rule<E, M>>, defers: set<Rule<E, M>>) {
    function Act(rule: Rule<E, M>): Action {
      if rule in runs then Start else if rule in defers then Defer else Ignore
    }
  }

  function Acts<E(==), M(==)>(table: map<E, seq<M>>, e: E, answers: Answers<E, M>): (r: seq<Action>)
    ensures |r| == |RulesFor(table, e)|
    ensures forall k :: 0 <= k < |r| ==> r[k] == answers.Act(Rule(e, RulesFor(table, e)[k]))
  {
    var rules := RulesFor(table, e);
    seq(|rules|, k requires 0 <= k < |rules| => answers.Act(Rule(e, rules[k])))
  }

  /** What a rule set can be told; at last, an event or a message of which it has no rules. */
  datatype Call<E, M> = SetEvent(event: E) | ResetEvent(event: E) | ResetAll | Complete(message: M) | Look

  /** What a call makes of one event x. When an event is set or a message has been handled,
      the rules of all events that are set are looked at. */
  function Heeds<E(==), M(==)>(x: Entry, rules: seq<M>, acts: seq<Action>, call: Call<E, M>, e: E): (y: Entry)
    requires |x.status| == |rules| == |acts|
    ensures |y.status| == |rules|
  {
    match call
    case SetEvent(f) => Checked(if e == f then x.(held := true) else x, acts)
    case ResetEvent(f) => if e == f then Entry(false, Fresh(|rules|)) else x
    case ResetAll => Entry(false, Fresh(|rules|))
    case Complete(m) => Checked(Finished(x, rules, m), acts)
    case Look => Checked(x, acts)
  }

  function Seen<E(==), M(==)>(s: RuleSet<E>, table: map<E, seq<M>>, call: Call<E, M>, answers: Answers<E, M>, e: E)
    : (y: Entry)
    ensures |y.status| == |RulesFor(table, e)|
  {
    Heeds(EntryIn(s, table, e), RulesFor(table, e), Acts(table, e, answers), call, e)
  }

  predicate Idle(x: Entry) {
    !x.held && Every(x.status, NotDone)
  }

  function Told<E(==), M(==)>(s: RuleSet<E>, table: map<E, seq<M>>, call: Call<E, M>, answers: Answers<E, M>)
    : RuleSet<E>
  {
    map e | e in s.Keys + (if call.SetEvent? then {call.event} else {}) && !Idle(Seen(s, table, call, answers, e)) ::
      Seen(s, table, call, answers, e)
  }

  lemma IdleIsFresh(x: Entry)
    ensures Idle(x) <==> x == Entry(false, Fresh(|x.status|))
  {
  }

  /** A call does to each event what it does to its entry. */
  lemma ToldEntry<E, M>(s: RuleSet<E>, table: map<E, seq<M>>, call: Call<E, M>, answers: Answers<E, M>, e: E)
    ensures EntryIn(Told(s, table, call, answers), table, e) == Seen(s, table, call, answers, e)
  {
    IdleIsFresh(Seen(s, table, call, answers, e));
    if e !in s && !(call.SetEvent? && call.event == e) {
      var x := EntryIn(s, table, e);
      assert x == Entry(false, Fresh(|RulesFor(table, e)|));
    }
  }
}

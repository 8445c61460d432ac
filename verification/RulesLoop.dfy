/** The rules engine as it is written: loops over one table of rules of all events, a status
    for each rule, and a set of events. */
module RulesLoop {
  import opened RulesEngine

  datatype Engine<E(==), M> = Engine(events: set<E>, status: seq<Status>, sent: seq<M>)

  /** Rule j sends this message, has this status and belongs to one of these events. */
  predicate Matches<E(==), M(==)>(table: seq<Rule<E, M>>, status: seq<Status>, j: nat,
                                  message: M, was: Status, only: set<E>)
    requires j < |table| == |status|
  {
    table[j].message == message && status[j] == was && table[j].event in only
  }

  /** The statuses with the matching rules done. */
  function Marked<E(==), M(==)>(table: seq<Rule<E, M>>, status: seq<Status>, message: M, was: Status, only: set<E>)
    : (r: seq<Status>)
    requires |table| == |status|
    ensures |r| == |status|
    ensures forall j :: 0 <= j < |r| ==>
      r[j] == if Matches(table, status, j, message, was, only) then Done else status[j]
  {
    seq(|status|, j requires 0 <= j < |status| =>
      if Matches(table, status, j, message, was, only) then Done else status[j])
  }

  predicate AllDone<E(==), M>(table: seq<Rule<E, M>>, status: seq<Status>, e: E)
    requires |table| == |status|
  {
    forall j :: 0 <= j < |table| && table[j].event == e ==> status[j] == Done
  }

  /** The events of the matching rules that have no other rule left to do. */
  function FinishedEvents<E(==), M(==)>(table: seq<Rule<E, M>>, status: seq<Status>, message: M, was: Status,
                                        only: set<E>)
    : set<E>
    requires |table| == |status|
  {
    set j | 0 <= j < |table| && Matches(table, status, j, message, was, only)
            && AllDone(table, Marked(table, status, message, was, only), table[j].event) :: table[j].event
  }

  function Unset<E(==), M>(table: seq<Rule<E, M>>, status: seq<Status>, es: set<E>): (r: seq<Status>)
    requires |table| == |status|
    ensures |r| == |status|
    ensures forall j :: 0 <= j < |r| ==> r[j] == if table[j].event in es then NotDone else status[j]
  {
    seq(|status|, j requires 0 <= j < |status| => if table[j].event in es then NotDone else status[j])
  }

  /** Events are cleared, and their rules start afresh. */
  function Reset<E(==), M>(table: seq<Rule<E, M>>, s: Engine<E, M>, es: set<E>): Engine<E, M>
    requires |table| == |s.status|
  {
    s.(events := s.events - es, status := Unset(table, s.status, es))
  }

  function Updated<E(==), M(==)>(table: seq<Rule<E, M>>, s: Engine<E, M>, message: M, was: Status, only: set<E>)
    : (r: Engine<E, M>)
    requires |table| == |s.status|
    ensures |r.status| == |s.status|
  {
    Reset(table, s.(status := Marked(table, s.status, message, was, only)),
          FinishedEvents(table, s.status, message, was, only))
  }

  /** The loop over the table from rule i on, with the events that are still looked at. */
  function RunFrom<E(==), M(==)>(table: seq<Rule<E, M>>, s: Engine<E, M>, open: set<E>, answers: seq<Action>, i: nat)
    : (r: Engine<E, M>)
    requires i <= |table| == |s.status| == |answers|
    ensures |r.status| == |s.status|
    decreases |table| - i
  {
    if i == |table| then s
    else
      var rule := table[i];
      if rule.event !in open || s.status[i] == Done then RunFrom(table, s, open, answers, i + 1)
      else if s.status[i] == Running then RunFrom(table, s, open - {rule.event}, answers, i + 1)
      else
        match answers[i]
        case Start =>
          RunFrom(table, s.(status := s.status[i := Running], sent := s.sent + [rule.message]),
                  open - {rule.event}, answers, i + 1)
        case Ignore =>
          RunFrom(table, Updated(table, s, rule.message, s.status[i], {rule.event}), open, answers, i + 1)
        case Defer => RunFrom(table, s.(status := s.status[i := Deferred]), open, answers, i + 1)
  }

  function EventsOf<E(==), M>(table: seq<Rule<E, M>>): set<E> {
    set j | 0 <= j < |table| :: table[j].event
  }

  function WithEvent<E(==), M(==)>(table: seq<Rule<E, M>>, s: Engine<E, M>, e: E, answers: seq<Action>): Engine<E, M>
    requires |table| == |s.status| == |answers|
  {
    RunFrom(table, s.(events := s.events + {e}), s.events + {e}, answers, 0)
  }

  function WithCompletion<E(==), M(==)>(table: seq<Rule<E, M>>, s: Engine<E, M>, message: M, answers: seq<Action>)
    : Engine<E, M>
    requires |table| == |s.status| == |answers|
  {
    var u := Updated(table, s, message, Running, EventsOf(table));
    RunFrom(table, u, u.events, answers, 0)
  }

  /** A rule set: its table, the status of each rule and the events that are set. */
  class RuleEngine<E(==), M(==)> {
    const table: seq<Rule<E, M>>
    const status: array<Status>
    var events: set<E>
    /** The messages sent so far. */
    var sent: seq<M>

    ghost predicate Valid()
      reads this, status
    {
      status.Length == |table|
    }

    ghost function Snapshot(): Engine<E, M>
      reads this, status
    {
      Engine(events, status[..], sent)
    }

    constructor (rules: seq<Rule<E, M>>)
      ensures Valid() && table == rules && fresh(status)
      ensures events == {} && sent == [] && forall j :: 0 <= j < |rules| ==> status[j] == NotDone
    {
      table := rules;
      status := new Status[|rules|](_ => NotDone);
      events, sent := {}, [];
    }

    /** Clears events and resets the status of their rules. */
    method ResetEvent(es: set<E>)
      requires Valid()
      modifies this`events, status
      ensures Snapshot() == Reset(table, old(Snapshot()), es)
    {
      events := events - es;
      var j := 0;
      while j < |table|
        invariant j <= |table| && events == old(events) - es
        invariant forall k :: 0 <= k < |table| ==>
          status[k] == if k < j && table[k].event in es then NotDone else old(status[k])
      {
        if table[j].event in es {
          status[j] := NotDone;
        }
        j := j + 1;
      }
      assert status[..] == Unset(table, old(status[..]), es);
    }

    /** The first loop: matching rules are done, and their events are collected. */
    method MarkDone(message: M, was: Status, only: set<E>) returns (mask: set<E>)
      requires Valid()
      modifies status
      ensures status[..] == Marked(table, old(status[..]), message, was, only)
      ensures mask ==
        set j | 0 <= j < |table| && Matches(table, old(status[..]), j, message, was, only) :: table[j].event
    {
      mask := {};
      ghost var before := status[..];
      var j := 0;
      while j < |table|
        invariant j <= |table|
        invariant forall k :: 0 <= k < |table| ==>
          status[k] == if k < j && Matches(table, before, k, message, was, only) then Done else before[k]
        invariant mask == set k | 0 <= k < j && Matches(table, before, k, message, was, only) :: table[k].event
      {
        if table[j].message == message && status[j] == was && table[j].event in only {
          status[j] := Done;
          mask := mask + {table[j].event};
        }
        j := j + 1;
      }
    }

    /** The second loop: events with a rule that is not done drop out. */
    method DropUnfinished(all: set<E>, only: set<E>) returns (mask: set<E>)
      requires Valid() && all <= only
      ensures mask == set e | e in all && AllDone(table, status[..], e)
    {
      mask := all;
      var j := 0;
      while j < |table|
        invariant j <= |table|
        invariant mask == set e | e in all && DoneBelow(e, j)
      {
        if table[j].event in only && status[j] != Done {
          mask := mask - {table[j].event};
        }
        j := j + 1;
      }
    }

    ghost predicate DoneBelow(e: E, j: nat)
      requires Valid() && j <= |table|
      reads this, status
    {
      forall k :: 0 <= k < j && table[k].event == e ==> status[k] == Done
    }

    /** Matching rules are done; an event of theirs without a rule left is cleared. */
    method UpdateRuleStatus(message: M, was: Status, only: set<E>) returns (didSet: bool)
      requires Valid()
      modifies this`events, status
      ensures Snapshot() == Updated(table, old(Snapshot()), message, was, only)
      ensures didSet <==> exists j :: 0 <= j < |table| && Matches(table, old(status[..]), j, message, was, only)
    {
      ghost var before := status[..];
      var matched := MarkDone(message, was, only);
      didSet := matched != {};
      var mask := DropUnfinished(matched, only);
      assert mask == FinishedEvents(table, before, message, was, only);
      if mask != {} {
        ResetEvent(mask);
      } else {
        assert Unset(table, status[..], mask) == status[..];
      }
    }

    /** One rule of an event that is looked at. */
    method RunRule(i: nat, open: set<E>, answer: Action) returns (left: set<E>)
      requires Valid() && i < |table| && table[i].event in open && status[i] != Done && status[i] != Running
      modifies this`events, this`sent, status
      ensures left == if answer == Start then open - {table[i].event} else open
      ensures Snapshot() == match answer
        case Start => old(Snapshot()).(status := old(status[..])[i := Running], sent := old(sent) + [table[i].message])
        case Ignore => Updated(table, old(Snapshot()), table[i].message, old(status[i]), {table[i].event})
        case Defer => old(Snapshot()).(status := old(status[..])[i := Deferred])
    {
      left := open;
      match answer {
        case Start =>
          status[i] := Running;
          sent := sent + [table[i].message];
          left := open - {table[i].event};
        case Ignore =>
          var _ := UpdateRuleStatus(table[i].message, status[i], {table[i].event});
        case Defer =>
          status[i] := Deferred;
      }
    }

    /** Runs the rules of all events that are set. A rule that runs or is in progress keeps
        the rules behind it from being looked at; the events that are looked at are those
        that were set at the start. */
    method RunRules(answers: seq<Action>)
      requires Valid() && |answers| == |table|
      modifies this`events, this`sent, status
      ensures Snapshot() == RunFrom(table, old(Snapshot()), old(events), answers, 0)
    {
      var open := events;
      var i := 0;
      while i < |table|
        invariant i <= |table|
        invariant RunFrom(table, Snapshot(), open, answers, i) ==
          RunFrom(table, old(Snapshot()), old(events), answers, 0)
      {
        if table[i].event in open && status[i] != Done {
          if status[i] == Running {
            open := open - {table[i].event};
          } else {
            open := RunRule(i, open, answers[i]);
          }
        }
        i := i + 1;
      }
    }

    method SetEvent(e: E, answers: seq<Action>)
      requires Valid() && |answers| == |table|
      modifies this`events, this`sent, status
      ensures Snapshot() == WithEvent(table, old(Snapshot()), e, answers)
    {
      events := events + {e};
      RunRules(answers);
    }

    method SetRuleComplete(message: M, answers: seq<Action>)
      requires Valid() && |answers| == |table|
      modifies this`events, this`sent, status
      ensures Snapshot() == WithCompletion(table, old(Snapshot()), message, answers)
    {
      var all := set j | 0 <= j < |table| :: table[j].event;
      var _ := UpdateRuleStatus(message, Running, all);
      RunRules(answers);
    }
  }
}

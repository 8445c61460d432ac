/** What the loops of the rules engine do to the rules of one event, and so to the events
    that are set. */
module RulesOrder {
  import opened RulesEngine
  import opened RulesLoop
  import RulePositions

  /** The places of the rules of e among the first i. */
  function Places<E(==), M>(table: seq<Rule<E, M>>, e: E, i: nat): (p: seq<nat>)
    requires i <= |table|
    ensures |p| <= i
    ensures forall k :: 0 <= k < |p| ==> p[k] < i && table[p[k]].event == e
    ensures forall j, k :: 0 <= j < k < |p| ==> p[j] < p[k]
  {
    if i == 0 then [] else Places(table, e, i - 1) + (if table[i - 1].event == e then [i - 1] else [])
  }

  lemma {:induction false} PlacesFind<E, M>(table: seq<Rule<E, M>>, e: E, i: nat, j: nat) returns (k: nat)
    requires j < i <= |table| && table[j].event == e
    ensures k < |Places(table, e, i)| && Places(table, e, i)[k] == j
  {
    if j == i - 1 { k := |Places(table, e, i)| - 1; } else { k := PlacesFind(table, e, i - 1, j); }
  }

  lemma {:induction false} PlacesGrow<E, M>(table: seq<Rule<E, M>>, e: E, i: nat, n: nat)
    requires i <= n <= |table|
    ensures Places(table, e, i) <= Places(table, e, n)
  {
    if i < n { PlacesGrow(table, e, i, n - 1); }
  }

  /** The rules of e in the table. */
  function All<E(==), M>(table: seq<Rule<E, M>>, e: E): seq<nat> {
    Places(table, e, |table|)
  }

  function Pick<T>(s: seq<T>, ix: seq<nat>): (r: seq<T>)
    requires forall k :: 0 <= k < |ix| ==> ix[k] < |s|
    ensures |r| == |ix| && forall k :: 0 <= k < |ix| ==> r[k] == s[ix[k]]
  {
    seq(|ix|, k requires 0 <= k < |ix| => s[ix[k]])
  }

  function EntryOf<E(==), M>(table: seq<Rule<E, M>>, s: Engine<E, M>, e: E): (x: Entry)
    requires |s.status| == |table|
    ensures |x.status| == |All(table, e)|
  {
    Entry(e in s.events, Pick(s.status, All(table, e)))
  }

  /** No event has two rules that send the same message. */
  ghost predicate Distinct<E, M>(table: seq<Rule<E, M>>) {
    forall i, j :: 0 <= i < j < |table| ==> table[i] != table[j]
  }

  /** Where rule i stands among the rules of its event. */
  lemma PlaceOf<E, M>(table: seq<Rule<E, M>>, i: nat, e: E)
    requires i < |table| && table[i].event == e
    ensures var k, all := |Places(table, e, i)|, All(table, e);
      k < |all| && all[k] == i && forall j :: 0 <= j < |all| && j != k ==> all[j] != i
  {
    PlacesGrow(table, e, i + 1, |table|);
    assert Places(table, e, i + 1) == Places(table, e, i) + [i];
  }

  lemma PickOne<T>(s: seq<T>, ix: seq<nat>, i: nat, k: nat, a: T)
    requires i < |s| && k < |ix| && ix[k] == i
    requires forall j :: 0 <= j < |ix| ==> ix[j] < |s|
    requires forall j :: 0 <= j < |ix| && j != k ==> ix[j] != i
    ensures Pick(s[i := a], ix) == Pick(s, ix)[k := a]
  {
  }

  lemma PickElsewhere<T>(s: seq<T>, ix: seq<nat>, i: nat, a: T)
    requires i < |s| && forall j :: 0 <= j < |ix| ==> ix[j] < |s| && ix[j] != i
    ensures Pick(s[i := a], ix) == Pick(s, ix)
  {
  }

  /** Changing the status of one rule, seen from an event. */
  lemma PickUpdate<E, M>(table: seq<Rule<E, M>>, status: seq<Status>, i: nat, a: Status, e: E)
    requires |status| == |table| && i < |table|
    ensures table[i].event != e ==> Pick(status[i := a], All(table, e)) == Pick(status, All(table, e))
    ensures var k := |Places(table, e, i)|;
      table[i].event == e ==>
        (k < |All(table, e)| && All(table, e)[k] == i
         && Pick(status[i := a], All(table, e)) == Pick(status, All(table, e))[k := a])
  {
    if table[i].event == e {
      PlaceOf(table, i, e);
      PickOne(status, All(table, e), i, |Places(table, e, i)|, a);
    } else {
      PickElsewhere(status, All(table, e), i, a);
    }
  }

  lemma AllDoneHere<E, M>(table: seq<Rule<E, M>>, status: seq<Status>, e: E)
    requires |status| == |table|
    ensures AllDone(table, status, e) <==> Every(Pick(status, All(table, e)), Done)
  {
    if Every(Pick(status, All(table, e)), Done) {
      forall j | 0 <= j < |table| && table[j].event == e ensures status[j] == Done {
        var k := PlacesFind(table, e, |table|, j);
        assert Pick(status, All(table, e))[k] == status[j];
      }
    } else {
      var k :| 0 <= k < |All(table, e)| && Pick(status, All(table, e))[k] != Done;
      assert table[All(table, e)[k]].event == e;
    }
  }

  /** Only the rule itself is marked, since no other rule of its event sends its message. */
  lemma MarkedOne<E, M>(table: seq<Rule<E, M>>, status: seq<Status>, i: nat)
    requires |status| == |table| && i < |table| && Distinct(table)
    ensures Marked(table, status, table[i].message, status[i], {table[i].event}) == status[i := Done]
  {
    forall j | 0 <= j < |table|
      ensures Matches(table, status, j, table[i].message, status[i], {table[i].event}) <==> j == i
    {
      assert j != i ==> table[j] != table[i];
      assert table[j] == Rule(table[j].event, table[j].message) && table[i] == Rule(table[i].event, table[i].message);
    }
  }

  lemma FinishedOne<E, M>(table: seq<Rule<E, M>>, status: seq<Status>, i: nat)
    requires |status| == |table| && i < |table| && Distinct(table)
    ensures FinishedEvents(table, status, table[i].message, status[i], {table[i].event}) ==
      if AllDone(table, status[i := Done], table[i].event) then {table[i].event} else {}
  {
    MarkedOne(table, status, i);
    var f := FinishedEvents(table, status, table[i].message, status[i], {table[i].event});
    assert Matches(table, status, i, table[i].message, status[i], {table[i].event});
    assert forall e :: e in f ==> e == table[i].event;
  }

  lemma PickUnset<E, M>(table: seq<Rule<E, M>>, status: seq<Status>, es: set<E>, e: E)
    requires |status| == |table|
    ensures Pick(Unset(table, status, es), All(table, e)) ==
      if e in es then Fresh(|All(table, e)|) else Pick(status, All(table, e))
  {
  }

  /** An ignored rule, seen from its own event and from another. */
  lemma IgnoredOne<E, M>(table: seq<Rule<E, M>>, s: Engine<E, M>, i: nat, e: E)
    requires |s.status| == |table| && i < |table| && Distinct(table)
    ensures var n, k := Updated(table, s, table[i].message, s.status[i], {table[i].event}), |Places(table, e, i)|;
      && k <= |All(table, e)|
      && (table[i].event == e ==> k < |All(table, e)|)
      && EntryOf(table, n, e) ==
           (if table[i].event == e
            then Settled(EntryOf(table, s, e).(status := Pick(s.status, All(table, e))[k := Done]))
            else EntryOf(table, s, e))
  {
    var f := table[i].event;
    PlacesGrow(table, e, i, |table|);
    MarkedOne(table, s.status, i);
    FinishedOne(table, s.status, i);
    AllDoneHere(table, s.status[i := Done], f);
    PickUpdate(table, s.status, i, Done, e);
    PickUnset(table, s.status[i := Done], if AllDone(table, s.status[i := Done], f) then {f} else {}, e);
  }

  /** The loop over the whole table does to each event that is looked at what the scan of
      its own rules does, and nothing to the others: the rules of different events do not
      affect each other. */
  lemma {:induction false} LoopScans<E, M>(table: seq<Rule<E, M>>, s: Engine<E, M>, open: set<E>,
                                           answers: seq<Action>, i: nat, e: E)
    requires i <= |table| == |s.status| == |answers| && Distinct(table)
    ensures EntryOf(table, RunFrom(table, s, open, answers, i), e) ==
      if e in open then Scan(EntryOf(table, s, e), Pick(answers, All(table, e)), |Places(table, e, i)|)
      else EntryOf(table, s, e)
    decreases |table| - i
  {
    if i < |table| {
      LoopStep(table, s, open, answers, i, e);
      var n, left := OneRule(table, s, open, answers, i);
      LoopScans(table, n, left, answers, i + 1, e);
    }
  }

  /** One round of the loop. */
  function Round<E(==), M(==)>(table: seq<Rule<E, M>>, s: Engine<E, M>, open: set<E>, answers: seq<Action>, i: nat)
    : (r: (Engine<E, M>, set<E>))
    requires i < |table| == |s.status| == |answers|
    ensures |r.0.status| == |table|
  {
    var rule := table[i];
    if rule.event !in open || s.status[i] == Done then (s, open)
    else if s.status[i] == Running then (s, open - {rule.event})
    else
      match answers[i]
      case Start => (s.(status := s.status[i := Running], sent := s.sent + [rule.message]), open - {rule.event})
      case Ignore => (Updated(table, s, rule.message, s.status[i], {rule.event}), open)
      case Defer => (s.(status := s.status[i := Deferred]), open)
  }

  lemma OneRule<E, M>(table: seq<Rule<E, M>>, s: Engine<E, M>, open: set<E>, answers: seq<Action>, i: nat)
    returns (n: Engine<E, M>, left: set<E>)
    requires i < |table| == |s.status| == |answers|
    ensures |n.status| == |table| && (n, left) == Round(table, s, open, answers, i)
    ensures RunFrom(table, s, open, answers, i) == RunFrom(table, n, left, answers, i + 1)
  {
    n, left := Round(table, s, open, answers, i).0, Round(table, s, open, answers, i).1;
  }

  /** What is left to scan of one event, if it is looked at. */
  function Rest<E(==), M>(table: seq<Rule<E, M>>, s: Engine<E, M>, open: set<E>, answers: seq<Action>, i: nat, e: E)
    : Entry
    requires i <= |table| == |s.status| == |answers|
  {
    if e in open then Scan(EntryOf(table, s, e), Pick(answers, All(table, e)), |Places(table, e, i)|)
    else EntryOf(table, s, e)
  }

  lemma LoopStep<E, M>(table: seq<Rule<E, M>>, s: Engine<E, M>, open: set<E>, answers: seq<Action>, i: nat, e: E)
    requires i < |table| == |s.status| == |answers| && Distinct(table)
    ensures var r := Round(table, s, open, answers, i);
      Rest(table, s, open, answers, i, e) == Rest(table, r.0, r.1, answers, i + 1, e)
  {
    if table[i].event == e { OwnStep(table, s, open, answers, i); } else { OtherStep(table, s, open, answers, i, e); }
  }

  lemma OtherStep<E, M>(table: seq<Rule<E, M>>, s: Engine<E, M>, open: set<E>, answers: seq<Action>, i: nat, e: E)
    requires i < |table| == |s.status| == |answers| && Distinct(table) && table[i].event != e
    ensures var r := Round(table, s, open, answers, i);
      Rest(table, s, open, answers, i, e) == Rest(table, r.0, r.1, answers, i + 1, e)
  {
    IgnoredOne(table, s, i, e);
    PickUpdate(table, s.status, i, Running, e);
    PickUpdate(table, s.status, i, Deferred, e);
    assert Places(table, e, i + 1) == Places(table, e, i);
  }

  lemma OwnStep<E, M>(table: seq<Rule<E, M>>, s: Engine<E, M>, open: set<E>, answers: seq<Action>, i: nat)
    requires i < |table| == |s.status| == |answers| && Distinct(table)
    ensures var r := Round(table, s, open, answers, i); var e := table[i].event;
      Rest(table, s, open, answers, i, e) == Rest(table, r.0, r.1, answers, i + 1, e)
  {
    var e := table[i].event;
    var k := |Places(table, e, i)|;
    IgnoredOne(table, s, i, e);
    PickUpdate(table, s.status, i, Running, e);
    PickUpdate(table, s.status, i, Deferred, e);
    assert |Places(table, e, i + 1)| == k + 1;
    assert EntryOf(table, s, e).status[k] == s.status[i] && Pick(answers, All(table, e))[k] == answers[i];
  }

  function RulesOf<E(==), M>(table: seq<Rule<E, M>>, e: E): (r: seq<M>)
    ensures |r| == |All(table, e)|
  {
    seq(|All(table, e)|, k requires 0 <= k < |All(table, e)| => table[All(table, e)[k]].message)
  }

  /** What the rules of the table answer. */
  function ActsOf<E(==), M(==)>(table: seq<Rule<E, M>>, answers: Answers<E, M>): (r: seq<Action>)
    ensures |r| == |table|
  {
    seq(|table|, i requires 0 <= i < |table| => answers.Act(table[i]))
  }

  /** One table lists the same rules for an event as the other has in its list. */
  predicate Lists<E(==), M(==)>(table: seq<Rule<E, M>>, rules: map<E, seq<M>>, e: E) {
    RulesOf(table, e) == RulesFor(rules, e)
  }

  lemma PickActs<E, M>(table: seq<Rule<E, M>>, rules: map<E, seq<M>>, answers: Answers<E, M>, e: E)
    requires Lists(table, rules, e)
    ensures Pick(ActsOf(table, answers), All(table, e)) == Acts(rules, e, answers)
  {
    var all := All(table, e);
    forall k | 0 <= k < |all| ensures Pick(ActsOf(table, answers), all)[k] == Acts(rules, e, answers)[k] {
      assert RulesOf(table, e)[k] == table[all[k]].message;
      assert table[all[k]] == Rule(e, table[all[k]].message);
    }
  }

  /** Setting an event, seen from an event x. */
  lemma SetEventEntry<E, M>(table: seq<Rule<E, M>>, s: Engine<E, M>, e: E, answers: seq<Action>, x: E)
    requires |s.status| == |table| == |answers| && Distinct(table)
    ensures |WithEvent(table, s, e, answers).status| == |table|
    ensures EntryOf(table, WithEvent(table, s, e, answers), x) ==
      Checked(if x == e then EntryOf(table, s, x).(held := true) else EntryOf(table, s, x),
              Pick(answers, All(table, x)))
  {
    var t := s.(events := s.events + {e});
    LoopScans(table, t, t.events, answers, 0, x);
    assert Places(table, x, 0) == [];
    assert EntryOf(table, t, x) == EntryOf(table, s, x).(held := x in t.events);
  }

  lemma MatchesHere<E, M>(table: seq<Rule<E, M>>, s: Engine<E, M>, message: M, e: E, k: nat)
    requires |s.status| == |table| && k < |All(table, e)|
    ensures Matches(table, s.status, All(table, e)[k], message, Running, EventsOf(table)) <==>
      Sends(EntryOf(table, s, e), RulesOf(table, e), message, k)
  {
    assert table[All(table, e)[k]].event in EventsOf(table);
  }

  lemma EventFinishes<E, M>(table: seq<Rule<E, M>>, s: Engine<E, M>, message: M, e: E)
    requires |s.status| == |table|
    ensures e in FinishedEvents(table, s.status, message, Running, EventsOf(table)) <==>
      (exists k :: 0 <= k < |All(table, e)| && Sends(EntryOf(table, s, e), RulesOf(table, e), message, k))
      && AllDone(table, Marked(table, s.status, message, Running, EventsOf(table)), e)
  {
    var only := EventsOf(table);
    if k :| 0 <= k < |All(table, e)| && Sends(EntryOf(table, s, e), RulesOf(table, e), message, k) {
      MatchesHere(table, s, message, e, k);
    }
    if j :| 0 <= j < |table| && Matches(table, s.status, j, message, Running, only) && table[j].event == e {
      var k := PlacesFind(table, e, |table|, j);
      MatchesHere(table, s, message, e, k);
    }
  }

  /** A handled message, seen from one event. */
  lemma UpdatedEntry<E, M>(table: seq<Rule<E, M>>, s: Engine<E, M>, message: M, e: E)
    requires |s.status| == |table|
    ensures EntryOf(table, Updated(table, s, message, Running, EventsOf(table)), e) ==
      Finished(EntryOf(table, s, e), RulesOf(table, e), message)
  {
    var all, rules, x := All(table, e), RulesOf(table, e), EntryOf(table, s, e);
    var marked := Marked(table, s.status, message, Running, EventsOf(table));
    forall k | 0 <= k < |all|
      ensures Pick(marked, all)[k] == if Sends(x, rules, message, k) then Done else x.status[k]
    {
      MatchesHere(table, s, message, e, k);
    }
    assert Pick(marked, all) == seq(|all|, k requires 0 <= k < |all| =>
      if Sends(x, rules, message, k) then Done else x.status[k]);
    EventFinishes(table, s, message, e);
    AllDoneHere(table, marked, e);
    PickUnset(table, marked, FinishedEvents(table, s.status, message, Running, EventsOf(table)), e);
    if !exists k :: 0 <= k < |all| && Sends(x, rules, message, k) {
      assert Pick(marked, all) == x.status;
    }
  }

  /** The same call to the engine. */
  function Called<E(==), M(==)>(table: seq<Rule<E, M>>, s: Engine<E, M>, call: Call<E, M>, answers: Answers<E, M>)
    : (r: Engine<E, M>)
    requires |s.status| == |table|
    ensures |r.status| == |table|
  {
    match call
    case SetEvent(e) => WithEvent(table, s, e, ActsOf(table, answers))
    case ResetEvent(e) => Reset(table, s, {e})
    case ResetAll => Reset(table, s, s.events + EventsOf(table))
    case Complete(m) => WithCompletion(table, s, m, ActsOf(table, answers))
    case Look => RunFrom(table, s, s.events, ActsOf(table, answers), 0)
  }

  /** The engine and a rule set agree on an event: whether it is set, and the status of each
      of its rules. */
  predicate Agrees<E(==), M(==)>(table: seq<Rule<E, M>>, s: Engine<E, M>,
                                 rules: map<E, seq<M>>, plain: RuleSet<E>, e: E)
    requires |s.status| == |table|
  {
    EntryOf(table, s, e) == EntryIn(plain, rules, e)
  }

  lemma SetEventRefines<E, M>(table: seq<Rule<E, M>>, s: Engine<E, M>, rules: map<E, seq<M>>, e: E,
                              answers: Answers<E, M>, x: E)
    requires |s.status| == |table| && Distinct(table) && Lists(table, rules, x)
    ensures EntryOf(table, Called(table, s, SetEvent(e), answers), x) ==
      Heeds(EntryOf(table, s, x), RulesFor(rules, x), Acts(rules, x, answers), SetEvent(e), x)
  {
    SetEventEntry(table, s, e, ActsOf(table, answers), x);
    PickActs(table, rules, answers, x);
  }

  lemma CompleteRefines<E, M>(table: seq<Rule<E, M>>, s: Engine<E, M>, rules: map<E, seq<M>>, message: M,
                              answers: Answers<E, M>, x: E)
    requires |s.status| == |table| && Distinct(table) && Lists(table, rules, x)
    ensures EntryOf(table, Called(table, s, Complete(message), answers), x) ==
      Heeds(EntryOf(table, s, x), RulesFor(rules, x), Acts(rules, x, answers), Complete(message), x)
  {
    var u := Updated(table, s, message, Running, EventsOf(table));
    UpdatedEntry(table, s, message, x);
    LoopScans(table, u, u.events, ActsOf(table, answers), 0, x);
    assert Places(table, x, 0) == [];
    PickActs(table, rules, answers, x);
  }

  lemma LookRefines<E, M>(table: seq<Rule<E, M>>, s: Engine<E, M>, rules: map<E, seq<M>>, answers: Answers<E, M>, x: E)
    requires |s.status| == |table| && Distinct(table) && Lists(table, rules, x)
    ensures EntryOf(table, Called(table, s, Look, answers), x) == Checked(EntryOf(table, s, x), Acts(rules, x, answers))
  {
    LoopScans(table, s, s.events, ActsOf(table, answers), 0, x);
    assert Places(table, x, 0) == [];
    PickActs(table, rules, answers, x);
  }

  lemma ResetRefines<E, M>(table: seq<Rule<E, M>>, s: Engine<E, M>, es: set<E>, x: E)
    requires |s.status| == |table|
    ensures EntryOf(table, Reset(table, s, es), x) ==
      if x in es then Entry(false, Fresh(|All(table, x)|)) else EntryOf(table, s, x)
  {
    PickUnset(table, s.status, es, x);
  }

  lemma ResetAllRefines<E, M>(table: seq<Rule<E, M>>, s: Engine<E, M>, x: E)
    requires |s.status| == |table|
    ensures EntryOf(table, Reset(table, s, s.events + EventsOf(table)), x) == Entry(false, Fresh(|All(table, x)|))
  {
    ResetRefines(table, s, s.events + EventsOf(table), x);
    if All(table, x) != [] { assert table[All(table, x)[0]].event in EventsOf(table); }
  }

  /** One call keeps the agreement, whatever the rules answer. */
  lemma CallRefines<E, M>(table: seq<Rule<E, M>>, s: Engine<E, M>, rules: map<E, seq<M>>, plain: RuleSet<E>,
                          call: Call<E, M>, answers: Answers<E, M>, x: E)
    requires |s.status| == |table| && Distinct(table) && Lists(table, rules, x)
    requires Agrees(table, s, rules, plain, x)
    ensures Agrees(table, Called(table, s, call, answers), rules, Told(plain, rules, call, answers), x)
  {
    ToldEntry(plain, rules, call, answers, x);
    match call
    case SetEvent(e) => SetEventRefines(table, s, rules, e, answers, x);
    case ResetEvent(e) => ResetRefines(table, s, {e}, x);
    case ResetAll => ResetAllRefines(table, s, x);
    case Complete(m) => CompleteRefines(table, s, rules, m, answers, x);
    case Look => LookRefines(table, s, rules, answers, x);
  }

  /** A call with what the rules answer to it. */
  datatype Asked<E(==), M(==)> = Asked(call: Call<E, M>, answers: Answers<E, M>)

  function EngineAfter<E(==), M(==)>(table: seq<Rule<E, M>>, calls: seq<Asked<E, M>>): (r: Engine<E, M>)
    ensures |r.status| == |table|
  {
    if calls == [] then Engine({}, Fresh(|table|), [])
    else
      var last := calls[|calls| - 1];
      Called(table, EngineAfter(table, calls[..|calls| - 1]), last.call, last.answers)
  }

  function RulesAfter<E(==), M(==)>(rules: map<E, seq<M>>, calls: seq<Asked<E, M>>): RuleSet<E> {
    if calls == [] then map[]
    else
      var last := calls[|calls| - 1];
      Told(RulesAfter(rules, calls[..|calls| - 1]), rules, last.call, last.answers)
  }

  /** From a fresh engine on, over every sequence of calls and whatever the rules answer,
      deferred ones included: the loops over the whole table keep each event, with the status
      of each of its rules, as the rule set has it. */
  lemma {:induction false} AlwaysAgrees<E, M>(table: seq<Rule<E, M>>, rules: map<E, seq<M>>,
                                              calls: seq<Asked<E, M>>, x: E)
    requires Distinct(table) && Lists(table, rules, x)
    ensures Agrees(table, EngineAfter(table, calls), rules, RulesAfter(rules, calls), x)
  {
    if calls == [] {
      assert |RulesOf(table, x)| == |All(table, x)|;
    } else {
      var front, last := calls[..|calls| - 1], calls[|calls| - 1];
      AlwaysAgrees(table, rules, front, x);
      CallRefines(table, EngineAfter(table, front), rules, RulesAfter(rules, front), last.call, last.answers, x);
    }
  }

  /** An event that is not set has rules that start afresh. */
  predicate Clean(x: Entry) {
    x.held || Every(x.status, NotDone)
  }

  /** Every rule of an event is done or ignored now, and its last one is done already, which
      a rule before it that has been deferred makes possible. */
  predicate Late(x: Entry, answers: seq<Action>)
    requires |answers| == |x.status|
  {
    && x.status != [] && x.status[|x.status| - 1] == Done
    && forall k :: 0 <= k < |x.status| ==>
         x.status[k] == Done || (x.status[k] != Running && answers[k] == Ignore)
  }

  /** Once a rule of a cleared event has been looked at it is not fresh any more. */
  lemma {:induction false} DirtyStays(x: Entry, answers: seq<Action>, k: nat, i: nat, j: nat)
    requires |answers| == |x.status| && !x.held && i < k <= |x.status| && j < k
    requires x.status[i] != NotDone && x.status[j] != Done
    ensures !Clean(Scan(x, answers, k))
    decreases |x.status| - k
  {
    if k < |x.status| {
      if x.status[k] == Done {
        DirtyStays(x, answers, k + 1, i, j);
      } else if x.status[k] != Running && answers[k] != Start {
        var y := x.(status := x.status[k := if answers[k] == Ignore then Done else Deferred]);
        assert y.status[j] != Done;
        DirtyStays(y, answers, k + 1, i, j);
      } else {
        assert Scan(x, answers, k).status[i] == x.status[i];
      }
    }
  }

  /** A cleared event whose loop goes on. */
  lemma ClearedGoesOn(n: nat, answers: seq<Action>, k: nat)
    requires |answers| == n && 0 < k <= n
    ensures Clean(Scan(Entry(false, Fresh(n)), answers, k)) <==> k == n
  {
    if k < n {
      var x := Entry(false, Fresh(n));
      if answers[k] != Start {
        var y := x.(status := x.status[k := if answers[k] == Ignore then Done else Deferred]);
        assert y.status[0] == NotDone;
        DirtyStays(y, answers, k + 1, k, 0);
      } else {
        assert x.status[k := Running][k] == Running;
      }
    }
  }

  lemma {:induction false} ScanCleanFrom(x: Entry, answers: seq<Action>, k: nat)
    requires |answers| == |x.status| && x.held && k < |x.status|
    requires forall j :: 0 <= j < k ==> x.status[j] == Done
    requires !Every(x.status, Done)
    ensures Clean(Scan(x, answers, k)) <==> !Late(x, answers)
    decreases |x.status| - k
  {
    var n := |x.status|;
    if x.status[k] == Done {
      assert k + 1 < n;
      ScanCleanFrom(x, answers, k + 1);
    } else if x.status[k] != Running && answers[k] == Ignore {
      var y := x.(status := x.status[k := Done]);
      if Every(y.status, Done) {
        assert x.status[n - 1] == Done <==> k < n - 1 by {
          assert k < n - 1 ==> y.status[n - 1] == x.status[n - 1];
        }
        forall j | 0 <= j < n ensures x.status[j] == Done || j == k { assert y.status[j] == Done; }
        ClearedGoesOn(n, answers, k + 1);
      } else {
        var j :| 0 <= j < n && y.status[j] != Done;
        assert j > k;
        LateElsewhere(x, y, answers, k);
        ScanCleanFrom(y, answers, k + 1);
      }
    } else if x.status[k] != Running && answers[k] == Defer {
      var y := x.(status := x.status[k := Deferred]);
      RulePositions.DeferredHolds(y, answers, k + 1, k);
    }
  }

  lemma LateElsewhere(x: Entry, y: Entry, answers: seq<Action>, k: nat)
    requires |answers| == |x.status| && k < |x.status| - 1 && y == x.(status := x.status[k := Done])
    requires x.status[k] != Running && answers[k] == Ignore
    ensures Late(x, answers) <==> Late(y, answers)
  {
    forall j | 0 <= j < |x.status| && j != k ensures y.status[j] == x.status[j] { }
  }

  /** Exactly when looking at the rules leaves a cleared event behind whose rules are not
      fresh: the event is cleared while the loop has rules of it still ahead, and goes on
      to look at these. */
  lemma CheckIsClean<E, M>(table: seq<Rule<E, M>>, s: Engine<E, M>, answers: seq<Action>, e: E)
    requires |s.status| == |table| == |answers| && Distinct(table)
    requires e in s.events && !Every(EntryOf(table, s, e).status, Done)
    ensures |RunFrom(table, s, s.events, answers, 0).status| == |table|
    ensures Clean(EntryOf(table, RunFrom(table, s, s.events, answers, 0), e)) <==>
      !Late(EntryOf(table, s, e), Pick(answers, All(table, e)))
  {
    LoopScans(table, s, s.events, answers, 0, e);
    assert Places(table, e, 0) == [];
    ScanCleanFrom(EntryOf(table, s, e), Pick(answers, All(table, e)), 0);
  }

  /** A deferred rule makes it happen: the first of two rules is deferred, the second runs
      and is completed, and then the first is ignored. The event is cleared, and the second
      rule runs again for it. */
  lemma DeferredRunsAgain()
    ensures var set_ := Scan(Entry(true, [NotDone, NotDone]), [Defer, Start], 0);
      && set_ == Entry(true, [Deferred, Running])
      && Settled(set_.(status := set_.status[1 := Done])) == Entry(true, [Deferred, Done])
      && Late(Entry(true, [Deferred, Done]), [Ignore, Start])
      && Scan(Entry(true, [Deferred, Done]), [Ignore, Start], 0) == Entry(false, [NotDone, Running])
  {
    var x := Entry(true, [Deferred, Done]);
    assert Scan(Entry(true, [NotDone, NotDone]), [Defer, Start], 0) ==
      Scan(Entry(true, [Deferred, NotDone]), [Defer, Start], 1);
    assert x.status[0] == Deferred && [Deferred, Running][1 := Done] == x.status;
    var y := x.(status := x.status[0 := Done]);
    assert Every(y.status, Done);
    assert Fresh(2) == [NotDone, NotDone];
    assert Settled(y) == Entry(false, [NotDone, NotDone]);
    assert Scan(x, [Ignore, Start], 0) == Scan(Settled(y), [Ignore, Start], 1);
  }
}

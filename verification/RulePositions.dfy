/** Where an event stands in its list of rules. When no rule of it defers, one number says
    it: that of the rule in progress. When rules defer, what can be told is whether the
    event stays set. */
module RulePositions {
  import opened Options
  import opened RulesEngine

  predicate Prompt(acts: seq<Action>) {
    forall k :: 0 <= k < |acts| ==> acts[k] != Defer
  }

  /** The first rule from number k on that runs, if there is one. */
  function First(acts: seq<Action>, k: nat): (p: nat)
    requires k <= |acts|
    ensures k <= p <= |acts| && (p < |acts| ==> acts[p] == Start)
    ensures forall j :: k <= j < p ==> acts[j] != Start
    decreases |acts| - k
  {
    if k == |acts| || acts[k] == Start then k else First(acts, k + 1)
  }

  function Found(p: nat, n: nat): Option<nat> {
    if p < n then Some(p) else None
  }

  /** An event that is not set, or whose rule p is in progress: the rules before it are done,
      those behind it have not been looked at. */
  function EntryAt(p: Option<nat>, n: nat): (x: Entry)
    ensures |x.status| == n
  {
    match p
    case None => Entry(false, Fresh(n))
    case Some(k) => Entry(true, seq(n, j => if j < k then Done else if j == k then Running else NotDone))
  }

  /** An event without rules is in progress at number 0. */
  predicate InRange(p: Option<nat>, n: nat) {
    p.Some? ==> p.value < n || n == p.value == 0
  }

  /** The event is set. */
  function Begun(p: Option<nat>, acts: seq<Action>): Option<nat> {
    if p.Some? then p else if acts == [] then Some(0) else Found(First(acts, 0), |acts|)
  }

  /** The message has been handled. */
  function Advanced<M(==)>(p: Option<nat>, rules: seq<M>, message: M, acts: seq<Action>): Option<nat>
    requires |acts| == |rules|
  {
    if p.None? || p.value >= |rules| || rules[p.value] != message then p
    else Found(First(acts, p.value + 1), |rules|)
  }

  /** What a call makes of an event whose rules do not defer. */
  function Moved<E(==), M(==)>(p: Option<nat>, rules: seq<M>, acts: seq<Action>, call: Call<E, M>, e: E): Option<nat>
    requires |acts| == |rules|
  {
    match call
    case SetEvent(f) => if e == f then Begun(p, acts) else p
    case ResetEvent(f) => if e == f then None else p
    case ResetAll => None
    case Complete(m) => Advanced(p, rules, m, acts)
    case Look => p
  }

  predicate UpTo(status: seq<Status>, k: nat) {
    && k < |status| && (forall j :: 0 <= j < k ==> status[j] == Done)
    && (forall j :: k < j < |status| ==> status[j] == NotDone)
  }

  lemma UpToIs(x: Entry, k: nat)
    requires x.held && UpTo(x.status, k) && x.status[k] == Running
    ensures x == EntryAt(Some(k), |x.status|)
  {
  }

  /** From the first rule that is not done the scan finds the first one that runs; if there
      is none the event is cleared. */
  lemma {:induction false} ScanFinds(x: Entry, acts: seq<Action>, k: nat)
    requires x.held && UpTo(x.status, k) && x.status[k] == NotDone && |x.status| == |acts| && Prompt(acts)
    ensures Scan(x, acts, k) == EntryAt(Found(First(acts, k), |acts|), |acts|)
    decreases |acts| - k
  {
    if acts[k] == Ignore {
      var y := x.(status := x.status[k := Done]);
      if k + 1 == |acts| {
        assert Every(y.status, Done);
      } else {
        assert y.status[k + 1] == NotDone;
        ScanFinds(y, acts, k + 1);
      }
    } else {
      UpToIs(x.(status := x.status[k := Running]), k);
    }
  }

  lemma {:induction false} ScanPast(x: Entry, acts: seq<Action>, k: nat, m: nat)
    requires k <= m <= |x.status| == |acts| && forall j :: k <= j < m ==> x.status[j] == Done
    ensures Scan(x, acts, k) == Scan(x, acts, m)
    decreases m - k
  {
    if k < m { ScanPast(x, acts, k + 1, m); }
  }

  /** A rule in progress stays in progress, and keeps the rules behind it waiting. */
  lemma CheckedStays(p: Option<nat>, acts: seq<Action>)
    requires InRange(p, |acts|)
    ensures Checked(EntryAt(p, |acts|), acts) == EntryAt(p, |acts|)
  {
    if p.Some? && acts != [] { ScanPast(EntryAt(p, |acts|), acts, 0, p.value); }
  }

  lemma SetBegins(p: Option<nat>, acts: seq<Action>)
    requires InRange(p, |acts|) && Prompt(acts)
    ensures Checked(EntryAt(p, |acts|).(held := true), acts) == EntryAt(Begun(p, acts), |acts|)
    ensures InRange(Begun(p, acts), |acts|)
  {
    var x := EntryAt(p, |acts|).(held := true);
    if p.Some? {
      assert x == EntryAt(p, |acts|);
      CheckedStays(p, acts);
    } else if acts != [] {
      ScanFinds(x, acts, 0);
    }
  }

  lemma FinishedOne<M>(p: nat, rules: seq<M>, message: M)
    requires p < |rules| && rules[p] == message
    ensures Finished(EntryAt(Some(p), |rules|), rules, message) ==
      Settled(EntryAt(Some(p), |rules|).(status := EntryAt(Some(p), |rules|).status[p := Done]))
  {
    var x := EntryAt(Some(p), |rules|);
    assert Sends(x, rules, message, p);
    assert x.status[p := Done] == seq(|rules|, k requires 0 <= k < |rules| =>
      if Sends(x, rules, message, k) then Done else x.status[k]);
  }

  /** The rule in progress is done: the next one that runs follows, or the event is cleared. */
  lemma NextFollows(p: nat, acts: seq<Action>)
    requires p < |acts| && Prompt(acts)
    ensures var x := EntryAt(Some(p), |acts|);
      Checked(Settled(x.(status := x.status[p := Done])), acts) == EntryAt(Found(First(acts, p + 1), |acts|), |acts|)
  {
    var x := EntryAt(Some(p), |acts|);
    var y := x.(status := x.status[p := Done]);
    if p + 1 == |acts| {
      assert Every(y.status, Done);
    } else {
      assert y.status[p + 1] == NotDone;
      ScanPast(y, acts, 0, p + 1);
      ScanFinds(y, acts, p + 1);
    }
  }

  lemma CompleteAdvances<M>(p: Option<nat>, rules: seq<M>, message: M, acts: seq<Action>)
    requires InRange(p, |rules|) && |acts| == |rules| && Prompt(acts)
    ensures Checked(Finished(EntryAt(p, |rules|), rules, message), acts) ==
      EntryAt(Advanced(p, rules, message, acts), |rules|)
  {
    if p.Some? && p.value < |rules| && rules[p.value] == message {
      FinishedOne(p.value, rules, message);
      NextFollows(p.value, acts);
    } else {
      assert Finished(EntryAt(p, |rules|), rules, message) == EntryAt(p, |rules|);
      CheckedStays(p, acts);
    }
  }

  /** As long as no rule of the event defers, a call moves the position. */
  lemma HeedsMoves<E, M>(p: Option<nat>, rules: seq<M>, acts: seq<Action>, call: Call<E, M>, e: E)
    requires InRange(p, |rules|) && |acts| == |rules| && Prompt(acts)
    ensures Heeds(EntryAt(p, |rules|), rules, acts, call, e) == EntryAt(Moved(p, rules, acts, call, e), |rules|)
    ensures InRange(Moved(p, rules, acts, call, e), |rules|)
  {
    match call
    case SetEvent(f) => if e == f { SetBegins(p, acts); } else { CheckedStays(p, acts); }
    case ResetEvent(f) =>
    case ResetAll =>
    case Complete(m) => CompleteAdvances(p, rules, m, acts);
    case Look => CheckedStays(p, acts);
  }

  /** This rule keeps its event set when it is looked at: it is in progress, runs or is
      deferred. */
  predicate Keeps(x: Entry, acts: seq<Action>, k: nat)
    requires k < |x.status| == |acts|
  {
    x.status[k] == Running || (x.status[k] != Done && acts[k] != Ignore)
  }

  /** An event that is set now is set afterwards. */
  predicate Starts(x: Entry, acts: seq<Action>)
    requires |x.status| == |acts|
  {
    Every(x.status, Done) || exists k :: 0 <= k < |acts| && Keeps(x, acts, k)
  }

  /** An event that has been cleared stays so while the loop goes on. */
  lemma {:induction false} ClearedStays(x: Entry, acts: seq<Action>, k: nat)
    requires |acts| == |x.status| && !x.held
    ensures !Scan(x, acts, k).held
    decreases |acts| - k
  {
    if k < |acts| && x.status[k] != Running && (x.status[k] == Done || acts[k] != Start) {
      ClearedStays(if x.status[k] == Done then x
                   else if acts[k] == Ignore then Settled(x.(status := x.status[k := Done]))
                   else x.(status := x.status[k := Deferred]), acts, k + 1);
    }
  }

  /** One that has a deferred rule behind the loop is not cleared. */
  lemma {:induction false} DeferredHolds(x: Entry, acts: seq<Action>, k: nat, i: nat)
    requires |acts| == |x.status| && x.held && i < k <= |x.status| && x.status[i] != Done
    ensures Scan(x, acts, k).held
    decreases |x.status| - k
  {
    if k < |x.status| {
      if x.status[k] == Done {
        DeferredHolds(x, acts, k + 1, i);
      } else if x.status[k] != Running && acts[k] != Start {
        var y := x.(status := x.status[k := if acts[k] == Ignore then Done else Deferred]);
        assert y.status[i] != Done;
        DeferredHolds(y, acts, k + 1, i);
      }
    }
  }

  lemma {:induction false} HeldFrom(x: Entry, acts: seq<Action>, k: nat)
    requires |acts| == |x.status| && x.held && k < |x.status|
    requires !Every(x.status, Done) && forall j :: 0 <= j < k ==> x.status[j] == Done
    ensures Scan(x, acts, k).held <==> exists j :: k <= j < |acts| && Keeps(x, acts, j)
    decreases |acts| - k
  {
    if x.status[k] == Done {
      HeldFrom(x, acts, k + 1);
    } else if x.status[k] == Running || acts[k] == Start {
      assert Keeps(x, acts, k);
    } else if acts[k] == Defer {
      assert Keeps(x, acts, k);
      DeferredHolds(x.(status := x.status[k := Deferred]), acts, k + 1, k);
    } else {
      IgnoredHeld(x, acts, k);
    }
  }

  lemma {:induction false} IgnoredHeld(x: Entry, acts: seq<Action>, k: nat)
    requires |acts| == |x.status| && x.held && k < |x.status|
    requires forall j :: 0 <= j < k ==> x.status[j] == Done
    requires x.status[k] != Done && x.status[k] != Running && acts[k] == Ignore
    ensures Scan(x, acts, k).held <==> exists j :: k <= j < |acts| && Keeps(x, acts, j)
    decreases |acts| - k, 0
  {
    var y := x.(status := x.status[k := Done]);
    forall j | k < j < |acts| ensures Keeps(y, acts, j) <==> Keeps(x, acts, j) { }
    if Every(y.status, Done) {
      ClearedStays(Settled(y), acts, k + 1);
      forall j | k < j < |acts| ensures !Keeps(x, acts, j) { assert y.status[j] == Done; }
    } else {
      HeldFrom(y, acts, k + 1);
    }
  }

  /** Whatever the statuses: an event that is set now stays set exactly if one of its rules
      keeps it, or none is left to do. */
  lemma StartsExactly(x: Entry, acts: seq<Action>)
    requires |acts| == |x.status|
    ensures Checked(x.(held := true), acts).held <==> Starts(x, acts)
  {
    var y := x.(held := true);
    if Every(x.status, Done) {
      ScanPast(y, acts, 0, |acts|);
    } else {
      HeldFrom(y, acts, 0);
      forall j | 0 <= j < |acts| ensures Keeps(y, acts, j) <==> Keeps(x, acts, j) { }
    }
  }

  /** Looking at these rules again with the same answers changes nothing. */
  predicate Calm(status: seq<Status>, acts: seq<Action>, k: nat)
    requires |acts| == |status|
    decreases |status| - k
  {
    k >= |status| || status[k] == Running
    || ((status[k] == Done || (status[k] == Deferred && acts[k] == Defer)) && Calm(status, acts, k + 1))
  }

  lemma {:induction false} CalmStays(x: Entry, acts: seq<Action>, k: nat)
    requires |acts| == |x.status| && Calm(x.status, acts, k)
    ensures Scan(x, acts, k) == x
    decreases |acts| - k
  {
    if k < |acts| && x.status[k] != Running {
      assert x.status[k] == Deferred ==> x.status[k := Deferred] == x.status;
      CalmStays(x, acts, k + 1);
    }
  }

  lemma {:induction false} ScanCalms(x: Entry, acts: seq<Action>, k: nat)
    requires |acts| == |x.status| && Scan(x, acts, k).held
    ensures x.held && Calm(Scan(x, acts, k).status, acts, k)
    ensures forall j :: 0 <= j < k && j < |acts| ==> Scan(x, acts, k).status[j] == x.status[j]
    decreases |acts| - k
  {
    if k < |acts| && x.status[k] != Running && (x.status[k] == Done || acts[k] != Start) {
      ScanCalms(if x.status[k] == Done then x
                else if acts[k] == Ignore then Settled(x.(status := x.status[k := Done]))
                else x.(status := x.status[k := Deferred]), acts, k + 1);
    }
  }

  /** So an event that is set and has been looked at stays as it is. */
  lemma CheckedAgain(x: Entry, acts: seq<Action>)
    requires |acts| == |x.status| && Checked(x, acts).held
    ensures Checked(Checked(x, acts), acts) == Checked(x, acts)
    ensures Starts(Checked(x, acts), acts)
  {
    ScanCalms(x, acts, 0);
    CalmStays(Checked(x, acts), acts, 0);
    StartsExactly(Checked(x, acts), acts);
    assert Checked(x, acts).(held := true) == Checked(x, acts);
  }
}

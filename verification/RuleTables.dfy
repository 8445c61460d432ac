/** The tables of the connection rules as they are listed, with the rules of all events mixed,
    and what the engine makes of them. */
module RuleTables {
  import opened RulesEngine
  import opened EarbudSm
  import RulesOrder

  type TableRule = Rule<RuleEvent, RuleMessage>

  const CommonRules: seq<TableRule> := [Rule(OutEarEvent, LedEnable), Rule(InEarEvent, LedDisable)]

  const PrimaryFirst: seq<TableRule> := [
    Rule(RoleSwitch, HandsetPair), Rule(OutCaseEvent, AncTuningStop), Rule(InCaseEvent, AncTuningStart),
    Rule(OutCaseEvent, AdaptiveAncTuningStop), Rule(OutEarEvent, AncDisable), Rule(InEarEvent, AncEnable)]

  const PrimarySecond: seq<TableRule> := [
    Rule(OutCaseEvent, HandsetPair), Rule(InCaseEvent, EnterDfu), Rule(OutEarEvent, A2dpTimeout),
    Rule(InEarEvent, A2dpTimeoutCancel), Rule(InCaseEvent, A2dpTimeoutCancel), Rule(InEarEvent, MediaPlay)]

  const PrimaryThird: seq<TableRule> := [
    Rule(OutEarEvent, ScoTimeout), Rule(InEarEvent, AcceptIncomingCall), Rule(InEarEvent, ScoTransferToEarbud),
    Rule(RoleSwitch, PeerScoControl), Rule(OutEarEvent, SelectMic), Rule(InEarEvent, SelectMic)]

  const PrimaryFourth: seq<TableRule> := [
    Rule(OutEarEvent, SetRemoteAudioMix), Rule(InEarEvent, SetRemoteAudioMix), Rule(InCaseEvent, SetRemoteAudioMix),
    Rule(OutCaseEvent, SetRemoteAudioMix), Rule(InEarEvent, SetLocalAudioMix), Rule(OutCaseEvent, SetLocalAudioMix)]

  const PrimaryRules: seq<TableRule> := PrimaryFirst + PrimarySecond + PrimaryThird + PrimaryFourth

  const SecondaryRules: seq<TableRule> := [
    Rule(InCaseEvent, SecEnterDfu), Rule(OutCaseEvent, AncTuningStop), Rule(InCaseEvent, AncTuningStart),
    Rule(OutCaseEvent, AdaptiveAncTuningStop), Rule(OutEarEvent, AncDisable), Rule(InEarEvent, AncEnable)]

  function ListedRules(role: Role): seq<TableRule> {
    match role case NoRole => CommonRules case Primary => PrimaryRules case Secondary => SecondaryRules
  }

  /** The messages of the rules of one event. */
  function Messages<E(==), M>(table: seq<Rule<E, M>>, e: E): seq<M> {
    if table == [] then []
    else Messages(table[..|table| - 1], e) + One(table[|table| - 1], e)
  }

  function One<E(==), M>(rule: Rule<E, M>, e: E): seq<M> {
    if rule.event == e then [rule.message] else []
  }

  lemma {:induction false} PlacesBefore<E, M>(table: seq<Rule<E, M>>, e: E, n: nat, i: nat)
    requires i <= n <= |table|
    ensures RulesOrder.Places(table[..n], e, i) == RulesOrder.Places(table, e, i)
  {
    if i > 0 { PlacesBefore(table, e, n, i - 1); }
  }

  lemma {:induction false} RulesAreMessages<E, M>(table: seq<Rule<E, M>>, e: E)
    ensures RulesOrder.RulesOf(table, e) == Messages(table, e)
  {
    if table != [] {
      var n := |table| - 1;
      RulesAreMessages(table[..n], e);
      PlacesBefore(table, e, n, n);
      LastRule(table, e);
    }
  }

  /** The messages at these places of the table. */
  function MessagesAt<E, M>(table: seq<Rule<E, M>>, places: seq<nat>): (r: seq<M>)
    requires forall k :: 0 <= k < |places| ==> places[k] < |table|
    ensures |r| == |places|
  {
    seq(|places|, k requires 0 <= k < |places| => table[places[k]].message)
  }

  lemma MessagesAtMore<E, M>(table: seq<Rule<E, M>>, n: nat, places: seq<nat>)
    requires n < |table| && forall k :: 0 <= k < |places| ==> places[k] < n
    ensures MessagesAt(table, places) == MessagesAt(table[..n], places)
    ensures MessagesAt(table, places + [n]) == MessagesAt(table[..n], places) + [table[n].message]
  {
  }

  lemma RulesAt<E, M>(table: seq<Rule<E, M>>, e: E)
    ensures RulesOrder.RulesOf(table, e) == MessagesAt(table, RulesOrder.All(table, e))
  {
  }

  lemma LastRule<E, M>(table: seq<Rule<E, M>>, e: E)
    requires table != []
    requires RulesOrder.Places(table[..|table| - 1], e, |table| - 1) == RulesOrder.Places(table, e, |table| - 1)
    ensures RulesOrder.RulesOf(table, e) == RulesOrder.RulesOf(table[..|table| - 1], e) + One(table[|table| - 1], e)
  {
    var n := |table| - 1;
    RulesAt(table, e);
    RulesAt(table[..n], e);
    MessagesAtMore(table, n, RulesOrder.Places(table, e, n));
  }

  lemma {:induction false} MessagesAppend<E, M>(a: seq<Rule<E, M>>, b: seq<Rule<E, M>>, e: E)
    ensures Messages(a + b, e) == Messages(a, e) + Messages(b, e)
  {
    if b == [] {
      assert a + b == a;
    } else {
      assert (a + b)[..|a + b| - 1] == a + b[..|b| - 1];
      MessagesAppend(a, b[..|b| - 1], e);
    }
  }

  lemma MessagesOfOne<E, M>(r: Rule<E, M>, e: E)
    ensures Messages([r], e) == One(r, e)
  {
    assert [r][..0] == [];
  }

  lemma MessagesOfTwo<E, M>(r: Rule<E, M>, s: Rule<E, M>, e: E)
    ensures Messages([r, s], e) == One(r, e) + One(s, e)
  {
    MessagesOfOne(r, e);
    MessagesOfOne(s, e);
    MessagesAppend([r], [s], e);
    assert [r] + [s] == [r, s];
  }

  lemma MessagesOfThree<E, M>(r: Rule<E, M>, s: Rule<E, M>, t: Rule<E, M>, e: E)
    ensures Messages([r, s, t], e) == One(r, e) + One(s, e) + One(t, e)
  {
    MessagesOfOne(r, e);
    MessagesOfOne(s, e);
    MessagesOfOne(t, e);
    MessagesAppend([r], [s], e);
    MessagesAppend([r] + [s], [t], e);
    assert [r] + [s] + [t] == [r, s, t];
  }

  lemma SixIsTwice3<T>(six: seq<T>)
    requires |six| == 6
    ensures [six[0], six[1], six[2]] + [six[3], six[4], six[5]] == six
  {
  }

  lemma MessagesOfSix<E, M>(six: seq<Rule<E, M>>, e: E)
    requires |six| == 6
    ensures Messages(six, e) ==
      One(six[0], e) + One(six[1], e) + One(six[2], e) + (One(six[3], e) + One(six[4], e) + One(six[5], e))
  {
    MessagesOfThree(six[0], six[1], six[2], e);
    MessagesOfThree(six[3], six[4], six[5], e);
    MessagesAppend([six[0], six[1], six[2]], [six[3], six[4], six[5]], e);
    SixIsTwice3(six);
  }

  lemma CommonListed(e: RuleEvent)
    ensures Messages(CommonRules, e) == RulesFor(CommonTable, e)
  {
    MessagesOfTwo(Rule(OutEarEvent, LedEnable), Rule(InEarEvent, LedDisable), e);
  }

  lemma SecondaryListed(e: RuleEvent)
    ensures Messages(SecondaryRules, e) == RulesFor(SecondaryTable, e)
  {
    MessagesOfSix(SecondaryRules, e);
  }

  /** What each part of the primary table lists for an event. */
  function FirstOf(e: RuleEvent): seq<RuleMessage> {
    match e
    case RoleSwitch => [HandsetPair]
    case OutCaseEvent => [AncTuningStop, AdaptiveAncTuningStop]
    case InCaseEvent => [AncTuningStart]
    case OutEarEvent => [AncDisable]
    case InEarEvent => [AncEnable]
  }

  function SecondOf(e: RuleEvent): seq<RuleMessage> {
    match e
    case RoleSwitch => []
    case OutCaseEvent => [HandsetPair]
    case InCaseEvent => [EnterDfu, A2dpTimeoutCancel]
    case OutEarEvent => [A2dpTimeout]
    case InEarEvent => [A2dpTimeoutCancel, MediaPlay]
  }

  function ThirdOf(e: RuleEvent): seq<RuleMessage> {
    match e
    case RoleSwitch => [PeerScoControl]
    case OutCaseEvent => []
    case InCaseEvent => []
    case OutEarEvent => [ScoTimeout, SelectMic]
    case InEarEvent => [AcceptIncomingCall, ScoTransferToEarbud, SelectMic]
  }

  function FourthOf(e: RuleEvent): seq<RuleMessage> {
    match e
    case RoleSwitch => []
    case OutCaseEvent => [SetRemoteAudioMix, SetLocalAudioMix]
    case InCaseEvent => [SetRemoteAudioMix]
    case OutEarEvent => [SetRemoteAudioMix]
    case InEarEvent => [SetRemoteAudioMix, SetLocalAudioMix]
  }

  lemma FirstListed(e: RuleEvent)
    ensures Messages(PrimaryFirst, e) == FirstOf(e)
  {
    MessagesOfSix(PrimaryFirst, e);
  }

  lemma SecondListed(e: RuleEvent)
    ensures Messages(PrimarySecond, e) == SecondOf(e)
  {
    MessagesOfSix(PrimarySecond, e);
  }

  lemma ThirdListed(e: RuleEvent)
    ensures Messages(PrimaryThird, e) == ThirdOf(e)
  {
    MessagesOfSix(PrimaryThird, e);
  }

  lemma FourthListed(e: RuleEvent)
    ensures Messages(PrimaryFourth, e) == FourthOf(e)
  {
    MessagesOfSix(PrimaryFourth, e);
  }

  lemma PartsJoin(e: RuleEvent)
    ensures FirstOf(e) + SecondOf(e) + ThirdOf(e) + FourthOf(e) == RulesFor(PrimaryTable, e)
  {
  }

  lemma PartsListed(a: seq<TableRule>, b: seq<TableRule>, c: seq<TableRule>, d: seq<TableRule>, e: RuleEvent)
    requires Messages(a, e) == FirstOf(e) && Messages(b, e) == SecondOf(e)
    requires Messages(c, e) == ThirdOf(e) && Messages(d, e) == FourthOf(e)
    ensures Messages(a + b + c + d, e) == RulesFor(PrimaryTable, e)
  {
    FourParts(a, b, c, d, e);
    PartsJoin(e);
  }

  lemma PrimaryListed(e: RuleEvent)
    ensures Messages(PrimaryRules, e) == RulesFor(PrimaryTable, e)
  {
    FirstListed(e);
    SecondListed(e);
    ThirdListed(e);
    FourthListed(e);
    PartsListed(PrimaryFirst, PrimarySecond, PrimaryThird, PrimaryFourth, e);
  }

  lemma FourParts<E, M>(a: seq<Rule<E, M>>, b: seq<Rule<E, M>>, c: seq<Rule<E, M>>, d: seq<Rule<E, M>>, e: E)
    ensures Messages(a + b + c + d, e) == Messages(a, e) + Messages(b, e) + Messages(c, e) + Messages(d, e)
  {
    MessagesAppend(a, b, e);
    MessagesAppend(a + b, c, e);
    MessagesAppend(a + b + c, d, e);
  }

  lemma TablesListed(role: Role, e: RuleEvent)
    ensures RulesOrder.Lists(ListedRules(role), OwnTable(role), e)
  {
    RulesAreMessages(ListedRules(role), e);
    match role
    case NoRole => CommonListed(e);
    case Primary => PrimaryListed(e);
    case Secondary => SecondaryListed(e);
  }

  /** No message twice. */
  predicate Differ<M(==)>(s: seq<M>) {
    forall i, j :: 0 <= i < |s| && 0 <= j < |s| && i != j ==> s[i] != s[j]
  }

  /** A table in which no event lists a message twice has no rule twice. */
  lemma DifferDistinct<E, M>(table: seq<Rule<E, M>>)
    requires forall i :: 0 <= i < |table| ==> Differ(RulesOrder.RulesOf(table, table[i].event))
    ensures RulesOrder.Distinct(table)
  {
    forall i, j | 0 <= i < j < |table| ensures table[i] != table[j] {
      if table[i].event == table[j].event {
        var rules := RulesOrder.RulesOf(table, table[i].event);
        var a := RulesOrder.PlacesFind(table, table[i].event, |table|, i);
        var b := RulesOrder.PlacesFind(table, table[i].event, |table|, j);
        assert rules[a] == table[i].message && rules[b] == table[j].message;
      }
    }
  }

  lemma ListsDiffer(role: Role, e: RuleEvent)
    ensures Differ(RulesFor(OwnTable(role), e))
  {
  }

  lemma TablesDistinct(role: Role)
    ensures RulesOrder.Distinct(ListedRules(role))
  {
    var table := ListedRules(role);
    forall i | 0 <= i < |table| ensures Differ(RulesOrder.RulesOf(table, table[i].event)) {
      TablesListed(role, table[i].event);
      ListsDiffer(role, table[i].event);
    }
    DifferDistinct(table);
  }

  /** So over every sequence of calls the rule sets of the state machine, those of the common
      rules and of both roles, are what the engine makes of the listed tables: each event with
      the status of each of its rules. */
  lemma EngineHasRuleSets(role: Role, calls: seq<RulesOrder.Asked<RuleEvent, RuleMessage>>, e: RuleEvent)
    ensures RulesOrder.EntryOf(ListedRules(role), RulesOrder.EngineAfter(ListedRules(role), calls), e) ==
      EntryIn(RulesOrder.RulesAfter(OwnTable(role), calls), OwnTable(role), e)
  {
    TablesDistinct(role);
    TablesListed(role, e);
    RulesOrder.AlwaysAgrees(ListedRules(role), OwnTable(role), calls, e);
  }
}

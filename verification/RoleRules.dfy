/** The rule sets of the two roles over whole runs: exactly when one of them comes to hold
    an event together with its opposite. */
module RoleRules {
  import opened Options
  import opened RulesEngine
  import opened RulePositions
  import opened EarbudSm

  /** The rule set of one role in a machine. */
  function SetOf(m: Machine, own: Role): EventSet {
    Own(m.rules, own)
  }

  function EntryFor(s: EventSet, own: Role, e: RuleEvent): Entry {
    EntryIn(s, OwnTable(own), e)
  }

  function ActsFor(own: Role, e: RuleEvent, c: Config): seq<Action> {
    Acts(OwnTable(own), e, OwnAnswers(own, c))
  }

  function TellSet(s: EventSet, own: Role, call: Call<RuleEvent, RuleMessage>, c: Config): EventSet {
    Told(s, OwnTable(own), call, OwnAnswers(own, c))
  }

  predicate Held(s: EventSet, own: Role, e: RuleEvent) {
    EntryFor(s, own, e).held
  }

  predicate Both(s: EventSet, own: Role, x: RuleEvent, y: RuleEvent) {
    Held(s, own, x) && Held(s, own, y)
  }

  /** An event is set together with its opposite. */
  predicate Opposed(s: EventSet, own: Role) {
    Both(s, own, InCaseEvent, OutCaseEvent) || Both(s, own, InEarEvent, OutEarEvent)
  }

  /** An event that is set now stays set: one of its rules is in progress, runs or is
      deferred, or it has none to look at. */
  predicate StartsFor(s: EventSet, own: Role, e: RuleEvent, c: Config) {
    Starts(EntryFor(s, own, e), ActsFor(own, e, c))
  }

  /** When an event is set, the rules of all events that are set are looked at. */
  lemma SetHeld(s: EventSet, own: Role, f: RuleEvent, c: Config, e: RuleEvent)
    ensures Held(TellSet(s, own, SetEvent(f), c), own, e) <==>
      (e == f || Held(s, own, e)) && StartsFor(s, own, e, c)
  {
    var x := EntryFor(s, own, e);
    ToldEntry(s, OwnTable(own), SetEvent(f), OwnAnswers(own, c), e);
    StartsExactly(x, ActsFor(own, e, c));
    if x.held { assert x.(held := true) == x; }
  }

  /** No other call sets an event. */
  lemma OnlySetHolds(s: EventSet, own: Role, call: Call<RuleEvent, RuleMessage>, c: Config, e: RuleEvent)
    requires call != SetEvent(e)
    ensures Held(TellSet(s, own, call, c), own, e) ==> Held(s, own, e) && call != ResetEvent(e)
  {
    ToldEntry(s, OwnTable(own), call, OwnAnswers(own, c), e);
  }

  /** Looking at the rules of this event again changes nothing. */
  predicate Quiet(s: EventSet, own: Role, e: RuleEvent, c: Config) {
    var x, acts := EntryFor(s, own, e), ActsFor(own, e, c);
    x.held ==> Checked(x, acts) == x && Starts(x, acts)
  }

  lemma SetQuiets(s: EventSet, own: Role, f: RuleEvent, c: Config, e: RuleEvent)
    ensures Quiet(TellSet(s, own, SetEvent(f), c), own, e, c)
  {
    var x, acts := EntryFor(s, own, e), ActsFor(own, e, c);
    ToldEntry(s, OwnTable(own), SetEvent(f), OwnAnswers(own, c), e);
    var y := if e == f then x.(held := true) else x;
    if Checked(y, acts).held { CheckedAgain(y, acts); }
  }

  lemma QuietStays(s: EventSet, own: Role, f: RuleEvent, c: Config, e: RuleEvent)
    requires Quiet(s, own, e, c) && (e != f || Held(s, own, e))
    ensures EntryFor(TellSet(s, own, SetEvent(f), c), own, e) == EntryFor(s, own, e)
  {
    var x := EntryFor(s, own, e);
    ToldEntry(s, OwnTable(own), SetEvent(f), OwnAnswers(own, c), e);
    if x.held { assert x.(held := true) == x; }
  }

  lemma ResetEntry(s: EventSet, own: Role, f: RuleEvent, c: Config, e: RuleEvent)
    ensures e != f ==> EntryFor(TellSet(s, own, ResetEvent(f), c), own, e) == EntryFor(s, own, e)
    ensures e == f ==> !Held(TellSet(s, own, ResetEvent(f), c), own, e)
  {
    ToldEntry(s, OwnTable(own), ResetEvent(f), OwnAnswers(own, c), e);
  }

  function ExchangedFor(s: EventSet, own: Role, go: bool, off: RuleEvent, on: RuleEvent, c: Config): EventSet {
    Exchanged(s, OwnTable(own), OwnAnswers(own, c), go, off, on)
  }

  lemma ExchangedKeeps(s: EventSet, own: Role, go: bool, off: RuleEvent, on: RuleEvent, c: Config, e: RuleEvent)
    requires go ==> Quiet(s, own, e, c) && e != off && e != on
    ensures EntryFor(ExchangedFor(s, own, go, off, on, c), own, e) == EntryFor(s, own, e)
  {
    if go {
      ResetEntry(s, own, off, c, e);
      QuietStays(TellSet(s, own, ResetEvent(off), c), own, on, c, e);
    }
  }

  /** An exchange sets nothing but the one event, and clears the other. */
  lemma ExchangedHeld(s: EventSet, own: Role, go: bool, off: RuleEvent, on: RuleEvent, c: Config, e: RuleEvent)
    requires off != on
    ensures Held(ExchangedFor(s, own, go, off, on, c), own, e) ==> Held(s, own, e) || (go && e == on)
    ensures go ==> !Held(ExchangedFor(s, own, go, off, on, c), own, off)
  {
    if go {
      var t := TellSet(s, own, ResetEvent(off), c);
      ResetEntry(s, own, off, c, e);
      ResetEntry(s, own, off, c, off);
      SetHeld(t, own, on, c, e);
      SetHeld(t, own, on, c, off);
    }
  }

  predicate CaseEvent(e: RuleEvent) {
    e == InCaseEvent || e == OutCaseEvent
  }

  predicate EarEvent(e: RuleEvent) {
    e == InEarEvent || e == OutEarEvent
  }

  /** Two events that exclude each other. */
  predicate Pair(x: RuleEvent, y: RuleEvent) {
    x != y && ((CaseEvent(x) && CaseEvent(y)) || (EarEvent(x) && EarEvent(y)))
  }

  /** So it never brings opposites together, and parts those that it exchanges. */
  lemma ExchangedFree(s: EventSet, own: Role, go: bool, off: RuleEvent, on: RuleEvent, c: Config,
                      x: RuleEvent, y: RuleEvent)
    requires Pair(off, on) && Pair(x, y)
    ensures Both(ExchangedFor(s, own, go, off, on, c), own, x, y) ==>
      Both(s, own, x, y) && !(go && CaseEvent(off) == CaseEvent(x))
  {
    ExchangedHeld(s, own, go, off, on, c, x);
    ExchangedHeld(s, own, go, off, on, c, y);
  }

  /** The events of the case are exchanged, and then those of the ear: on the way out these
      events are cleared, on the way in their opposites. */
  function Twice(s: EventSet, own: Role, goCase: bool, goEar: bool, out: bool, c: Config): EventSet {
    if out
    then ExchangedFor(ExchangedFor(s, own, goCase, InCaseEvent, OutCaseEvent, c),
                      own, goEar, InEarEvent, OutEarEvent, c)
    else ExchangedFor(ExchangedFor(s, own, goCase, OutCaseEvent, InCaseEvent, c),
                      own, goEar, OutEarEvent, InEarEvent, c)
  }

  lemma TwiceFree(s: EventSet, own: Role, goCase: bool, goEar: bool, out: bool, c: Config, x: RuleEvent, y: RuleEvent)
    requires Pair(x, y)
    ensures Both(Twice(s, own, goCase, goEar, out, c), own, x, y) ==>
      Both(s, own, x, y) && !(if CaseEvent(x) then goCase else goEar)
  {
    var off, on := if out then InCaseEvent else OutCaseEvent, if out then OutCaseEvent else InCaseEvent;
    var off1, on1 := if out then InEarEvent else OutEarEvent, if out then OutEarEvent else InEarEvent;
    ExchangedFree(s, own, goCase, off, on, c, x, y);
    ExchangedFree(ExchangedFor(s, own, goCase, off, on, c), own, goEar, off1, on1, c, x, y);
  }

  lemma TwiceKeeps(s: EventSet, own: Role, goCase: bool, goEar: bool, out: bool, c: Config, e: RuleEvent)
    requires Quiet(s, own, e, c) && (CaseEvent(e) || EarEvent(e)) && !(if CaseEvent(e) then goCase else goEar)
    ensures EntryFor(Twice(s, own, goCase, goEar, out, c), own, e) == EntryFor(s, own, e)
  {
    var off, on := if out then InCaseEvent else OutCaseEvent, if out then OutCaseEvent else InCaseEvent;
    var off1, on1 := if out then InEarEvent else OutEarEvent, if out then OutEarEvent else InEarEvent;
    ExchangedKeeps(s, own, goCase, off, on, c, e);
    ExchangedKeeps(ExchangedFor(s, own, goCase, off, on, c), own, goEar, off1, on1, c, e);
  }

  function UnpairedFor(s: EventSet, own: Role, from: State, c: Config): EventSet {
    Unpaired(s, OwnTable(own), OwnAnswers(own, c), from)
  }

  function AfterFor(s: EventSet, own: Role, from: State, to: State, c: Config): EventSet {
    SetAfter(s, OwnTable(own), OwnAnswers(own, c), from, to)
  }

  lemma AfterIs(s: EventSet, own: Role, from: State, to: State, c: Config)
    ensures AfterFor(s, own, from, to, c) ==
      Twice(Twice(UnpairedFor(s, own, from, c), own, InCase(from) && !InCase(to), InEar(from) && !InEar(to), true, c),
            own, !InCase(from) && InCase(to), !InEar(from) && InEar(to), false, c)
  {
  }

  /** The earbud comes to or leaves the place that this event or its opposite tells of. */
  predicate Crosses(e: RuleEvent, from: State, to: State) {
    if CaseEvent(e) then InCase(from) != InCase(to) else InEar(from) != InEar(to)
  }

  lemma FourFree(s: EventSet, own: Role, case0: bool, case1: bool, ear0: bool, ear1: bool, c: Config,
                 x: RuleEvent, y: RuleEvent)
    requires Pair(x, y)
    ensures Both(Twice(Twice(s, own, case0 && !case1, ear0 && !ear1, true, c),
                       own, !case0 && case1, !ear0 && ear1, false, c),
                 own, x, y) ==>
      Both(s, own, x, y) && !(if CaseEvent(x) then case0 != case1 else ear0 != ear1)
  {
    TwiceFree(s, own, case0 && !case1, ear0 && !ear1, true, c, x, y);
    TwiceFree(Twice(s, own, case0 && !case1, ear0 && !ear1, true, c),
              own, !case0 && case1, !ear0 && ear1, false, c, x, y);
  }

  lemma UnpairedFree(s: EventSet, own: Role, from: State, c: Config, x: RuleEvent, y: RuleEvent)
    ensures Both(UnpairedFor(s, own, from, c), own, x, y) ==> Both(s, own, x, y)
  {
    OnlySetHolds(s, own, Complete(HandsetPair), c, x);
    OnlySetHolds(s, own, Complete(HandsetPair), c, y);
  }

  /** A change of state never brings opposites together, and parts them where it crosses
      their boundary. */
  lemma AfterFree(s: EventSet, own: Role, from: State, to: State, c: Config, x: RuleEvent, y: RuleEvent)
    requires Pair(x, y)
    ensures Both(AfterFor(s, own, from, to, c), own, x, y) ==> Both(s, own, x, y) && !Crosses(x, from, to)
  {
    AfterIs(s, own, from, to, c);
    FourFree(UnpairedFor(s, own, from, c), own, InCase(from), InCase(to), InEar(from), InEar(to), c, x, y);
    UnpairedFree(s, own, from, c, x, y);
  }

  lemma UnpairedKeeps(s: EventSet, own: Role, from: State, c: Config, e: RuleEvent)
    requires Quiet(s, own, e, c) && (from != HandsetPairing || HandsetPair !in RulesFor(OwnTable(own), e))
    ensures EntryFor(UnpairedFor(s, own, from, c), own, e) == EntryFor(s, own, e)
  {
    if from == HandsetPairing { ToldEntry(s, OwnTable(own), Complete(HandsetPair), OwnAnswers(own, c), e); }
  }

  /** Where it does not cross their boundary it leaves them as they are. */
  lemma AfterKeeps(s: EventSet, own: Role, from: State, to: State, c: Config, e: RuleEvent)
    requires Quiet(s, own, e, c) && (CaseEvent(e) || EarEvent(e)) && !Crosses(e, from, to)
    requires from != HandsetPairing || HandsetPair !in RulesFor(OwnTable(own), e)
    ensures EntryFor(AfterFor(s, own, from, to, c), own, e) == EntryFor(s, own, e)
  {
    var u := UnpairedFor(s, own, from, c);
    AfterIs(s, own, from, to, c);
    UnpairedKeeps(s, own, from, c, e);
    TwiceKeeps(u, own, InCase(from) && !InCase(to), InEar(from) && !InEar(to), true, c, e);
    TwiceKeeps(Twice(u, own, InCase(from) && !InCase(to), InEar(from) && !InEar(to), true, c),
               own, !InCase(from) && InCase(to), !InEar(from) && InEar(to), false, c, e);
  }

  lemma AfterUnopposed(s: EventSet, own: Role, from: State, to: State, c: Config)
    ensures Opposed(AfterFor(s, own, from, to, c), own) ==> Opposed(s, own)
  {
    AfterFree(s, own, from, to, c, InCaseEvent, OutCaseEvent);
    AfterFree(s, own, from, to, c, InEarEvent, OutEarEvent);
  }

  /** The rules of these events never defer. */
  predicate Plain(own: Role, e: RuleEvent) {
    own == Secondary || (own == Primary && e != RoleSwitch && e != OutCaseEvent)
  }

  function ListFor(own: Role, e: RuleEvent): seq<RuleMessage> {
    RulesFor(OwnTable(own), e)
  }

  /** The number of rules that are done before the first that is not. */
  function Lead(status: seq<Status>): (k: nat)
    ensures k <= |status| && forall j :: 0 <= j < k ==> status[j] == Done
    ensures k < |status| ==> status[k] != Done
  {
    if status == [] || status[0] != Done then 0 else 1 + Lead(status[1..])
  }

  /** The rule in progress of an event that is set. */
  function At(s: EventSet, own: Role, e: RuleEvent): Option<nat> {
    var x := EntryFor(s, own, e);
    if x.held then Some(Lead(x.status)) else None
  }

  /** One number says how the event stands. */
  predicate OrderedAt(s: EventSet, own: Role, e: RuleEvent) {
    var n := |ListFor(own, e)|;
    InRange(At(s, own, e), n) && EntryFor(s, own, e) == EntryAt(At(s, own, e), n)
  }

  ghost predicate Ordered(s: EventSet, own: Role) {
    forall e: RuleEvent {:trigger OrderedAt(s, own, e)} :: Plain(own, e) ==> OrderedAt(s, own, e)
  }

  lemma PlainPrompt(own: Role, e: RuleEvent, c: Config)
    requires Plain(own, e)
    ensures Prompt(ActsFor(own, e, c))
  {
  }

  lemma AtIs(s: EventSet, own: Role, e: RuleEvent, p: Option<nat>)
    requires InRange(p, |ListFor(own, e)|) && EntryFor(s, own, e) == EntryAt(p, |ListFor(own, e)|)
    ensures At(s, own, e) == p && OrderedAt(s, own, e)
  {
    var x := EntryFor(s, own, e);
    if p.Some? && x.status != [] { assert x.status[p.value] == Running; }
  }

  /** What a call makes of the position of an event. */
  function MovedFor(p: Option<nat>, own: Role, call: Call<RuleEvent, RuleMessage>, c: Config, e: RuleEvent)
    : Option<nat>
  {
    Moved(p, ListFor(own, e), ActsFor(own, e, c), call, e)
  }

  lemma ToldAt(s: EventSet, own: Role, call: Call<RuleEvent, RuleMessage>, c: Config, e: RuleEvent)
    requires Plain(own, e) && OrderedAt(s, own, e)
    ensures var t := TellSet(s, own, call, c);
      OrderedAt(t, own, e) && At(t, own, e) == MovedFor(At(s, own, e), own, call, c, e)
  {
    PlainPrompt(own, e, c);
    ToldEntry(s, OwnTable(own), call, OwnAnswers(own, c), e);
    HeedsMoves(At(s, own, e), ListFor(own, e), ActsFor(own, e, c), call, e);
    AtIs(TellSet(s, own, call, c), own, e, MovedFor(At(s, own, e), own, call, c, e));
  }

  lemma ToldOrdered(s: EventSet, own: Role, call: Call<RuleEvent, RuleMessage>, c: Config)
    requires Ordered(s, own)
    ensures Ordered(TellSet(s, own, call, c), own)
  {
    forall e: RuleEvent | Plain(own, e) ensures OrderedAt(TellSet(s, own, call, c), own, e) {
      assert OrderedAt(s, own, e);
      ToldAt(s, own, call, c, e);
    }
  }

  lemma OrderedQuiet(s: EventSet, own: Role, e: RuleEvent, c: Config)
    requires OrderedAt(s, own, e)
    ensures Quiet(s, own, e, c)
  {
    var p, acts := At(s, own, e), ActsFor(own, e, c);
    CheckedStays(p, acts);
    if p.Some? && acts != [] { assert Keeps(EntryFor(s, own, e), acts, p.value); }
  }

  lemma AfterOrdered(s: EventSet, own: Role, from: State, to: State, c: Config)
    requires Ordered(s, own)
    ensures Ordered(AfterFor(s, own, from, to, c), own)
  {
    var u := UnpairedFor(s, own, from, c);
    ToldOrdered(s, own, Complete(HandsetPair), c);
    AfterIs(s, own, from, to, c);
    TwiceOrdered(u, own, InCase(from) && !InCase(to), InEar(from) && !InEar(to), true, c);
    TwiceOrdered(Twice(u, own, InCase(from) && !InCase(to), InEar(from) && !InEar(to), true, c),
                 own, !InCase(from) && InCase(to), !InEar(from) && InEar(to), false, c);
  }

  lemma ExchangedOrdered(s: EventSet, own: Role, go: bool, off: RuleEvent, on: RuleEvent, c: Config)
    requires Ordered(s, own)
    ensures Ordered(ExchangedFor(s, own, go, off, on, c), own)
  {
    ToldOrdered(s, own, ResetEvent(off), c);
    ToldOrdered(TellSet(s, own, ResetEvent(off), c), own, SetEvent(on), c);
  }

  lemma TwiceOrdered(s: EventSet, own: Role, goCase: bool, goEar: bool, out: bool, c: Config)
    requires Ordered(s, own)
    ensures Ordered(Twice(s, own, goCase, goEar, out, c), own)
  {
    var off, on := if out then InCaseEvent else OutCaseEvent, if out then OutCaseEvent else InCaseEvent;
    var off1, on1 := if out then InEarEvent else OutEarEvent, if out then OutEarEvent else InEarEvent;
    ExchangedOrdered(s, own, goCase, off, on, c);
    ExchangedOrdered(ExchangedFor(s, own, goCase, off, on, c), own, goEar, off1, on1, c);
  }

  lemma MoveSet(m: Machine, t: State, c: Config, own: Role)
    requires own != NoRole
    ensures SetOf(Move(m, t, c), own) ==
      if m.role == own then AfterFor(SetOf(m, own), own, m.state, t, c) else SetOf(m, own)
  {
    OwnRulesHear(m.rules, m.role, m.state, t, c, own);
  }

  /** What most messages keep of the rule set of a role: its order, and that it is free of
      opposites. */
  ghost predicate Kept(m: Machine, n: Machine, own: Role) {
    && (Ordered(SetOf(m, own), own) ==> Ordered(SetOf(n, own), own))
    && (Opposed(SetOf(n, own), own) ==> Opposed(SetOf(m, own), own))
  }

  lemma MoveKept(m: Machine, t: State, c: Config, own: Role)
    requires own != NoRole
    ensures Kept(m, Move(m, t, c), own)
  {
    MoveSet(m, t, c, own);
    AfterUnopposed(SetOf(m, own), own, m.state, t, c);
    if Ordered(SetOf(m, own), own) { AfterOrdered(SetOf(m, own), own, m.state, t, c); }
  }

  lemma SetStateKept(m: Machine, t: State, c: Config, own: Role)
    requires own != NoRole
    ensures Kept(m, SetState(m, t, c), own)
    decreases if t == DfuCheck then 1 else 0
  {
    if m.state != FactoryReset {
      MoveKept(m, t, c, own);
      if t == DfuCheck && c.reason != NoDfuReset { SetStateKept(Move(m, t, c), Startup, c, own); }
    }
  }

  lemma SetCoreKept(m: Machine, busy: bool, c: Config, own: Role)
    requires own != NoRole
    ensures Kept(m, SetCore(m, busy, c), own)
  {
    SetStateKept(m, CoreFor(m.phy, busy), c, own);
  }

  lemma TellOwnSet(r: Rules, role: Role, call: Call<RuleEvent, RuleMessage>, c: Config, own: Role)
    requires own != NoRole
    ensures Own(TellOwn(r, role, call, c), own) ==
      if own == role then TellSet(Own(r, own), own, call, c) else Own(r, own)
  {
  }

  /** A rule set after the events of its new role. */
  function RoleSet(s: EventSet, own: Role, phy: PhyState, c: Config): EventSet {
    var t := TellSet(s, own, SetEvent(RoleSwitch), c);
    if phy != PlacedInCase then TellSet(t, own, SetEvent(OutCaseEvent), c) else t
  }

  lemma RoleEventsSet(r: Rules, role: Role, phy: PhyState, c: Config, own: Role)
    requires own != NoRole
    ensures Own(RoleEvents(r, role, phy, c), own) ==
      if own == role then RoleSet(Own(r, own), own, phy, c) else Own(r, own)
  {
    TellOwnSet(r, role, SetEvent(RoleSwitch), c, own);
    TellOwnSet(TellOwn(r, role, SetEvent(RoleSwitch), c), role, SetEvent(OutCaseEvent), c, own);
  }

  lemma RoleSetOrdered(s: EventSet, own: Role, phy: PhyState, c: Config)
    requires Ordered(s, own)
    ensures Ordered(RoleSet(s, own, phy, c), own)
  {
    ToldOrdered(s, own, SetEvent(RoleSwitch), c);
    ToldOrdered(TellSet(s, own, SetEvent(RoleSwitch), c), own, SetEvent(OutCaseEvent), c);
  }

  lemma RoleSetQuiets(s: EventSet, own: Role, phy: PhyState, c: Config, e: RuleEvent)
    ensures Quiet(RoleSet(s, own, phy, c), own, e, c)
  {
    SetQuiets(s, own, RoleSwitch, c, e);
    SetQuiets(TellSet(s, own, SetEvent(RoleSwitch), c), own, OutCaseEvent, c, e);
  }

  /** An event that is quiet and that a new role does not set. */
  lemma RoleSetKeeps(s: EventSet, own: Role, phy: PhyState, c: Config, e: RuleEvent)
    requires Quiet(s, own, e, c) && e != RoleSwitch && (e == OutCaseEvent ==> phy == PlacedInCase || Held(s, own, e))
    ensures EntryFor(RoleSet(s, own, phy, c), own, e) == EntryFor(s, own, e)
  {
    QuietStays(s, own, RoleSwitch, c, e);
    var t := TellSet(s, own, SetEvent(RoleSwitch), c);
    if phy != PlacedInCase { QuietStays(t, own, OutCaseEvent, c, e); }
  }

  lemma RoleSetStarts(s: EventSet, own: Role, phy: PhyState, c: Config)
    requires Quiet(s, own, OutCaseEvent, c) && phy != PlacedInCase
    ensures Held(RoleSet(s, own, phy, c), own, OutCaseEvent) <==> StartsFor(s, own, OutCaseEvent, c)
  {
    QuietStays(s, own, RoleSwitch, c, OutCaseEvent);
    SetHeld(TellSet(s, own, SetEvent(RoleSwitch), c), own, OutCaseEvent, c, OutCaseEvent);
  }

  /** The place events are quiet, and so is the out-of-case event when it could meet one. */
  predicate Settles(s: EventSet, own: Role, c: Config) {
    && Quiet(s, own, InCaseEvent, c) && Quiet(s, own, InEarEvent, c) && Quiet(s, own, OutEarEvent, c)
    && (Held(s, own, InCaseEvent) ==> Quiet(s, own, OutCaseEvent, c))
  }

  /** The new role finds the in-case event still set in its rules, out of the case. */
  predicate Meets(s: EventSet, own: Role, phy: PhyState, c: Config) {
    phy != PlacedInCase && Held(s, own, InCaseEvent) && StartsFor(s, own, OutCaseEvent, c)
  }

  lemma RoleSetEars(s: EventSet, own: Role, phy: PhyState, c: Config)
    requires Quiet(s, own, InEarEvent, c) && Quiet(s, own, OutEarEvent, c)
    ensures Both(RoleSet(s, own, phy, c), own, InEarEvent, OutEarEvent) <==> Both(s, own, InEarEvent, OutEarEvent)
  {
    RoleSetKeeps(s, own, phy, c, InEarEvent);
    RoleSetKeeps(s, own, phy, c, OutEarEvent);
  }

  lemma RoleSetOut(s: EventSet, own: Role, phy: PhyState, c: Config)
    requires Quiet(s, own, OutCaseEvent, c)
    ensures Held(RoleSet(s, own, phy, c), own, OutCaseEvent) <==>
      Held(s, own, OutCaseEvent) || (phy != PlacedInCase && StartsFor(s, own, OutCaseEvent, c))
  {
    if phy != PlacedInCase { RoleSetStarts(s, own, phy, c); } else { RoleSetKeeps(s, own, phy, c, OutCaseEvent); }
  }

  lemma RoleSetCases(s: EventSet, own: Role, phy: PhyState, c: Config)
    requires Quiet(s, own, InCaseEvent, c) && (Held(s, own, InCaseEvent) ==> Quiet(s, own, OutCaseEvent, c))
    ensures Both(RoleSet(s, own, phy, c), own, InCaseEvent, OutCaseEvent) <==>
      Both(s, own, InCaseEvent, OutCaseEvent) || Meets(s, own, phy, c)
  {
    RoleSetKeeps(s, own, phy, c, InCaseEvent);
    if Held(s, own, InCaseEvent) { RoleSetOut(s, own, phy, c); }
  }

  lemma RoleSetPairs(s: EventSet, own: Role, phy: PhyState, c: Config)
    requires Settles(s, own, c)
    ensures Opposed(RoleSet(s, own, phy, c), own) <==> Opposed(s, own) || Meets(s, own, phy, c)
  {
    RoleSetEars(s, own, phy, c);
    RoleSetCases(s, own, phy, c);
  }

  lemma OrderedSettles(s: EventSet, own: Role, c: Config)
    requires own != NoRole && Ordered(s, own)
    ensures Quiet(s, own, InCaseEvent, c) && Quiet(s, own, InEarEvent, c) && Quiet(s, own, OutEarEvent, c)
  {
    assert OrderedAt(s, own, InCaseEvent) && OrderedAt(s, own, InEarEvent) && OrderedAt(s, own, OutEarEvent);
    OrderedQuiet(s, own, InCaseEvent, c);
    OrderedQuiet(s, own, InEarEvent, c);
    OrderedQuiet(s, own, OutEarEvent, c);
  }

  lemma FreeSettles(s: EventSet, own: Role, c: Config)
    requires own != NoRole && Ordered(s, own) && !Opposed(s, own)
    ensures Settles(s, own, c)
  {
    OrderedSettles(s, own, c);
  }

  /** A former primary earbud that becomes secondary in a state that is not a core one goes
      to the core state of its place; crossing the boundary of the case parts the events. */
  predicate Parts(m: Machine, role: Role, busy: bool) {
    && role == Secondary && m.role == Primary && !Core(m.state) && m.state != FactoryReset
    && InCase(m.state) != InCase(CoreFor(m.phy, busy))
  }

  predicate RoleClash(m: Machine, role: Role, phy: PhyState, busy: bool, c: Config, own: Role) {
    role == own && c.reason != DfuReset && Meets(SetOf(m, own), own, phy, c) && !Parts(m, role, busy)
  }

  /** No rule of these events waits for handset pairing. */
  lemma NoPairing(own: Role, e: RuleEvent)
    requires Plain(own, e)
    ensures HandsetPair !in RulesFor(OwnTable(own), e)
  {
  }

  lemma PlainStays(s: EventSet, own: Role, from: State, to: State, c: Config, e: RuleEvent)
    requires Plain(own, e) && CaseEvent(e) && Quiet(s, own, e, c) && InCase(from) == InCase(to)
    requires Held(s, own, e)
    ensures Held(AfterFor(s, own, from, to, c), own, e)
  {
    NoPairing(own, e);
    AfterKeeps(s, own, from, to, c, e);
  }

  /** Quiet opposites stay, if the boundary of the case is not crossed. */
  lemma SecondaryStay(t: EventSet, own: Role, from: State, to: State, c: Config)
    requires Plain(own, OutCaseEvent) && Plain(own, InCaseEvent)
    requires Quiet(t, own, InCaseEvent, c) && Quiet(t, own, OutCaseEvent, c)
    requires Both(t, own, InCaseEvent, OutCaseEvent) && InCase(from) == InCase(to)
    ensures Both(AfterFor(t, own, from, to, c), own, InCaseEvent, OutCaseEvent)
  {
    PlainStays(t, own, from, to, c, InCaseEvent);
    PlainStays(t, own, from, to, c, OutCaseEvent);
  }

  /** The secondary rules after the events of a new role and a change of state. */
  lemma SecondaryAfter(s: EventSet, own: Role, phy: PhyState, from: State, to: State, c: Config)
    requires Plain(own, OutCaseEvent)
    requires Settles(s, own, c) && !Opposed(s, own)
    ensures Opposed(AfterFor(RoleSet(s, own, phy, c), own, from, to, c), own) <==>
      Meets(s, own, phy, c) && InCase(from) == InCase(to)
  {
    var t := RoleSet(s, own, phy, c);
    RoleSetCases(s, own, phy, c);
    RoleSetEars(s, own, phy, c);
    AfterFree(t, own, from, to, c, InCaseEvent, OutCaseEvent);
    AfterFree(t, own, from, to, c, InEarEvent, OutEarEvent);
    if Meets(s, own, phy, c) && InCase(from) == InCase(to) {
      RoleSetQuiets(s, own, phy, c, InCaseEvent);
      RoleSetQuiets(s, own, phy, c, OutCaseEvent);
      SecondaryStay(t, own, from, to, c);
    }
  }

  /** The rule set of a role after that role has been taken. */
  lemma RoleChangeSet(m: Machine, role: Role, phy: PhyState, busy: bool, c: Config, own: Role)
    requires own != NoRole && role != NoRole && c.reason != DfuReset
    ensures var t := if own == role then RoleSet(SetOf(m, own), own, phy, c) else SetOf(m, own);
      SetOf(RoleChange(m, role, phy, busy, c), own) ==
        if role == own == Secondary && m.role == Primary && !Core(m.state) && m.state != FactoryReset
        then AfterFor(t, own, m.state, CoreFor(m.phy, busy), c) else t
  {
    RoleEventsSet(m.rules, role, phy, c, own);
    if role == Secondary && m.role == Primary && !Core(m.state) && m.state != FactoryReset {
      var n := m.(role := role, rules := RoleEvents(m.rules, role, phy, c));
      CorePlaces(m.phy, busy);
      assert SetCore(n, busy, c) == Move(n, CoreFor(m.phy, busy), c);
      MoveSet(n, CoreFor(m.phy, busy), c, own);
    }
  }

  /** Without a role all events are cleared. */
  lemma NoRoleClears(m: Machine, phy: PhyState, busy: bool, c: Config, own: Role, e: RuleEvent)
    requires own != NoRole && m.state != InCaseDfu
    ensures EntryFor(SetOf(RoleChange(m, NoRole, phy, busy, c), own), own, e) == EntryAt(None, |ListFor(own, e)|)
  {
    ToldEntry(SetOf(m, own), OwnTable(own), ResetAll, OwnAnswers(own, c), e);
    TellOwnSet(m.rules, Secondary, ResetAll, c, own);
    TellOwnSet(TellOwn(m.rules, Secondary, ResetAll, c), Primary, ResetAll, c, own);
  }

  lemma NoRoleKept(m: Machine, phy: PhyState, busy: bool, c: Config, own: Role)
    requires own != NoRole
    ensures Kept(m, RoleChange(m, NoRole, phy, busy, c), own)
    ensures m.state != InCaseDfu ==> !Opposed(SetOf(RoleChange(m, NoRole, phy, busy, c), own), own)
  {
    if m.state != InCaseDfu {
      var t := SetOf(RoleChange(m, NoRole, phy, busy, c), own);
      forall e: RuleEvent ensures OrderedAt(t, own, e) && !Held(t, own, e) {
        NoRoleClears(m, phy, busy, c, own, e);
        AtIs(t, own, e, None);
      }
      assert !Held(t, own, InCaseEvent) && !Held(t, own, InEarEvent);
    }
  }

  lemma RoleChangeOrdered(m: Machine, role: Role, phy: PhyState, busy: bool, c: Config, own: Role)
    requires own != NoRole && Ordered(SetOf(m, own), own)
    ensures Ordered(SetOf(RoleChange(m, role, phy, busy, c), own), own)
  {
    if role == NoRole {
      NoRoleKept(m, phy, busy, c, own);
    } else if c.reason != DfuReset {
      RoleChangeSet(m, role, phy, busy, c, own);
      RoleSetOrdered(SetOf(m, own), own, phy, c);
      AfterOrdered(RoleSet(SetOf(m, own), own, phy, c), own, m.state, CoreFor(m.phy, busy), c);
    }
  }

  lemma RoleChangeClash(m: Machine, role: Role, phy: PhyState, busy: bool, c: Config, own: Role)
    requires own != NoRole && Ordered(SetOf(m, own), own) && !Opposed(SetOf(m, own), own)
    ensures Opposed(SetOf(RoleChange(m, role, phy, busy, c), own), own) <==> RoleClash(m, role, phy, busy, c, own)
  {
    if role == NoRole {
      NoRoleKept(m, phy, busy, c, own);
    } else if c.reason != DfuReset {
      RoleChangeSet(m, role, phy, busy, c, own);
      FreeSettles(SetOf(m, own), own, c);
      RoleSetPairs(SetOf(m, own), own, phy, c);
      if own == Secondary { SecondaryAfter(SetOf(m, own), own, phy, m.state, CoreFor(m.phy, busy), c); }
    }
  }

  /** A rule set after the events of the first place. */
  function InitialSet(s: EventSet, own: Role, phy: PhyState, c: Config): EventSet {
    if phy == PlacedInCase then TellSet(s, own, SetEvent(InCaseEvent), c)
    else if phy == UnknownPlace then s
    else TellSet(TellSet(s, own, SetEvent(OutCaseEvent), c), own, SetEvent(EarSet(phy)), c)
  }

  function EarSet(phy: PhyState): RuleEvent {
    if phy == PlacedInEar then InEarEvent else OutEarEvent
  }

  lemma InitialHeard(r: Rules, role: Role, phy: PhyState, c: Config, own: Role)
    requires own != NoRole
    ensures Own(InitialEvents(r, role, phy, c), own) ==
      if own == role then InitialSet(Own(r, own), own, phy, c) else Own(r, own)
  {
    if phy == PlacedInCase {
      TellHeard(r, role, SetEvent(InCaseEvent), c, own);
    } else if phy != UnknownPlace {
      TellHeard(r, role, SetEvent(OutCaseEvent), c, own);
      TellHeard(Tell(r, role, SetEvent(OutCaseEvent), c), role, SetEvent(EarSet(phy)), c, own);
    }
  }

  lemma InitialOrdered(s: EventSet, own: Role, phy: PhyState, c: Config)
    requires Ordered(s, own)
    ensures Ordered(InitialSet(s, own, phy, c), own)
  {
    ToldOrdered(s, own, SetEvent(InCaseEvent), c);
    ToldOrdered(s, own, SetEvent(OutCaseEvent), c);
    ToldOrdered(TellSet(s, own, SetEvent(OutCaseEvent), c), own, SetEvent(EarSet(phy)), c);
  }

  lemma InitialQuiets(s: EventSet, own: Role, phy: PhyState, c: Config, e: RuleEvent)
    requires phy != UnknownPlace
    ensures Quiet(InitialSet(s, own, phy, c), own, e, c)
  {
    if phy == PlacedInCase {
      SetQuiets(s, own, InCaseEvent, c, e);
    } else {
      SetQuiets(TellSet(s, own, SetEvent(OutCaseEvent), c), own, EarSet(phy), c, e);
    }
  }

  /** The machine after its first core state. */
  lemma InitialMoves(m: Machine, phy: PhyState, busy: bool, c: Config, own: Role)
    requires own != NoRole && m.state == Startup && phy != UnknownPlace
    ensures var n := SetInitialCore(m, phy, busy, c);
      && n.state == CoreFor(phy, busy) && n.role == m.role && n.phy == phy && n.panicked == m.panicked
      && SetOf(n, own) == if m.role == own
         then AfterFor(InitialSet(SetOf(m, own), own, phy, c), own, Startup, CoreFor(phy, busy), c)
         else SetOf(m, own)
  {
    CorePlaces(phy, busy);
    InitialHeard(m.rules, m.role, phy, c, own);
    var a := m.(phy := phy, rules := InitialEvents(m.rules, m.role, phy, c));
    assert SetCore(a, busy, c) == Move(a, CoreFor(phy, busy), c);
    MoveSet(a, CoreFor(phy, busy), c, own);
  }

  /** The entry of an event after it has been set. */
  function SetEntry(s: EventSet, own: Role, e: RuleEvent, c: Config): Entry {
    Checked(EntryFor(s, own, e).(held := true), ActsFor(own, e, c))
  }

  lemma SetEntryIs(s: EventSet, own: Role, e: RuleEvent, c: Config)
    ensures EntryFor(TellSet(s, own, SetEvent(e), c), own, e) == SetEntry(s, own, e, c)
    ensures SetEntry(s, own, e, c).held <==> StartsFor(s, own, e, c)
  {
    ToldEntry(s, OwnTable(own), SetEvent(e), OwnAnswers(own, c), e);
    StartsExactly(EntryFor(s, own, e), ActsFor(own, e, c));
  }

  /** Out of the case: the in-case event is as before, the out-of-case event has been set. */
  lemma InitialOut(s: EventSet, own: Role, phy: PhyState, c: Config)
    requires Settles(s, own, c) && phy != PlacedInCase && phy != UnknownPlace
    ensures var t := InitialSet(s, own, phy, c);
      && EntryFor(t, own, InCaseEvent) == EntryFor(s, own, InCaseEvent)
      && EntryFor(t, own, OutCaseEvent) == SetEntry(s, own, OutCaseEvent, c)
  {
    var a := TellSet(s, own, SetEvent(OutCaseEvent), c);
    BothStay(s, own, OutCaseEvent, EarSet(phy), c, InCaseEvent);
    SetEntryIs(s, own, OutCaseEvent, c);
    SetQuiets(s, own, OutCaseEvent, c, OutCaseEvent);
    QuietStays(a, own, EarSet(phy), c, OutCaseEvent);
  }

  lemma InitialEar(s: EventSet, own: Role, phy: PhyState, c: Config)
    requires Settles(s, own, c) && (phy == OutOfEar || phy == OutOfEarAtRest)
    ensures var t := InitialSet(s, own, phy, c);
      && EntryFor(t, own, InEarEvent) == EntryFor(s, own, InEarEvent)
      && (Held(t, own, OutEarEvent) <==> StartsFor(s, own, OutEarEvent, c))
  {
    EarSetIs(s, own, phy, c, OutCaseEvent, OutEarEvent);
    BothStay(s, own, OutCaseEvent, OutEarEvent, c, InEarEvent);
    ThenStarts(s, own, OutCaseEvent, OutEarEvent, c);
  }

  lemma EarSetIs(s: EventSet, own: Role, phy: PhyState, c: Config, f: RuleEvent, g: RuleEvent)
    requires phy == OutOfEar || phy == OutOfEarAtRest
    requires f == OutCaseEvent && g == OutEarEvent
    ensures InitialSet(s, own, phy, c) == TellSet(TellSet(s, own, SetEvent(f), c), own, SetEvent(g), c)
  {
  }

  lemma BothStay(s: EventSet, own: Role, f: RuleEvent, g: RuleEvent, c: Config, e: RuleEvent)
    requires Quiet(s, own, e, c) && e != f && e != g
    ensures EntryFor(TellSet(TellSet(s, own, SetEvent(f), c), own, SetEvent(g), c), own, e) == EntryFor(s, own, e)
  {
    QuietStays(s, own, f, c, e);
    QuietStays(TellSet(s, own, SetEvent(f), c), own, g, c, e);
  }

  lemma ThenStarts(s: EventSet, own: Role, f: RuleEvent, g: RuleEvent, c: Config)
    requires Quiet(s, own, g, c) && f != g
    ensures Held(TellSet(TellSet(s, own, SetEvent(f), c), own, SetEvent(g), c), own, g) <==> StartsFor(s, own, g, c)
  {
    QuietStays(s, own, f, c, g);
    SetHeld(TellSet(s, own, SetEvent(f), c), own, g, c, g);
  }

  /** Out of the case the events that were left over meet their opposites. */
  predicate InitialClash(s: EventSet, own: Role, phy: PhyState, c: Config) {
    && phy != PlacedInCase
    && ((Held(s, own, InCaseEvent) && StartsFor(s, own, OutCaseEvent, c))
        || (phy != PlacedInEar && Held(s, own, InEarEvent) && StartsFor(s, own, OutEarEvent, c)))
  }

  lemma StartupKeeps(t: EventSet, own: Role, from: State, to: State, c: Config, e: RuleEvent)
    requires from != HandsetPairing && Quiet(t, own, e, c) && (CaseEvent(e) || EarEvent(e)) && !Crosses(e, from, to)
    ensures EntryFor(AfterFor(t, own, from, to, c), own, e) == EntryFor(t, own, e)
  {
    AfterKeeps(t, own, from, to, c, e);
  }

  /** Out of the case the in-case event is as before after the first core state. */
  lemma InCaseEntry(s: EventSet, own: Role, phy: PhyState, from: State, to: State, c: Config)
    requires Settles(s, own, c) && phy != PlacedInCase && phy != UnknownPlace
    requires from != HandsetPairing && InCase(from) == InCase(to)
    ensures EntryFor(AfterFor(InitialSet(s, own, phy, c), own, from, to, c), own, InCaseEvent) ==
      EntryFor(s, own, InCaseEvent)
  {
    InitialOut(s, own, phy, c);
    InitialQuiets(s, own, phy, c, InCaseEvent);
    StartupKeeps(InitialSet(s, own, phy, c), own, from, to, c, InCaseEvent);
  }

  /** And the out-of-case event has been set. */
  lemma OutEntry(s: EventSet, own: Role, phy: PhyState, from: State, to: State, c: Config)
    requires Settles(s, own, c) && phy != PlacedInCase && phy != UnknownPlace
    requires from != HandsetPairing && InCase(from) == InCase(to)
    ensures EntryFor(AfterFor(InitialSet(s, own, phy, c), own, from, to, c), own, OutCaseEvent) ==
      SetEntry(s, own, OutCaseEvent, c)
  {
    InitialOut(s, own, phy, c);
    InitialQuiets(s, own, phy, c, OutCaseEvent);
    StartupKeeps(InitialSet(s, own, phy, c), own, from, to, c, OutCaseEvent);
  }

  lemma CasesMeet(s: EventSet, own: Role, phy: PhyState, from: State, to: State, c: Config)
    requires Settles(s, own, c) && phy != UnknownPlace
    requires from != HandsetPairing && !InCase(from) && (InCase(to) <==> phy == PlacedInCase)
    ensures Both(AfterFor(InitialSet(s, own, phy, c), own, from, to, c), own, InCaseEvent, OutCaseEvent) <==>
      phy != PlacedInCase && Held(s, own, InCaseEvent) && StartsFor(s, own, OutCaseEvent, c)
  {
    if phy == PlacedInCase {
      AfterFree(InitialSet(s, own, phy, c), own, from, to, c, InCaseEvent, OutCaseEvent);
    } else {
      InCaseEntry(s, own, phy, from, to, c);
      OutEntry(s, own, phy, from, to, c);
      SetEntryIs(s, own, OutCaseEvent, c);
    }
  }

  lemma EarsStay(s: EventSet, own: Role, from: State, to: State, c: Config)
    requires !Both(s, own, InEarEvent, OutEarEvent)
    ensures !Both(AfterFor(TellSet(s, own, SetEvent(InCaseEvent), c), own, from, to, c), own, InEarEvent, OutEarEvent)
  {
    SetHeld(s, own, InCaseEvent, c, InEarEvent);
    SetHeld(s, own, InCaseEvent, c, OutEarEvent);
    AfterFree(TellSet(s, own, SetEvent(InCaseEvent), c), own, from, to, c, InEarEvent, OutEarEvent);
  }

  lemma InEarStays(s: EventSet, own: Role, phy: PhyState, from: State, to: State, c: Config)
    requires Settles(s, own, c) && (phy == OutOfEar || phy == OutOfEarAtRest)
    requires from != HandsetPairing && InEar(from) == InEar(to)
    ensures Held(AfterFor(InitialSet(s, own, phy, c), own, from, to, c), own, InEarEvent) <==> Held(s, own, InEarEvent)
  {
    InitialEar(s, own, phy, c);
    InitialQuiets(s, own, phy, c, InEarEvent);
    StartupKeeps(InitialSet(s, own, phy, c), own, from, to, c, InEarEvent);
  }

  lemma OutEarStarts(s: EventSet, own: Role, phy: PhyState, from: State, to: State, c: Config)
    requires Settles(s, own, c) && (phy == OutOfEar || phy == OutOfEarAtRest)
    requires from != HandsetPairing && InEar(from) == InEar(to)
    ensures Held(AfterFor(InitialSet(s, own, phy, c), own, from, to, c), own, OutEarEvent) <==>
      StartsFor(s, own, OutEarEvent, c)
  {
    InitialEar(s, own, phy, c);
    InitialQuiets(s, own, phy, c, OutEarEvent);
    StartupKeeps(InitialSet(s, own, phy, c), own, from, to, c, OutEarEvent);
  }

  lemma EarsMeet(s: EventSet, own: Role, phy: PhyState, from: State, to: State, c: Config)
    requires Settles(s, own, c) && phy != UnknownPlace && !Both(s, own, InEarEvent, OutEarEvent)
    requires from != HandsetPairing && !InEar(from) && (InEar(to) <==> phy == PlacedInEar)
    ensures Both(AfterFor(InitialSet(s, own, phy, c), own, from, to, c), own, InEarEvent, OutEarEvent) <==>
      phy != PlacedInCase && phy != PlacedInEar && Held(s, own, InEarEvent) && StartsFor(s, own, OutEarEvent, c)
  {
    if phy == PlacedInCase {
      EarsStay(s, own, from, to, c);
    } else if phy == PlacedInEar {
      AfterFree(InitialSet(s, own, phy, c), own, from, to, c, InEarEvent, OutEarEvent);
    } else {
      InEarStays(s, own, phy, from, to, c);
      OutEarStarts(s, own, phy, from, to, c);
    }
  }

  /** The rules of a role after its first core state are settled. */
  lemma InitialSettles(s: EventSet, own: Role, phy: PhyState, from: State, to: State, c: Config)
    requires own != NoRole && Ordered(s, own) && !Opposed(s, own) && phy != UnknownPlace
    requires from != HandsetPairing && !InCase(from) && (InCase(to) <==> phy == PlacedInCase)
    ensures Settles(AfterFor(InitialSet(s, own, phy, c), own, from, to, c), own, c)
  {
    var t := InitialSet(s, own, phy, c);
    InitialOrdered(s, own, phy, c);
    AfterOrdered(t, own, from, to, c);
    OrderedSettles(AfterFor(t, own, from, to, c), own, c);
    OutCaseQuiet(s, own, phy, from, to, c);
  }

  lemma InCaseParts(t: EventSet, own: Role, from: State, to: State, c: Config)
    requires InCase(from) != InCase(to)
    ensures var u := AfterFor(t, own, from, to, c);
      Held(u, own, InCaseEvent) ==> Quiet(u, own, OutCaseEvent, c)
  {
    AfterFree(t, own, from, to, c, InCaseEvent, OutCaseEvent);
  }

  lemma OutCaseQuiet(s: EventSet, own: Role, phy: PhyState, from: State, to: State, c: Config)
    requires phy != UnknownPlace && from != HandsetPairing && !InCase(from) && (InCase(to) <==> phy == PlacedInCase)
    ensures var u := AfterFor(InitialSet(s, own, phy, c), own, from, to, c);
      Held(u, own, InCaseEvent) ==> Quiet(u, own, OutCaseEvent, c)
  {
    if phy == PlacedInCase {
      InCaseParts(InitialSet(s, own, phy, c), own, from, to, c);
    } else {
      InitialQuiets(s, own, phy, c, OutCaseEvent);
      OutQuietStays(InitialSet(s, own, phy, c), own, from, to, c);
    }
  }

  lemma OutQuietStays(t: EventSet, own: Role, from: State, to: State, c: Config)
    requires from != HandsetPairing && InCase(from) == InCase(to) && Quiet(t, own, OutCaseEvent, c)
    ensures Quiet(AfterFor(t, own, from, to, c), own, OutCaseEvent, c)
  {
    StartupKeeps(t, own, from, to, c, OutCaseEvent);
  }

  /** When the role is taken the out-of-case event may have been set in these rules a moment
      before, under the role that the earbud still had. */
  function OutCaseEntry(m: Machine, c: Config, own: Role): Entry {
    if m.role == own then SetEntry(SetOf(m, own), own, OutCaseEvent, c) else EntryFor(SetOf(m, own), own, OutCaseEvent)
  }

  predicate MeetsAgain(m: Machine, phy: PhyState, c: Config, own: Role) {
    && phy != PlacedInCase && Held(SetOf(m, own), own, InCaseEvent)
    && Starts(OutCaseEntry(m, c, own), ActsFor(own, OutCaseEvent, c))
  }

  /** When the topology starts: the first events of the place reach the rules of the role
      that the earbud still has, and then those of its new role. */
  predicate TopologyClash(m: Machine, success: bool, role: Role, phy: PhyState, c: Config, own: Role) {
    && m.state == Startup && phy != UnknownPlace && !(success && role == NoRole)
    && ((m.role == own && InitialClash(SetOf(m, own), own, phy, c))
        || (success && role == own && c.reason != DfuReset && MeetsAgain(m, phy, c, own)))
  }

  /** The rules of one role after the first core state. */
  lemma InitialSetOf(s: EventSet, own: Role, phy: PhyState, from: State, to: State, c: Config)
    requires own != NoRole && Ordered(s, own) && !Opposed(s, own) && phy != UnknownPlace
    requires from != HandsetPairing && !InCase(from) && !InEar(from)
    requires (InCase(to) <==> phy == PlacedInCase) && (InEar(to) <==> phy == PlacedInEar)
    ensures var u := AfterFor(InitialSet(s, own, phy, c), own, from, to, c);
      && Settles(u, own, c) && Ordered(u, own)
      && (Opposed(u, own) <==> InitialClash(s, own, phy, c))
  {
    FreeSettles(s, own, c);
    CasesMeet(s, own, phy, from, to, c);
    EarsMeet(s, own, phy, from, to, c);
    InitialSettles(s, own, phy, from, to, c);
    InitialOrdered(s, own, phy, c);
    AfterOrdered(InitialSet(s, own, phy, c), own, from, to, c);
  }

  lemma InitialMeets(s: EventSet, own: Role, phy: PhyState, from: State, to: State, c: Config)
    requires Settles(s, own, c) && phy != UnknownPlace
    requires from != HandsetPairing && !InCase(from) && (InCase(to) <==> phy == PlacedInCase)
    ensures Meets(AfterFor(InitialSet(s, own, phy, c), own, from, to, c), own, phy, c) <==>
      && phy != PlacedInCase && Held(s, own, InCaseEvent)
      && Starts(SetEntry(s, own, OutCaseEvent, c), ActsFor(own, OutCaseEvent, c))
  {
    if phy != PlacedInCase {
      InCaseEntry(s, own, phy, from, to, c);
      OutEntry(s, own, phy, from, to, c);
    }
  }

  /** What the first core state makes of the rules of one role. */
  predicate InitialLeaves(m: Machine, u: EventSet, phy: PhyState, c: Config, own: Role) {
    && Settles(u, own, c)
    && (Meets(u, own, phy, c) <==> MeetsAgain(m, phy, c, own))
    && (Opposed(u, own) <==> m.role == own && InitialClash(SetOf(m, own), own, phy, c))
  }

  lemma InitialOwn(m: Machine, phy: PhyState, from: State, to: State, c: Config, own: Role)
    requires own == m.role != NoRole && Ordered(SetOf(m, own), own) && !Opposed(SetOf(m, own), own)
    requires from != HandsetPairing && !InCase(from) && !InEar(from) && phy != UnknownPlace
    requires (InCase(to) <==> phy == PlacedInCase) && (InEar(to) <==> phy == PlacedInEar)
    ensures var u := AfterFor(InitialSet(SetOf(m, own), own, phy, c), own, from, to, c);
      InitialLeaves(m, u, phy, c, own) && Ordered(u, own)
  {
    FreeSettles(SetOf(m, own), own, c);
    InitialSetOf(SetOf(m, own), own, phy, from, to, c);
    InitialMeets(SetOf(m, own), own, phy, from, to, c);
  }

  lemma InitialCoreClash(m: Machine, phy: PhyState, busy: bool, c: Config, own: Role)
    requires own != NoRole && Ordered(SetOf(m, own), own) && !Opposed(SetOf(m, own), own)
    requires m.state == Startup && phy != UnknownPlace
    ensures var n := SetInitialCore(m, phy, busy, c);
      && Core(n.state) && n.panicked == m.panicked
      && InitialLeaves(m, SetOf(n, own), phy, c, own) && Ordered(SetOf(n, own), own)
  {
    CorePlaces(phy, busy);
    InitialMoves(m, phy, busy, c, own);
    if m.role == own {
      InitialOwn(m, phy, m.state, CoreFor(phy, busy), c, own);
    } else {
      FreeSettles(SetOf(m, own), own, c);
    }
  }

  lemma CoreRoleClash(n: Machine, role: Role, phy: PhyState, busy: bool, c: Config, own: Role)
    requires own != NoRole && Core(n.state) && Settles(SetOf(n, own), own, c)
    ensures Opposed(SetOf(RoleChange(n, role, phy, busy, c), own), own) <==>
      role != NoRole
      && (Opposed(SetOf(n, own), own) || (role == own && c.reason != DfuReset && Meets(SetOf(n, own), own, phy, c)))
  {
    if role == NoRole {
      NoRoleKept(n, phy, busy, c, own);
    } else if c.reason != DfuReset {
      RoleChangeSet(n, role, phy, busy, c, own);
      RoleSetPairs(SetOf(n, own), own, phy, c);
    }
  }

  lemma TopologyStartedClash(m: Machine, success: bool, role: Role, phy: PhyState, busy: bool, c: Config, own: Role)
    requires own != NoRole && Ordered(SetOf(m, own), own) && !Opposed(SetOf(m, own), own) && !m.panicked
    ensures Opposed(SetOf(OnTopologyStarted(m, success, role, phy, busy, c), own), own) <==>
      TopologyClash(m, success, role, phy, c, own)
    ensures Ordered(SetOf(OnTopologyStarted(m, success, role, phy, busy, c), own), own)
  {
    if m.state == Startup && phy != UnknownPlace {
      var n := SetInitialCore(m, phy, busy, c);
      InitialCoreClash(m, phy, busy, c, own);
      CoreRoleClash(n, role, phy, busy, c, own);
      RoleChangeOrdered(n, role, phy, busy, c, own);
    }
  }

  /** Whether the rules of a role hear that the message of a rule has been handled. */
  predicate HearsRule(m: Machine, message: RuleMessage, own: Role) {
    message != HandsetPair && own == (if message == A2dpTimeoutCancel then Primary else m.role)
  }

  /** What a handled message of a rule makes of the rule set of one role. */
  lemma OnRuleSet(m: Machine, message: RuleMessage, c: Config, own: Role)
    requires own != NoRole && message != HandsetPair
    ensures OnRule(m, message, c).state == m.state && OnRule(m, message, c).role == m.role
    ensures SetOf(OnRule(m, message, c), own) ==
      if HearsRule(m, message, own) then TellSet(SetOf(m, own), own, Complete(Reported(message)), c) else SetOf(m, own)
  {
    TellOwnSet(m.rules, Primary, Complete(message), c, own);
    TellHeard(m.rules, m.role, Complete(Reported(message)), c, own);
  }

  lemma CompleteKept(s: EventSet, own: Role, message: RuleMessage, c: Config)
    ensures Ordered(s, own) ==> Ordered(TellSet(s, own, Complete(message), c), own)
    ensures Opposed(TellSet(s, own, Complete(message), c), own) ==> Opposed(s, own)
  {
    if Ordered(s, own) { ToldOrdered(s, own, Complete(message), c); }
    OnlySetHolds(s, own, Complete(message), c, InCaseEvent);
    OnlySetHolds(s, own, Complete(message), c, OutCaseEvent);
    OnlySetHolds(s, own, Complete(message), c, InEarEvent);
    OnlySetHolds(s, own, Complete(message), c, OutEarEvent);
  }

  lemma RuleKept(m: Machine, message: RuleMessage, c: Config, own: Role)
    requires own != NoRole
    ensures Kept(m, OnRule(m, message, c), own)
  {
    if message == HandsetPair {
      SetStateKept(m, HandsetPairing, c, own);
    } else {
      OnRuleSet(m, message, c, own);
      CompleteKept(SetOf(m, own), own, Reported(message), c);
    }
  }

  lemma LookSet(m: Machine, c: Config, own: Role)
    requires own != NoRole
    ensures Own(Tell(m.rules, m.role, Look, c), own) ==
      if own == m.role then TellSet(SetOf(m, own), own, Look, c) else SetOf(m, own)
  {
    TellHeard(m.rules, m.role, Look, c, own);
  }

  lemma LookFree(s: EventSet, own: Role, c: Config)
    ensures Opposed(TellSet(s, own, Look, c), own) ==> Opposed(s, own)
  {
    OnlySetHolds(s, own, Look, c, InCaseEvent);
    OnlySetHolds(s, own, Look, c, OutCaseEvent);
    OnlySetHolds(s, own, Look, c, InEarEvent);
    OnlySetHolds(s, own, Look, c, OutEarEvent);
  }

  lemma LookKept(m: Machine, c: Config, own: Role)
    requires own != NoRole
    ensures Kept(m, m.(rules := Tell(m.rules, m.role, Look, c)), own)
  {
    LookSet(m, c, own);
    LookFree(SetOf(m, own), own, c);
    if Ordered(SetOf(m, own), own) { ToldOrdered(SetOf(m, own), own, Look, c); }
  }

  predicate UserMessage(msg: Message) {
    || msg.PairHandset? || msg.RequestFactoryReset? || msg.EnterDutMode? || msg.TestServiceEnded?
    || msg.IdleTimeout?
  }

  lemma PowerKept(m: Machine, msg: Message, c: Config, own: Role)
    requires own != NoRole && CanArrive(m, msg) && PowerMessage(msg)
    ensures Kept(m, Handled(m, msg, c), own)
  {
    if msg.SleepPrepare? {
      SetStateKept(m, OutOfCaseSoporificTerminating, c, own);
    } else if msg.ShutdownPrepare? {
      SetStateKept(m, TerminatingFor(m.state), c, own);
    } else {
      SetStateKept(m, Startup, c, own);
    }
  }

  lemma NoDfuKept(m: Machine, testMode: bool, c: Config, own: Role)
    requires own != NoRole && !m.panicked
    ensures Kept(m, Handled(m, NoDfu(testMode), c), own)
  {
    if m.state != InCaseDfu { SetStateKept(m, if testMode then DeviceTestMode else Startup, c, own); }
  }

  lemma EnterDfuKept(m: Machine, dynamicRole: bool, c: Config, own: Role)
    requires own != NoRole && !m.panicked
    ensures Kept(m, Handled(m, EnterDfuMode(dynamicRole), c), own)
  {
    if !dynamicRole && m.state != InCaseDfu { SetStateKept(m, InCaseDfu, c, own); }
  }

  lemma DfuEndedKept(m: Machine, msg: Message, c: Config, own: Role)
    requires own != NoRole && CanArrive(m, msg) && msg.DfuEnded?
    ensures Kept(m, Handled(m, msg, c), own)
  {
    if m.state == InCaseDfu { SetStateKept(m, Startup, c, own); }
  }

  lemma DfuKept(m: Machine, msg: Message, c: Config, own: Role)
    requires own != NoRole && CanArrive(m, msg) && DfuMessage(msg)
    ensures Kept(m, Handled(m, msg, c), own)
  {
    if msg.NoDfu? {
      NoDfuKept(m, msg.testMode, c, own);
    } else if msg.EnterDfuMode? {
      EnterDfuKept(m, msg.dynamicRole, c, own);
    } else {
      DfuEndedKept(m, msg, c, own);
    }
  }

  lemma UserKept(m: Machine, msg: Message, c: Config, own: Role)
    requires own != NoRole && CanArrive(m, msg)
    requires UserMessage(msg)
    ensures Kept(m, Handled(m, msg, c), own)
  {
    if msg.IdleTimeout? {
      IdleKept(m, msg, c, own);
    } else if msg.PairHandset? {
      SetStateKept(m, HandsetPairing, c, own);
    } else if msg.RequestFactoryReset? {
      SetStateKept(m, FactoryReset, c, own);
    } else {
      SetStateKept(m, if msg.EnterDutMode? then OutOfCaseIdle else Startup, c, own);
    }
  }

  lemma IdleKept(m: Machine, msg: Message, c: Config, own: Role)
    requires own != NoRole && CanArrive(m, msg) && msg.IdleTimeout?
    ensures Kept(m, Handled(m, msg, c), own)
  {
    SetStateKept(m.(idleTimeouts := m.idleTimeouts - 1), OutOfCaseSoporific, c, own);
  }

  lemma PlaceKept(m: Machine, msg: Message, c: Config, own: Role)
    requires own != NoRole && CanArrive(m, msg)
    requires msg.PhyChanged? || msg.StateProxyEvent? || msg.AudioChanged? || msg.PairingConfirmed?
    ensures Kept(m, Handled(m, msg, c), own)
  {
    if msg.PhyChanged? {
      PhyKept(m, msg.phy, msg.busy, c, own);
    } else if !msg.StateProxyEvent? {
      SetCoreKept(m, msg.busy, c, own);
    }
  }

  lemma PhyKept(m: Machine, phy: PhyState, busy: bool, c: Config, own: Role)
    requires own != NoRole
    ensures Kept(m, OnPhyChanged(m, phy, busy, c), own)
  {
    SetCoreKept(m.(phy := phy), busy, c, own);
  }

  lemma SystemKept(m: Machine, c: Config, own: Role)
    requires own != NoRole
    ensures Kept(m, OnSystemActive(m, c), own)
  {
    if m.state == Initialising {
      SetStateKept(m, DfuCheck, c, own);
    } else {
      assert OnSystemActive(m, c).rules == m.rules;
    }
  }

  lemma OtherKept(m: Machine, msg: Message, c: Config, own: Role)
    requires own != NoRole && CanArrive(m, msg) && !msg.RoleChanged? && !msg.TopologyStarted?
    ensures Kept(m, Handled(m, msg, c), own)
  {
    if msg.RuleRuns? {
      RuleKept(m, msg.message, c, own);
    } else if msg.OtherEvent? {
      LookKept(m, c, own);
    } else if msg.SystemActive? {
      SystemKept(m, c, own);
    } else if PowerMessage(msg) {
      PowerKept(m, msg, c, own);
    } else if DfuMessage(msg) {
      DfuKept(m, msg, c, own);
    } else if msg.PhyChanged? || msg.StateProxyEvent? || msg.AudioChanged? || msg.PairingConfirmed? {
      PlaceKept(m, msg, c, own);
    } else {
      UserKept(m, msg, c, own);
    }
  }

  /** Exactly the messages that bring opposites together. All of it can be told before the
      message is handled: the role, the place, the event that is still set in the rules of
      that role, and whether a rule of its opposite is in progress, runs or is deferred. */
  predicate Clash(m: Machine, msg: Message, c: Config, own: Role) {
    match msg
    case RoleChanged(role, phy, busy) => RoleClash(m, role, phy, busy, c, own)
    case TopologyStarted(success, role, phy, _) => TopologyClash(m, success, role, phy, c, own)
    case _ => false
  }

  lemma ClashExactly(m: Machine, msg: Message, c: Config, own: Role)
    requires own != NoRole && CanArrive(m, msg) && Ordered(SetOf(m, own), own) && !Opposed(SetOf(m, own), own)
    ensures Opposed(SetOf(Handled(m, msg, c), own), own) <==> Clash(m, msg, c, own)
  {
    if msg.TopologyStarted? {
      TopologyStartedClash(m, msg.success, msg.role, msg.phy, msg.busy, c, own);
    } else if msg.RoleChanged? {
      RoleChangeClash(m, msg.role, msg.phy, msg.busy, c, own);
    } else {
      OtherKept(m, msg, c, own);
    }
  }

  /** No event has been set together with its opposite, all along a run. */
  ghost predicate AlwaysFree(phy: PhyState, ins: seq<Input>, product: Product, own: Role) {
    && !Opposed(SetOf(Run(phy, ins, product), own), own)
    && (ins == [] || AlwaysFree(phy, ins[..|ins| - 1], product, own))
  }

  ghost predicate NeverClashes(phy: PhyState, ins: seq<Input>, product: Product, own: Role) {
    ins == [] ||
    (var m, i := Run(phy, ins[..|ins| - 1], product), ins[|ins| - 1];
     && !(CanArrive(m, i.msg) && Clash(m, i.msg, i.With(product), own))
     && NeverClashes(phy, ins[..|ins| - 1], product, own))
  }

  lemma FreeNow(phy: PhyState, ins: seq<Input>, product: Product, own: Role)
    ensures AlwaysFree(phy, ins, product, own) ==> !Opposed(SetOf(Run(phy, ins, product), own), own)
  {
  }

  lemma NothingSet(own: Role)
    ensures Ordered(map[], own) && !Opposed(map[], own)
  {
    forall e: RuleEvent ensures OrderedAt(map[], own, e) && !Held(map[], own, e) { AtIs(map[], own, e, None); }
    assert !Held(map[], own, InCaseEvent) && !Held(map[], own, InEarEvent);
  }

  lemma InitialisedKept(phy: PhyState, product: Product, own: Role)
    requires own != NoRole
    ensures Ordered(SetOf(Run(phy, [], product), own), own) && !Opposed(SetOf(Run(phy, [], product), own), own)
  {
    NothingSet(own);
    SetStateKept(PoweredOff.(phy := phy), Initialising, Config(product, NoDfuReset, {}, {}, false), own);
  }

  lemma HandledOrdered(m: Machine, msg: Message, c: Config, own: Role)
    requires own != NoRole && CanArrive(m, msg) && Ordered(SetOf(m, own), own)
    ensures Ordered(SetOf(Handled(m, msg, c), own), own)
  {
    if msg.TopologyStarted? {
      TopologyOrdered(m, msg.success, msg.role, msg.phy, msg.busy, c, own);
    } else if msg.RoleChanged? {
      RoleChangeOrdered(m, msg.role, msg.phy, msg.busy, c, own);
    } else {
      OtherKept(m, msg, c, own);
    }
  }

  lemma TopologyOrdered(m: Machine, success: bool, role: Role, phy: PhyState, busy: bool, c: Config, own: Role)
    requires own != NoRole && Ordered(SetOf(m, own), own) && !m.panicked
    ensures Ordered(SetOf(OnTopologyStarted(m, success, role, phy, busy, c), own), own)
  {
    if m.state == Startup && phy != UnknownPlace {
      var s := SetOf(m, own);
      InitialMoves(m, phy, busy, c, own);
      InitialOrdered(s, own, phy, c);
      AfterOrdered(InitialSet(s, own, phy, c), own, Startup, CoreFor(phy, busy), c);
      RoleChangeOrdered(SetInitialCore(m, phy, busy, c), role, phy, busy, c, own);
    }
  }

  /** In every reachable state one number says how an event stands whose rules do not
      defer. */
  lemma {:induction false} AlwaysOrdered(phy: PhyState, ins: seq<Input>, product: Product, own: Role)
    requires own != NoRole
    ensures Ordered(SetOf(Run(phy, ins, product), own), own)
  {
    if ins == [] {
      InitialisedKept(phy, product, own);
    } else {
      var front, i := ins[..|ins| - 1], ins[|ins| - 1];
      AlwaysOrdered(phy, front, product, own);
      var m := Run(phy, front, product);
      if CanArrive(m, i.msg) { HandledOrdered(m, i.msg, i.With(product), own); }
    }
  }

  /** Over every run the rules of a role stay free of opposites exactly as long as no
      message clashes. */
  lemma {:induction false} OppositesExactly(phy: PhyState, ins: seq<Input>, product: Product, own: Role)
    requires own != NoRole
    ensures AlwaysFree(phy, ins, product, own) <==> NeverClashes(phy, ins, product, own)
  {
    if ins == [] {
      InitialisedKept(phy, product, own);
    } else {
      var front, i := ins[..|ins| - 1], ins[|ins| - 1];
      OppositesExactly(phy, front, product, own);
      FreeNow(phy, front, product, own);
      AlwaysOrdered(phy, front, product, own);
      if AlwaysFree(phy, front, product, own) && CanArrive(Run(phy, front, product), i.msg) {
        ClashExactly(Run(phy, front, product), i.msg, i.With(product), own);
      }
    }
  }

  /** The place of which an event tells. */
  predicate Placed(e: RuleEvent, s: State) {
    if e == InCaseEvent then InCase(s) else InEar(s)
  }

  predicate PlaceEvent(e: RuleEvent) {
    e == InCaseEvent || e == InEarEvent
  }

  function BegunFor(p: Option<nat>, own: Role, e: RuleEvent, c: Config): Option<nat> {
    Begun(p, ActsFor(own, e, c))
  }

  /** The earbud was and is there or not. */
  function Crossed(before: Option<nat>, own: Role, e: RuleEvent, c: Config, was: bool, now: bool): Option<nat> {
    if was == now then before else if was then None else BegunFor(before, own, e, c)
  }

  lemma ExchangedAt(s: EventSet, own: Role, go: bool, off: RuleEvent, on: RuleEvent, c: Config, e: RuleEvent)
    requires Plain(own, e) && OrderedAt(s, own, e) && off != on
    ensures var t := ExchangedFor(s, own, go, off, on, c);
      && OrderedAt(t, own, e)
      && At(t, own, e) ==
         if !go then At(s, own, e) else if e == off then None
         else if e == on then BegunFor(At(s, own, e), own, e, c) else At(s, own, e)
  {
    if go {
      ToldAt(s, own, ResetEvent(off), c, e);
      ToldAt(TellSet(s, own, ResetEvent(off), c), own, SetEvent(on), c, e);
    }
  }

  lemma TwiceAt(s: EventSet, own: Role, goCase: bool, goEar: bool, out: bool, c: Config, e: RuleEvent)
    requires Plain(own, e) && PlaceEvent(e) && OrderedAt(s, own, e)
    ensures var t := Twice(s, own, goCase, goEar, out, c);
      && OrderedAt(t, own, e)
      && At(t, own, e) ==
         if !(if e == InCaseEvent then goCase else goEar) then At(s, own, e)
         else if out then None else BegunFor(At(s, own, e), own, e, c)
  {
    if out {
      ExchangedAt(s, own, goCase, InCaseEvent, OutCaseEvent, c, e);
      ExchangedAt(ExchangedFor(s, own, goCase, InCaseEvent, OutCaseEvent, c),
                  own, goEar, InEarEvent, OutEarEvent, c, e);
    } else {
      ExchangedAt(s, own, goCase, OutCaseEvent, InCaseEvent, c, e);
      ExchangedAt(ExchangedFor(s, own, goCase, OutCaseEvent, InCaseEvent, c),
                  own, goEar, OutEarEvent, InEarEvent, c, e);
    }
  }

  lemma UnpairedAt(s: EventSet, own: Role, from: State, c: Config, e: RuleEvent)
    requires Plain(own, e) && OrderedAt(s, own, e)
    ensures var t := UnpairedFor(s, own, from, c); OrderedAt(t, own, e) && At(t, own, e) == At(s, own, e)
  {
    if from == HandsetPairing {
      NoPairing(own, e);
      ToldAt(s, own, Complete(HandsetPair), c, e);
    }
  }

  lemma FourAt(s: EventSet, own: Role, case0: bool, case1: bool, ear0: bool, ear1: bool, c: Config, e: RuleEvent)
    requires Plain(own, e) && PlaceEvent(e) && OrderedAt(s, own, e)
    ensures var t := Twice(Twice(s, own, case0 && !case1, ear0 && !ear1, true, c),
                           own, !case0 && case1, !ear0 && ear1, false, c);
      && OrderedAt(t, own, e)
      && At(t, own, e) == Crossed(At(s, own, e), own, e, c, if e == InCaseEvent then case0 else ear0,
                                  if e == InCaseEvent then case1 else ear1)
  {
    TwiceAt(s, own, case0 && !case1, ear0 && !ear1, true, c, e);
    TwiceAt(Twice(s, own, case0 && !case1, ear0 && !ear1, true, c), own, !case0 && case1, !ear0 && ear1, false, c, e);
  }

  lemma AfterAt(s: EventSet, own: Role, from: State, to: State, c: Config, e: RuleEvent)
    requires Plain(own, e) && PlaceEvent(e) && OrderedAt(s, own, e)
    ensures var t := AfterFor(s, own, from, to, c);
      OrderedAt(t, own, e) && At(t, own, e) == Crossed(At(s, own, e), own, e, c, Placed(e, from), Placed(e, to))
  {
    AfterIs(s, own, from, to, c);
    UnpairedAt(s, own, from, c, e);
    FourAt(UnpairedFor(s, own, from, c), own, InCase(from), InCase(to), InEar(from), InEar(to), c, e);
  }

  /** What a change of state from m to n makes of an event. */
  predicate Carries(m: Machine, n: Machine, c: Config, own: Role, e: RuleEvent) {
    && OrderedAt(SetOf(n, own), own, e)
    && At(SetOf(n, own), own, e) ==
       if m.role == own then Crossed(At(SetOf(m, own), own, e), own, e, c, Placed(e, m.state), Placed(e, n.state))
       else At(SetOf(m, own), own, e)
  }

  /** The event is one that HeldExactly is about, and it stands in order. */
  predicate Tracks(m: Machine, own: Role, e: RuleEvent) {
    own != NoRole && PlaceEvent(e) && OrderedAt(SetOf(m, own), own, e)
  }

  lemma MoveCarries(m: Machine, t: State, c: Config, own: Role, e: RuleEvent)
    requires Tracks(m, own, e)
    ensures Carries(m, Move(m, t, c), c, own, e)
  {
    MoveSet(m, t, c, own);
    if m.role == own { AfterAt(SetOf(m, own), own, m.state, t, c, e); }
  }

  lemma CarriesOn(m: Machine, k: Machine, n: Machine, c: Config, own: Role, e: RuleEvent)
    requires Carries(m, k, c, own, e) && Carries(k, n, c, own, e) && k.role == m.role
    requires !Placed(e, k.state) && !Placed(e, n.state)
    ensures Carries(m, n, c, own, e)
  {
  }

  lemma StillCarries(m: Machine, n: Machine, c: Config, own: Role, e: RuleEvent)
    requires n.rules == m.rules && n.state == m.state && OrderedAt(SetOf(m, own), own, e)
    ensures Carries(m, n, c, own, e)
  {
  }

  lemma LikeCarries(m: Machine, k: Machine, n: Machine, c: Config, own: Role, e: RuleEvent)
    requires k.rules == m.rules && k.state == m.state && k.role == m.role && Carries(k, n, c, own, e)
    ensures Carries(m, n, c, own, e)
  {
  }

  lemma DfuCheckAt(m: Machine, c: Config, own: Role, e: RuleEvent)
    requires Tracks(m, own, e) && m.state != FactoryReset && c.reason != NoDfuReset
    ensures Carries(m, SetState(m, DfuCheck, c), c, own, e)
  {
    MovesTwice(m, DfuCheck, Startup, c, own, e);
    DfuCheckMoves(m, c);
  }

  lemma DfuCheckMoves(m: Machine, c: Config)
    requires m.state != FactoryReset && c.reason != NoDfuReset
    ensures SetState(m, DfuCheck, c) == Move(Move(m, DfuCheck, c), Startup, c)
  {
  }

  lemma MovesTwice(m: Machine, a: State, b: State, c: Config, own: Role, e: RuleEvent)
    requires Tracks(m, own, e) && !Placed(e, a) && !Placed(e, b)
    ensures Carries(m, Move(Move(m, a, c), b, c), c, own, e)
  {
    var k := Move(m, a, c);
    MoveCarries(m, a, c, own, e);
    MoveCarries(k, b, c, own, e);
    CarriesOn(m, k, Move(k, b, c), c, own, e);
  }

  lemma SetStateAt(m: Machine, t: State, c: Config, own: Role, e: RuleEvent)
    requires Tracks(m, own, e)
    ensures Carries(m, SetState(m, t, c), c, own, e)
  {
    if m.state == FactoryReset {
      StillCarries(m, m.(panicked := true), c, own, e);
    } else if t == DfuCheck && c.reason != NoDfuReset {
      DfuCheckAt(m, c, own, e);
    } else {
      MoveCarries(m, t, c, own, e);
    }
  }

  lemma SetCoreAt(m: Machine, busy: bool, c: Config, own: Role, e: RuleEvent)
    requires Tracks(m, own, e)
    ensures Carries(m, SetCore(m, busy, c), c, own, e)
  {
    SetStateAt(m, CoreFor(m.phy, busy), c, own, e);
  }

  lemma RoleSetAt(s: EventSet, own: Role, phy: PhyState, c: Config, e: RuleEvent)
    requires own != NoRole && PlaceEvent(e) && OrderedAt(s, own, e)
    ensures var t := RoleSet(s, own, phy, c); OrderedAt(t, own, e) && At(t, own, e) == At(s, own, e)
  {
    ToldAt(s, own, SetEvent(RoleSwitch), c, e);
    ToldAt(TellSet(s, own, SetEvent(RoleSwitch), c), own, SetEvent(OutCaseEvent), c, e);
  }

  /** The role whose rules hear of the change of state that a message makes. */
  function Mover(m: Machine, msg: Message): Role {
    if msg.RoleChanged? then msg.role else m.role
  }

  /** Without a role no event stays set. */
  predicate Releases(m: Machine, msg: Message) {
    match msg
    case RoleChanged(role, _, _) => role == NoRole && m.state != InCaseDfu
    case TopologyStarted(success, role, phy, _) =>
      success && role == NoRole && m.state == Startup && phy != UnknownPlace
    case _ => false
  }

  /** What one message makes of an event of one role, told by the role, by the place before
      and after, and by the answers of the rules of this event. */
  function Stands(before: Option<nat>, m: Machine, msg: Message, now: State, c: Config, own: Role, e: RuleEvent)
    : Option<nat>
  {
    if Releases(m, msg) then None
    else if msg.RuleRuns? && HearsRule(m, msg.message, own)
    then Advanced(before, ListFor(own, e), Reported(msg.message), ActsFor(own, e, c))
    else if Mover(m, msg) == own then Crossed(before, own, e, c, Placed(e, m.state), Placed(e, now))
    else before
  }

  predicate Stood(m: Machine, msg: Message, n: Machine, c: Config, own: Role, e: RuleEvent) {
    && OrderedAt(SetOf(n, own), own, e)
    && At(SetOf(n, own), own, e) == Stands(At(SetOf(m, own), own, e), m, msg, n.state, c, own, e)
  }

  lemma NoRoleAt(m: Machine, phy: PhyState, busy: bool, c: Config, own: Role, e: RuleEvent)
    requires Tracks(m, own, e)
    ensures Stood(m, RoleChanged(NoRole, phy, busy), RoleChange(m, NoRole, phy, busy, c), c, own, e)
  {
    if m.state != InCaseDfu {
      NoRoleClears(m, phy, busy, c, own, e);
      AtIs(SetOf(RoleChange(m, NoRole, phy, busy, c), own), own, e, None);
    }
  }

  /** The state after a role has been taken. */
  lemma RoleChangeState(m: Machine, role: Role, phy: PhyState, busy: bool, c: Config)
    requires role != NoRole && c.reason != DfuReset
    ensures RoleChange(m, role, phy, busy, c).state ==
      if role == Secondary && m.role == Primary && !Core(m.state) && m.state != FactoryReset
      then CoreFor(m.phy, busy) else m.state
  {
    if role == Secondary && m.role == Primary && !Core(m.state) && m.state != FactoryReset {
      var n := m.(role := role, rules := RoleEvents(m.rules, role, phy, c));
      CorePlaces(m.phy, busy);
      assert SetCore(n, busy, c) == Move(n, CoreFor(m.phy, busy), c);
    }
  }

  lemma TakenAt(m: Machine, role: Role, phy: PhyState, busy: bool, c: Config, own: Role, e: RuleEvent)
    requires Tracks(m, own, e) && role != NoRole && c.reason != DfuReset
    ensures Stood(m, RoleChanged(role, phy, busy), RoleChange(m, role, phy, busy, c), c, own, e)
  {
    RoleChangeState(m, role, phy, busy, c);
    TakenSetAt(m, role, phy, busy, c, own, e);
  }

  lemma TakenSetAt(m: Machine, role: Role, phy: PhyState, busy: bool, c: Config, own: Role, e: RuleEvent)
    requires Tracks(m, own, e) && role != NoRole && c.reason != DfuReset
    ensures var n := RoleChange(m, role, phy, busy, c);
      && OrderedAt(SetOf(n, own), own, e)
      && At(SetOf(n, own), own, e) ==
         if role == own == Secondary && m.role == Primary && !Core(m.state) && m.state != FactoryReset
         then Crossed(At(SetOf(m, own), own, e), own, e, c, Placed(e, m.state), Placed(e, CoreFor(m.phy, busy)))
         else At(SetOf(m, own), own, e)
  {
    RoleChangeSet(m, role, phy, busy, c, own);
    RoleSetAt(SetOf(m, own), own, phy, c, e);
    AfterAt(RoleSet(SetOf(m, own), own, phy, c), own, m.state, CoreFor(m.phy, busy), c, e);
  }

  lemma RoleChangeAt(m: Machine, role: Role, phy: PhyState, busy: bool, c: Config, own: Role, e: RuleEvent)
    requires Tracks(m, own, e)
    ensures Stood(m, RoleChanged(role, phy, busy), RoleChange(m, role, phy, busy, c), c, own, e)
  {
    if role == NoRole {
      NoRoleAt(m, phy, busy, c, own, e);
    } else if c.reason != DfuReset {
      TakenAt(m, role, phy, busy, c, own, e);
    }
  }

  lemma InitialSetAt(s: EventSet, own: Role, phy: PhyState, from: State, to: State, c: Config, e: RuleEvent)
    requires own != NoRole && PlaceEvent(e) && OrderedAt(s, own, e) && phy != UnknownPlace
    requires !Placed(e, from) && (Placed(e, to) <==> phy == if e == InCaseEvent then PlacedInCase else PlacedInEar)
    ensures var t := AfterFor(InitialSet(s, own, phy, c), own, from, to, c);
      OrderedAt(t, own, e) && At(t, own, e) == Crossed(At(s, own, e), own, e, c, false, Placed(e, to))
  {
    if phy == PlacedInCase {
      ToldAt(s, own, SetEvent(InCaseEvent), c, e);
    } else {
      ToldAt(s, own, SetEvent(OutCaseEvent), c, e);
      ToldAt(TellSet(s, own, SetEvent(OutCaseEvent), c), own, SetEvent(EarSet(phy)), c, e);
    }
    AfterAt(InitialSet(s, own, phy, c), own, from, to, c, e);
  }

  lemma InitialAt(m: Machine, phy: PhyState, busy: bool, c: Config, own: Role, e: RuleEvent)
    requires Tracks(m, own, e) && m.state == Startup && phy != UnknownPlace
    ensures Carries(m, SetInitialCore(m, phy, busy, c), c, own, e)
  {
    InitialMoves(m, phy, busy, c, own);
    if m.role == own { InitialOwnAt(m, phy, busy, c, own, e); }
  }

  lemma InitialOwnAt(m: Machine, phy: PhyState, busy: bool, c: Config, own: Role, e: RuleEvent)
    requires Tracks(m, own, e) && m.state == Startup && phy != UnknownPlace
    ensures var to := CoreFor(phy, busy);
      var u := AfterFor(InitialSet(SetOf(m, own), own, phy, c), own, Startup, to, c);
      OrderedAt(u, own, e) && At(u, own, e) == Crossed(At(SetOf(m, own), own, e), own, e, c, false, Placed(e, to))
  {
    CorePlaces(phy, busy);
    InitialSetAt(SetOf(m, own), own, phy, m.state, CoreFor(phy, busy), c, e);
  }

  lemma TopologyAt(m: Machine, success: bool, role: Role, phy: PhyState, busy: bool, c: Config, own: Role, e: RuleEvent)
    requires Tracks(m, own, e) && !m.panicked
    ensures Stood(m, TopologyStarted(success, role, phy, busy),
                  OnTopologyStarted(m, success, role, phy, busy, c), c, own, e)
  {
    if m.state == Startup && phy != UnknownPlace {
      var n := SetInitialCore(m, phy, busy, c);
      InitialMoves(m, phy, busy, c, own);
      CorePlaces(phy, busy);
      InitialAt(m, phy, busy, c, own, e);
      if success {
        CoreStays(n, role, phy, busy, c);
        RoleChangeAt(n, role, phy, busy, c, own, e);
        StoodOn(m, n, RoleChange(n, role, phy, busy, c), role, phy, busy, c, own, e);
      } else {
        NotStarted(m, n, role, phy, busy, c, own, e);
      }
    }
  }

  /** The first core state, and then the new role in it. */
  lemma StoodOn(m: Machine, n: Machine, k: Machine, role: Role, phy: PhyState, busy: bool, c: Config,
                own: Role, e: RuleEvent)
    requires m.state == Startup && phy != UnknownPlace && Carries(m, n, c, own, e) && Core(n.state) && n.role == m.role
    requires Stood(n, RoleChanged(role, phy, busy), k, c, own, e) && k.state == n.state
    ensures Stood(m, TopologyStarted(true, role, phy, busy), k, c, own, e)
  {
  }

  lemma NotStarted(m: Machine, n: Machine, role: Role, phy: PhyState, busy: bool, c: Config, own: Role, e: RuleEvent)
    requires Carries(m, n, c, own, e)
    ensures Stood(m, TopologyStarted(false, role, phy, busy), n, c, own, e)
  {
  }

  lemma PairingAt(m: Machine, c: Config, own: Role, e: RuleEvent)
    requires Tracks(m, own, e)
    ensures Carries(m, OnRule(m, HandsetPair, c), c, own, e)
  {
    SetStateAt(m, HandsetPairing, c, own, e);
  }

  lemma RuleDoneAt(m: Machine, message: RuleMessage, c: Config, own: Role, e: RuleEvent)
    requires Tracks(m, own, e) && message != HandsetPair
    ensures Stood(m, RuleRuns(message), OnRule(m, message, c), c, own, e)
  {
    OnRuleSet(m, message, c, own);
    ToldAt(SetOf(m, own), own, Complete(Reported(message)), c, e);
    RuleStood(m, message, OnRule(m, message, c), c, own, e);
  }

  lemma RuleStood(m: Machine, message: RuleMessage, n: Machine, c: Config, own: Role, e: RuleEvent)
    requires message != HandsetPair && n.state == m.state && OrderedAt(SetOf(n, own), own, e)
    requires At(SetOf(n, own), own, e) ==
      if HearsRule(m, message, own) then MovedFor(At(SetOf(m, own), own, e), own, Complete(Reported(message)), c, e)
      else At(SetOf(m, own), own, e)
    ensures Stood(m, RuleRuns(message), n, c, own, e)
  {
  }

  lemma RuleAt(m: Machine, message: RuleMessage, c: Config, own: Role, e: RuleEvent)
    requires Tracks(m, own, e)
    ensures Stood(m, RuleRuns(message), OnRule(m, message, c), c, own, e)
  {
    if message == HandsetPair { PairingAt(m, c, own, e); } else { RuleDoneAt(m, message, c, own, e); }
  }

  lemma PlainAt(m: Machine, msg: Message, c: Config, own: Role, e: RuleEvent)
    requires Tracks(m, own, e) && CanArrive(m, msg) && (PowerMessage(msg) || DfuMessage(msg))
    ensures Carries(m, Handled(m, msg, c), c, own, e)
  {
    if msg.SleepPrepare? {
      if m.state == OutOfCaseSoporific {
        SetStateAt(m, OutOfCaseSoporificTerminating, c, own, e);
      } else {
        StillCarries(m, m.(panicked := true), c, own, e);
      }
    } else if DfuMessage(msg) {
      DfuAt(m, msg, c, own, e);
    } else {
      SetStateAt(m, if msg.ShutdownPrepare? then TerminatingFor(m.state) else Startup, c, own, e);
    }
  }

  lemma DfuAt(m: Machine, msg: Message, c: Config, own: Role, e: RuleEvent)
    requires Tracks(m, own, e) && CanArrive(m, msg) && DfuMessage(msg)
    ensures Carries(m, Handled(m, msg, c), c, own, e)
  {
    StillCarries(m, m, c, own, e);
    if msg.EnterDfuMode? {
      SetStateAt(m, InCaseDfu, c, own, e);
    } else {
      SetStateAt(m, if msg.NoDfu? && msg.testMode then DeviceTestMode else Startup, c, own, e);
    }
  }

  lemma IdleAt(m: Machine, c: Config, own: Role, e: RuleEvent)
    requires Tracks(m, own, e) && CanArrive(m, IdleTimeout)
    ensures Carries(m, Handled(m, IdleTimeout, c), c, own, e)
  {
    var k := m.(idleTimeouts := m.idleTimeouts - 1);
    if m.state == OutOfCaseIdle {
      SetStateAt(k, OutOfCaseSoporific, c, own, e);
      LikeCarries(m, k, SetState(k, OutOfCaseSoporific, c), c, own, e);
    } else {
      StillCarries(m, k.(panicked := true), c, own, e);
    }
  }

  lemma UserAt(m: Machine, msg: Message, c: Config, own: Role, e: RuleEvent)
    requires Tracks(m, own, e) && CanArrive(m, msg)
    requires UserMessage(msg)
    ensures Carries(m, Handled(m, msg, c), c, own, e)
  {
    if msg.IdleTimeout? {
      IdleAt(m, c, own, e);
    } else if msg.PairHandset? {
      if IdleState(m.state) && m.role == Primary {
        SetStateAt(m, HandsetPairing, c, own, e);
      } else {
        StillCarries(m, m, c, own, e);
      }
    } else if msg.RequestFactoryReset? {
      if FromStartup(m.state) { SetStateAt(m, FactoryReset, c, own, e); } else { StillCarries(m, m, c, own, e); }
    } else {
      SetStateAt(m, if msg.EnterDutMode? then OutOfCaseIdle else Startup, c, own, e);
    }
  }

  lemma PlaceAt(m: Machine, msg: Message, c: Config, own: Role, e: RuleEvent)
    requires Tracks(m, own, e) && CanArrive(m, msg)
    requires msg.PhyChanged? || msg.StateProxyEvent? || msg.AudioChanged? || msg.PairingConfirmed?
    ensures Carries(m, Handled(m, msg, c), c, own, e)
  {
    if msg.PhyChanged? {
      PhyAt(m, msg.phy, msg.busy, c, own, e);
    } else if !msg.StateProxyEvent? {
      SetCoreAt(m, msg.busy, c, own, e);
    }
  }

  lemma PhyAt(m: Machine, phy: PhyState, busy: bool, c: Config, own: Role, e: RuleEvent)
    requires Tracks(m, own, e)
    ensures Carries(m, OnPhyChanged(m, phy, busy, c), c, own, e)
  {
    SetCoreAt(m.(phy := phy), busy, c, own, e);
  }

  /** The messages that change the state under the current role. */
  lemma CarriedAt(m: Machine, msg: Message, n: Machine, c: Config, own: Role, e: RuleEvent)
    requires !msg.RoleChanged? && !msg.TopologyStarted? && !msg.RuleRuns? && Carries(m, n, c, own, e)
    ensures Stood(m, msg, n, c, own, e)
  {
  }

  lemma OtherAt(m: Machine, msg: Message, c: Config, own: Role, e: RuleEvent)
    requires Tracks(m, own, e) && CanArrive(m, msg)
    requires !msg.SystemActive? && !msg.RoleChanged? && !msg.TopologyStarted? && !msg.RuleRuns? && !msg.OtherEvent?
    ensures Carries(m, Handled(m, msg, c), c, own, e)
  {
    if PowerMessage(msg) || DfuMessage(msg) {
      PlainAt(m, msg, c, own, e);
    } else if msg.PhyChanged? || msg.StateProxyEvent? || msg.AudioChanged? || msg.PairingConfirmed? {
      PlaceAt(m, msg, c, own, e);
    } else {
      UserAt(m, msg, c, own, e);
    }
  }

  lemma LookAt(m: Machine, c: Config, own: Role, e: RuleEvent)
    requires Tracks(m, own, e)
    ensures Carries(m, m.(rules := Tell(m.rules, m.role, Look, c)), c, own, e)
  {
    LookSet(m, c, own);
    ToldAt(SetOf(m, own), own, Look, c, e);
  }

  lemma SystemAt(m: Machine, c: Config, own: Role, e: RuleEvent)
    requires Tracks(m, own, e)
    ensures Carries(m, OnSystemActive(m, c), c, own, e)
  {
    if m.state == Initialising {
      SetStateAt(m, DfuCheck, c, own, e);
    } else {
      StillCarries(m, OnSystemActive(m, c), c, own, e);
    }
  }

  /** A message of which more is known than where it takes the state. */
  predicate Special(msg: Message) {
    msg.RoleChanged? || msg.TopologyStarted? || msg.RuleRuns?
  }

  lemma SpecialAt(m: Machine, msg: Message, c: Config, own: Role, e: RuleEvent)
    requires Tracks(m, own, e) && CanArrive(m, msg) && Special(msg)
    ensures Stood(m, msg, Handled(m, msg, c), c, own, e)
  {
    if msg.TopologyStarted? {
      TopologyAt(m, msg.success, msg.role, msg.phy, msg.busy, c, own, e);
    } else if msg.RoleChanged? {
      RoleChangeAt(m, msg.role, msg.phy, msg.busy, c, own, e);
    } else {
      RuleAt(m, msg.message, c, own, e);
    }
  }

  lemma HandledAt(m: Machine, msg: Message, c: Config, own: Role, e: RuleEvent)
    requires Tracks(m, own, e) && CanArrive(m, msg)
    ensures Stood(m, msg, Handled(m, msg, c), c, own, e)
  {
    if Special(msg) {
      SpecialAt(m, msg, c, own, e);
    } else {
      if msg.SystemActive? {
        SystemAt(m, c, own, e);
      } else if msg.OtherEvent? {
        LookAt(m, c, own, e);
      } else {
        OtherAt(m, msg, c, own, e);
      }
      CarriedAt(m, msg, Handled(m, msg, c), c, own, e);
    }
  }

  /** An event of one role over a run: set when the earbud comes to its place in this role,
      if a rule runs; moved on by the handled messages of its rules; cleared when the last
      of them is done, when the earbud leaves the place in this role, and without a role.
      What happens in the other role does not count. */
  ghost function Standing(phy: PhyState, ins: seq<Input>, product: Product, own: Role, e: RuleEvent): Option<nat> {
    if ins == [] then None
    else
      var before := Standing(phy, ins[..|ins| - 1], product, own, e);
      var m, i := Run(phy, ins[..|ins| - 1], product), ins[|ins| - 1];
      if CanArrive(m, i.msg) then Stands(before, m, i.msg, Run(phy, ins, product).state, i.With(product), own, e)
      else before
  }

  lemma FreshAt(phy: PhyState, product: Product, own: Role, e: RuleEvent)
    requires own != NoRole && PlaceEvent(e)
    ensures At(SetOf(Run(phy, [], product), own), own, e) == None
  {
    AtIs(map[], own, e, None);
    SetStateAt(PoweredOff.(phy := phy), Initialising, Config(product, NoDfuReset, {}, {}, false), own, e);
  }

  lemma {:induction false} StandsAlways(phy: PhyState, ins: seq<Input>, product: Product, own: Role, e: RuleEvent)
    requires own != NoRole && PlaceEvent(e)
    ensures At(SetOf(Run(phy, ins, product), own), own, e) == Standing(phy, ins, product, own, e)
  {
    if ins == [] {
      FreshAt(phy, product, own, e);
    } else {
      var front, i := ins[..|ins| - 1], ins[|ins| - 1];
      StandsAlways(phy, front, product, own, e);
      var m := Run(phy, front, product);
      AlwaysOrdered(phy, front, product, own);
      assert OrderedAt(SetOf(m, own), own, e);
      if CanArrive(m, i.msg) { HandledAt(m, i.msg, i.With(product), own, e); }
    }
  }

  /** So the order of places and roles tells which place event a role still has set, and
      which rule holds it: those before that rule are done, those behind it have not been
      looked at. */
  lemma HeldExactly(phy: PhyState, ins: seq<Input>, product: Product, own: Role, e: RuleEvent)
    requires own != NoRole && PlaceEvent(e)
    ensures EntryFor(SetOf(Run(phy, ins, product), own), own, e) ==
      EntryAt(Standing(phy, ins, product, own, e), |ListFor(own, e)|)
  {
    StandsAlways(phy, ins, product, own, e);
    AlwaysOrdered(phy, ins, product, own);
    assert OrderedAt(SetOf(Run(phy, ins, product), own), own, e);
  }

  /** Before an earbud takes a role it can be told whether its rules will then hold the
      in-case event together with the out-of-case event: exactly if the earbud is out of
      the case, a rule of that event is in progress, runs or is deferred, and in this role
      it has been put into the case and not been taken out again, while a rule of the
      in-case event has not been completed; unless it moves across the boundary of the case
      at the same time. */
  lemma RoleChangeConflicts(phy: PhyState, ins: seq<Input>, product: Product, own: Role,
                            place: PhyState, busy: bool, i: Input)
    requires own != NoRole && AlwaysFree(phy, ins, product, own) && !Run(phy, ins, product).panicked
    requires i.msg == RoleChanged(own, place, busy) && i.reason != DfuReset
    ensures var m := Run(phy, ins, product);
      Opposed(SetOf(Step(m, i.msg, i.With(product)), own), own) <==>
        && place != PlacedInCase
        && StartsFor(SetOf(m, own), own, OutCaseEvent, i.With(product))
        && Standing(phy, ins, product, own, InCaseEvent).Some?
        && !Parts(m, own, busy)
  {
    FreeNow(phy, ins, product, own);
    StandsAlways(phy, ins, product, own, InCaseEvent);
    AlwaysOrdered(phy, ins, product, own);
    ClashExactly(Run(phy, ins, product), i.msg, i.With(product), own);
  }

  /** While the other earbud is pairing, the pairing rule is enough to keep a fresh out-of-case
      event set in the primary rules, although no rule of it runs. */
  lemma PairingHolds(s: EventSet, c: Config)
    requires EntryFor(s, Primary, OutCaseEvent) == EntryAt(None, 5)
    ensures StartsFor(s, Primary, OutCaseEvent, c) <==>
      c.peerPairing || exists m :: m in ListFor(Primary, OutCaseEvent) && Rule(OutCaseEvent, m) in c.primaryRuns
  {
    var rules, acts := ListFor(Primary, OutCaseEvent), ActsFor(Primary, OutCaseEvent, c);
    assert rules[2] == HandsetPair;
    if m :| m in rules && Rule(OutCaseEvent, m) in c.primaryRuns {
      var k :| 0 <= k < |rules| && rules[k] == m;
      assert Keeps(EntryAt(None, 5), acts, k);
    } else {
      forall k | 0 <= k < |rules|
        ensures Keeps(EntryAt(None, 5), acts, k) <==> rules[k] == HandsetPair && c.peerPairing
      {
        assert rules[k] in rules;
      }
    }
  }

  /** Only rule k of an event is left: it has been put off, and the others are done. */
  predicate PutOff(x: Entry, k: nat) {
    && x.held && k < |x.status| && x.status[k] == Deferred
    && forall j :: 0 <= j < |x.status| && j != k ==> x.status[j] == Done
  }

  /** What looking at such an event again makes of it: the rule runs, or has no more to do
      and lets the event go, or is put off again. */
  predicate TakenUp(x: Entry, k: nat, act: Action, y: Entry)
    requires PutOff(x, k) && |y.status| == |x.status|
  {
    match act
    case Start => y == x.(status := x.status[k := Running])
    case Ignore => !y.held
    case Defer => y == x
  }

  lemma {:induction false} ScanPassesDone(x: Entry, acts: seq<Action>, from: nat)
    requires |acts| == |x.status| && forall j :: from <= j < |x.status| ==> x.status[j] == Done
    ensures Scan(x, acts, from) == x
    decreases |x.status| - from
  {
    if from < |x.status| { ScanPassesDone(x, acts, from + 1); }
  }

  lemma {:induction false} ScanSetsNothing(x: Entry, acts: seq<Action>, from: nat)
    requires |acts| == |x.status| && !x.held
    ensures !Scan(x, acts, from).held
    decreases |x.status| - from
  {
    if from < |x.status| && x.status[from] == Done {
      ScanSetsNothing(x, acts, from + 1);
    } else if from < |x.status| && x.status[from] != Running {
      if acts[from] == Ignore {
        ScanSetsNothing(Settled(x.(status := x.status[from := Done])), acts, from + 1);
      } else if acts[from] == Defer {
        ScanSetsNothing(x.(status := x.status[from := Deferred]), acts, from + 1);
      }
    }
  }

  lemma {:induction false} ScanTakesUp(x: Entry, acts: seq<Action>, k: nat, from: nat)
    requires |acts| == |x.status| && PutOff(x, k) && from <= k
    ensures TakenUp(x, k, acts[k], Scan(x, acts, from))
    decreases k - from
  {
    if from < k {
      ScanTakesUp(x, acts, k, from + 1);
    } else if acts[k] == Defer {
      assert x.status[k := Deferred] == x.status;
      ScanPassesDone(x, acts, k + 1);
    } else if acts[k] == Ignore {
      var y := x.(status := x.status[k := Done]);
      assert Every(y.status, Done);
      ScanSetsNothing(Settled(y), acts, k + 1);
    }
  }

  lemma LookTakesUp(s: EventSet, table: Table, answers: RuleAnswers, e: RuleEvent, k: nat)
    requires PutOff(EntryIn(s, table, e), k)
    ensures TakenUp(EntryIn(s, table, e), k, Acts(table, e, answers)[k],
                    EntryIn(Told(s, table, Look, answers), table, e))
  {
    ToldEntry(s, table, Look, answers, e);
    ScanTakesUp(EntryIn(s, table, e), Acts(table, e, answers), k, 0);
  }

  /** Whatever else happens on the earbud makes its rules be looked at again, and a rule
      that has been put off is taken up then. */
  lemma DeferredIsTakenUp(m: Machine, c: Config, own: Role, e: RuleEvent, k: nat)
    requires !m.panicked && (own == NoRole || own == m.role) && PutOff(EntryFor(SetOf(m, own), own, e), k)
    ensures TakenUp(EntryFor(SetOf(m, own), own, e), k, ActsFor(own, e, c)[k],
                    EntryFor(SetOf(Handled(m, OtherEvent, c), own), own, e))
  {
    TellHeard(m.rules, m.role, Look, c, own);
    LookTakesUp(SetOf(m, own), OwnTable(own), OwnAnswers(own, c), e, k);
  }

  /** An event one of whose rules runs stays set when it is set. */
  lemma RunsStart(s: EventSet, own: Role, e: RuleEvent, c: Config, k: nat)
    requires Plain(own, e) && OrderedAt(s, own, e) && k < |ListFor(own, e)|
    requires ActsFor(own, e, c)[k] == Start
    ensures StartsFor(s, own, e, c)
  {
    var p, acts := At(s, own, e), ActsFor(own, e, c);
    assert Keeps(EntryFor(s, own, e), acts, if p.Some? then p.value else k);
  }

  /** A rule of this event of the secondary role runs. */
  predicate SomeRuns(e: RuleEvent, runs: RuleChoice) {
    exists m :: m in ListFor(Secondary, e) && Rule(e, m) in runs
  }

  lemma SomeStarts(s: EventSet, e: RuleEvent, c: Config)
    requires Ordered(s, Secondary) && SomeRuns(e, c.secondaryRuns)
    ensures StartsFor(s, Secondary, e, c)
  {
    var rules := ListFor(Secondary, e);
    var m :| m in rules && Rule(e, m) in c.secondaryRuns;
    var k :| 0 <= k < |rules| && rules[k] == m;
    assert OrderedAt(s, Secondary, e);
    RunsStart(s, Secondary, e, c, k);
  }

  /** Put into the case in one role, taken out in the other, and then in the first role
      again. The message of the rule that has started is handled in between. */
  function InAndOut(first: RuleChoice, started: RuleMessage, last: RuleChoice, busy: bool): seq<Input> {
    [Input(PhyChanged(PlacedInCase, busy), NoDfuReset, {}, first, false),
     Input(RoleChanged(Primary, PlacedInCase, busy), NoDfuReset, {}, {}, false),
     Input(RuleRuns(started), NoDfuReset, {}, {}, false),
     Input(PhyChanged(OutOfEar, busy), NoDfuReset, {}, {}, false),
     Input(RoleChanged(Secondary, OutOfEar, busy), NoDfuReset, {}, last, false)]
  }

  /** A secondary earbud out of the case whose rules are free of opposites. */
  ghost predicate ReadySecondary(m: Machine, product: Product) {
    && Holds(m, product) && !m.panicked && m.role == Secondary && Core(m.state) && !InCase(m.state)
    && Ordered(SetOf(m, Secondary), Secondary) && !Opposed(SetOf(m, Secondary), Secondary)
  }

  /** An earbud in the case whose secondary rules hold the in-case event. */
  ghost predicate LeftOver(m: Machine, product: Product) {
    && Holds(m, product) && !m.panicked && m.state == InCaseIdle
    && LeftIn(SetOf(m, Secondary), Secondary)
  }

  ghost predicate LeftIn(s: EventSet, own: Role) {
    Held(s, own, InCaseEvent) && Ordered(s, own) && !Opposed(s, own)
  }

  lemma PutInState(m: Machine, c: Config, busy: bool)
    requires Holds(m, c.product) && !m.panicked && Core(m.state)
    ensures var n := OnPhyChanged(m, PlacedInCase, busy, c);
      Holds(n, c.product) && !n.panicked && n.role == m.role && n.state == InCaseIdle
  {
    SetCoreKeeps(m.(phy := PlacedInCase), busy, c);
  }

  /** The in-case event is set now. */
  lemma PutInSets(s: EventSet, own: Role, c: Config)
    requires Plain(own, InCaseEvent) && OrderedAt(s, own, InCaseEvent) && StartsFor(s, own, InCaseEvent, c)
    ensures BegunFor(At(s, own, InCaseEvent), own, InCaseEvent, c).Some?
  {
    var acts := ActsFor(own, InCaseEvent, c);
    SetHeld(s, own, InCaseEvent, c, InCaseEvent);
    ToldAt(s, own, SetEvent(InCaseEvent), c, InCaseEvent);
  }

  lemma PutInSet(m: Machine, phy: PhyState, c: Config, busy: bool)
    requires ReadySecondary(m, c.product) && SomeRuns(InCaseEvent, c.secondaryRuns)
    requires OnPhyChanged(m, phy, busy, c).state == InCaseIdle
    ensures LeftIn(SetOf(OnPhyChanged(m, phy, busy, c), Secondary), Secondary)
  {
    assert OrderedAt(SetOf(m, Secondary), Secondary, InCaseEvent);
    SomeStarts(SetOf(m, Secondary), InCaseEvent, c);
    PutInSets(SetOf(m, Secondary), Secondary, c);
    PhyAt(m, phy, busy, c, Secondary, InCaseEvent);
    PhyKept(m, phy, busy, c, Secondary);
  }

  lemma PutIn(m: Machine, c: Config, busy: bool)
    requires ReadySecondary(m, c.product) && SomeRuns(InCaseEvent, c.secondaryRuns)
    ensures var n := Step(m, PhyChanged(PlacedInCase, busy), c); LeftOver(n, c.product) && n.role == Secondary
  {
    PhyStep(m, PhyChanged(PlacedInCase, busy), c);
    PutInState(m, c, busy);
    PutInSet(m, PlacedInCase, c, busy);
  }

  lemma BecomePrimary(m: Machine, c: Config, busy: bool)
    requires LeftOver(m, c.product) && m.role == Secondary
    ensures var n := Step(m, RoleChanged(Primary, PlacedInCase, busy), c); LeftOver(n, c.product) && n.role == Primary
  {
    RoleChangeKeeps(m, Primary, PlacedInCase, busy, c);
    RoleEventsSet(m.rules, Primary, PlacedInCase, c, Secondary);
  }

  lemma PrimaryHears(m: Machine, message: RuleMessage, c: Config, own: Role)
    requires m.role == Primary && message != HandsetPair && own != Primary && own != NoRole
    ensures var n := OnRule(m, message, c);
      n.state == m.state && n.role == m.role && SetOf(n, own) == SetOf(m, own)
  {
    OnRuleSet(m, message, c, own);
  }

  lemma PrimaryHandled(m: Machine, message: RuleMessage, c: Config)
    requires LeftOver(m, c.product) && m.role == Primary && message != HandsetPair
    ensures LeftOver(OnRule(m, message, c), c.product) && OnRule(m, message, c).role == Primary
  {
    PrimaryKeeps(m, message, c);
    PrimaryHears(m, message, c, Secondary);
  }

  lemma RuleStep(m: Machine, msg: Message, c: Config)
    requires CanArrive(m, msg) && msg.RuleRuns?
    ensures Step(m, msg, c) == OnRule(m, msg.message, c)
  {
  }

  lemma PhyStep(m: Machine, msg: Message, c: Config)
    requires CanArrive(m, msg) && msg.PhyChanged?
    ensures Step(m, msg, c) == OnPhyChanged(m, msg.phy, msg.busy, c)
  {
  }

  /** The message of the rule reaches the primary rules. */
  lemma PrimaryHandles(m: Machine, message: RuleMessage, c: Config)
    requires LeftOver(m, c.product) && m.role == Primary && message != HandsetPair
    ensures var n := Step(m, RuleRuns(message), c); LeftOver(n, c.product) && n.role == Primary
  {
    RuleStep(m, RuleRuns(message), c);
    PrimaryHandled(m, message, c);
  }

  lemma PrimaryKeeps(m: Machine, message: RuleMessage, c: Config)
    requires Holds(m, c.product) && !m.panicked
    ensures Inv(OnRule(m, message, c), c.product) && !OnRule(m, message, c).panicked
  {
    RuleKeeps(m, message, c);
  }

  lemma OutOfCaseSet(a: Machine, busy: bool, c: Config, own: Role)
    requires a.role == Primary && a.state == InCaseIdle && a.phy == OutOfEar && own != Primary && own != NoRole
    ensures var n := SetCore(a, busy, c);
      Core(n.state) && n.panicked == a.panicked && SetOf(n, own) == SetOf(a, own)
  {
    CorePlaces(a.phy, busy);
    assert SetCore(a, busy, c) == Move(a, CoreFor(a.phy, busy), c);
    MoveSet(a, CoreFor(a.phy, busy), c, own);
  }

  lemma TakenOut(m: Machine, phy: PhyState, c: Config, busy: bool)
    requires LeftOver(m, c.product) && m.role == Primary && phy == OutOfEar
    ensures var n := OnPhyChanged(m, phy, busy, c);
      !n.panicked && Core(n.state) && LeftIn(SetOf(n, Secondary), Secondary)
  {
    OutOfCaseSet(m.(phy := phy), busy, c, Secondary);
  }

  lemma TakeOut(m: Machine, c: Config, busy: bool)
    requires LeftOver(m, c.product) && m.role == Primary
    ensures var n := Step(m, PhyChanged(OutOfEar, busy), c);
      !n.panicked && Core(n.state) && LeftIn(SetOf(n, Secondary), Secondary)
  {
    PhyStep(m, PhyChanged(OutOfEar, busy), c);
    TakenOut(m, OutOfEar, c, busy);
  }

  lemma SecondaryAgain(m: Machine, c: Config, busy: bool)
    requires !m.panicked && Core(m.state) && LeftIn(SetOf(m, Secondary), Secondary)
    requires SomeRuns(OutCaseEvent, c.secondaryRuns) && c.reason == NoDfuReset
    ensures Opposed(SetOf(Step(m, RoleChanged(Secondary, OutOfEar, busy), c), Secondary), Secondary)
  {
    SomeStarts(SetOf(m, Secondary), OutCaseEvent, c);
    ClashExactly(m, RoleChanged(Secondary, OutOfEar, busy), c, Secondary);
  }

  /** The first three of these messages. */
  lemma ComesIn(m: Machine, a: Config, b: Config, d: Config, started: RuleMessage, busy: bool)
    returns (m1: Machine, m2: Machine, m3: Machine)
    requires ReadySecondary(m, a.product) && started in ListFor(Secondary, InCaseEvent)
    requires a.product == b.product == d.product && SomeRuns(InCaseEvent, a.secondaryRuns)
    ensures m1 == Step(m, PhyChanged(PlacedInCase, busy), a)
    ensures m2 == Step(m1, RoleChanged(Primary, PlacedInCase, busy), b)
    ensures m3 == Step(m2, RuleRuns(started), d) && LeftOver(m3, d.product) && m3.role == Primary
  {
    m1 := Step(m, PhyChanged(PlacedInCase, busy), a);
    PutIn(m, a, busy);
    m2 := Step(m1, RoleChanged(Primary, PlacedInCase, busy), b);
    BecomePrimary(m1, b, busy);
    m3 := Step(m2, RuleRuns(started), d);
    PrimaryHandles(m2, started, d);
  }

  /** The last two. */
  lemma GoesOut(m: Machine, a: Config, b: Config, busy: bool) returns (m1: Machine)
    requires LeftOver(m, a.product) && m.role == Primary
    requires SomeRuns(OutCaseEvent, b.secondaryRuns) && b.reason == NoDfuReset
    ensures m1 == Step(m, PhyChanged(OutOfEar, busy), a)
    ensures Opposed(SetOf(Step(m1, RoleChanged(Secondary, OutOfEar, busy), b), Secondary), Secondary)
  {
    m1 := Step(m, PhyChanged(OutOfEar, busy), a);
    TakeOut(m, a, busy);
    SecondaryAgain(m1, b, busy);
  }

  /** From every such state the rules of the secondary role come to hold the in-case and the
      out-of-case event together, if a rule of each of them runs. */
  lemma InAndOutConflicts(m: Machine, product: Product, first: RuleChoice, started: RuleMessage, last: RuleChoice,
                          busy: bool)
    returns (m1: Machine, m2: Machine, m3: Machine, m4: Machine)
    requires ReadySecondary(m, product) && started in ListFor(Secondary, InCaseEvent)
    requires SomeRuns(InCaseEvent, first) && SomeRuns(OutCaseEvent, last)
    ensures var ins := InAndOut(first, started, last, busy);
      && m1 == Step(m, ins[0].msg, ins[0].With(product)) && m2 == Step(m1, ins[1].msg, ins[1].With(product))
      && m3 == Step(m2, ins[2].msg, ins[2].With(product)) && m4 == Step(m3, ins[3].msg, ins[3].With(product))
      && Opposed(SetOf(Step(m4, ins[4].msg, ins[4].With(product)), Secondary), Secondary)
  {
    var ins := InAndOut(first, started, last, busy);
    m1, m2, m3 := ComesIn(m, ins[0].With(product), ins[1].With(product), ins[2].With(product), started, busy);
    m4 := GoesOut(m3, ins[3].With(product), ins[4].With(product), busy);
  }

  lemma RunsOn(phy: PhyState, ins: seq<Input>, i: Input, product: Product)
    ensures Run(phy, ins + [i], product) == Step(Run(phy, ins, product), i.msg, i.With(product))
  {
    assert (ins + [i])[..|ins|] == ins;
  }

  lemma FiveMore<T>(s: seq<T>, t: seq<T>)
    requires |t| == 5
    ensures s + [t[0]] + [t[1]] + [t[2]] + [t[3]] + [t[4]] == s + t
  {
  }

  lemma RunsFive(phy: PhyState, ins: seq<Input>, more: seq<Input>, product: Product,
                 m: Machine, m1: Machine, m2: Machine, m3: Machine, m4: Machine)
    requires |more| == 5 && m == Run(phy, ins, product)
    requires m1 == Step(m, more[0].msg, more[0].With(product)) && m2 == Step(m1, more[1].msg, more[1].With(product))
    requires m3 == Step(m2, more[2].msg, more[2].With(product)) && m4 == Step(m3, more[3].msg, more[3].With(product))
    ensures Run(phy, ins + more, product) == Step(m4, more[4].msg, more[4].With(product))
  {
    RunsOn(phy, ins, more[0], product);
    RunsOn(phy, ins + [more[0]], more[1], product);
    RunsOn(phy, ins + [more[0]] + [more[1]], more[2], product);
    RunsOn(phy, ins + [more[0]] + [more[1]] + [more[2]], more[3], product);
    RunsOn(phy, ins + [more[0]] + [more[1]] + [more[2]] + [more[3]], more[4], product);
    FiveMore(ins, more);
  }

  /** So it happens in a run. */
  lemma SecondaryRulesConflict(phy: PhyState, ins: seq<Input>, product: Product,
                               first: RuleChoice, started: RuleMessage, last: RuleChoice, busy: bool)
    requires ReadySecondary(Run(phy, ins, product), product) && started in ListFor(Secondary, InCaseEvent)
    requires SomeRuns(InCaseEvent, first) && SomeRuns(OutCaseEvent, last)
    ensures Opposed(SetOf(Run(phy, ins + InAndOut(first, started, last, busy), product), Secondary), Secondary)
  {
    var more := InAndOut(first, started, last, busy);
    var m := Run(phy, ins, product);
    var m1, m2, m3, m4 := InAndOutConflicts(m, product, first, started, last, busy);
    RunsFive(phy, ins, more, product, m, m1, m2, m3, m4);
  }

  /** And from power-on a run leads to such a state. */
  lemma SecondaryIsReached(phy: PhyState, product: Product) returns (ins: seq<Input>)
    ensures ReadySecondary(Run(phy, ins, product), product)
  {
    var a := Input(SystemActive, NoDfuReset, {}, {}, false);
    var b := Input(NoDfu(false), NoDfuReset, {}, {}, false);
    var d := Input(TopologyStarted(true, Secondary, OutOfEar, false), NoDfuReset, {}, {}, false);
    ins := [a] + [b] + [d];
    PowersOn(phy, product);
    RunsOn(phy, [], a, product);
    assert [] + [a] == [a];
    ChecksDfu(Run(phy, [], product), a.With(product));
    RunsOn(phy, [a], b, product);
    StartsUp(Run(phy, [a], product), b.With(product));
    RunsOn(phy, [a] + [b], d, product);
    GoesSecondary(Run(phy, [a] + [b], product), d.With(product));
    AlwaysOrdered(phy, ins, product, Secondary);
  }

  /** An earbud without a role that has not been asked for anything yet. */
  predicate Unasked(m: Machine, product: Product) {
    Holds(m, product) && !m.panicked && m.role == NoRole && SetOf(m, Secondary) == map[]
  }

  lemma MovesUp(m: Machine, t: State, c: Config)
    requires Unasked(m, c.product) && m.state != FactoryReset && c.reason == NoDfuReset
    ensures Unasked(SetState(m, t, c), c.product) && SetState(m, t, c).state == t
  {
    SetStateKeeps(m, t, c);
    MoveSet(m, t, c, Secondary);
  }

  lemma PowersOn(phy: PhyState, product: Product)
    ensures Unasked(Run(phy, [], product), product) && Run(phy, [], product).state == Initialising
  {
    NothingCommon(product);
    MovesUp(PoweredOff.(phy := phy), Initialising, Config(product, NoDfuReset, {}, {}, false));
  }

  lemma NothingCommon(product: Product)
    ensures Holds(PoweredOff, product)
  {
    assert CommonEvents(map[]) == {};
  }

  lemma ChecksDfu(m: Machine, c: Config)
    requires Unasked(m, c.product) && m.state == Initialising && c.reason == NoDfuReset
    ensures Unasked(Step(m, SystemActive, c), c.product) && Step(m, SystemActive, c).state == DfuCheck
  {
    MovesUp(m, DfuCheck, c);
  }

  lemma StartsUp(m: Machine, c: Config)
    requires Unasked(m, c.product) && m.state == DfuCheck && c.reason == NoDfuReset
    ensures Unasked(Step(m, NoDfu(false), c), c.product) && Step(m, NoDfu(false), c).state == Startup
  {
    MovesUp(m, Startup, c);
  }

  lemma GoesSecondary(m: Machine, c: Config)
    requires Unasked(m, c.product) && m.state == Startup && c.reason == NoDfuReset
    ensures ReadySecondary(Step(m, TopologyStarted(true, Secondary, OutOfEar, false), c), c.product)
  {
    SecondaryState(m, OutOfEar, c);
    SecondaryFree(m, OutOfEar, c);
    TopologyStep(m, TopologyStarted(true, Secondary, OutOfEar, false), c);
  }

  lemma TopologyStep(m: Machine, msg: Message, c: Config)
    requires CanArrive(m, msg) && msg.TopologyStarted?
    ensures Step(m, msg, c) == OnTopologyStarted(m, msg.success, msg.role, msg.phy, msg.busy, c)
  {
  }

  lemma SecondaryState(m: Machine, phy: PhyState, c: Config)
    requires Unasked(m, c.product) && m.state == Startup && c.reason == NoDfuReset && phy == OutOfEar
    ensures var n := OnTopologyStarted(m, true, Secondary, phy, false, c);
      Holds(n, c.product) && !n.panicked && n.role == Secondary && Core(n.state) && !InCase(n.state)
  {
    CorePlaces(phy, false);
    InitialKeeps(m, phy, false, c);
    var n := SetInitialCore(m, phy, false, c);
    RoleChangeKeeps(n, Secondary, phy, false, c);
    CoreStays(n, Secondary, phy, false, c);
  }

  lemma SecondaryFree(m: Machine, phy: PhyState, c: Config)
    requires Unasked(m, c.product)
    ensures var n := OnTopologyStarted(m, true, Secondary, phy, false, c);
      Ordered(SetOf(n, Secondary), Secondary) && !Opposed(SetOf(n, Secondary), Secondary)
  {
    NothingSet(Secondary);
    TopologyStartedClash(m, true, Secondary, phy, false, c, Secondary);
    assert !Held(SetOf(m, Secondary), Secondary, InCaseEvent);
  }

  /** The last input takes the earbud out of the case as secondary, or it loses its role. */
  ghost predicate Parting(phy: PhyState, ins: seq<Input>, product: Product)
    requires ins != []
  {
    var m, msg, now := Run(phy, ins[..|ins| - 1], product), ins[|ins| - 1].msg, Run(phy, ins, product).state;
    Releases(m, msg) || (Mover(m, msg) == Secondary && InCase(m.state) && !InCase(now))
  }

  /** After k inputs the secondary rule for firmware updates is in progress, and no later
      input parts the earbud from the case or its role. */
  ghost predicate UpdatesFrom(phy: PhyState, ins: seq<Input>, k: nat, product: Product)
    decreases |ins|
  {
    if |ins| <= k then Standing(phy, ins, product, Secondary, InCaseEvent) == Some(0)
    else !Parting(phy, ins, product) && UpdatesFrom(phy, ins[..|ins| - 1], k, product)
  }

  lemma DfuRuleStays(m: Machine, msg: Message, now: State, c: Config)
    requires !Releases(m, msg) && !(Mover(m, msg) == Secondary && InCase(m.state) && !InCase(now))
    ensures Stands(Some(0), m, msg, now, c, Secondary, InCaseEvent) == Some(0)
  {
    assert ListFor(Secondary, InCaseEvent)[0] == SecEnterDfu;
  }

  /** The secondary rule that starts a firmware update is never reported complete: what is
      reported is the message of the primary rule. So once that rule is in progress the
      in-case event stays set in the secondary rules until the earbud is taken out of the
      case in this role or loses it. */
  lemma {:induction false} DfuRuleNeverCompletes(phy: PhyState, ins: seq<Input>, k: nat, product: Product)
    requires UpdatesFrom(phy, ins, k, product)
    ensures Standing(phy, ins, product, Secondary, InCaseEvent) == Some(0)
    decreases |ins|
  {
    if |ins| > k {
      var front, i := ins[..|ins| - 1], ins[|ins| - 1];
      DfuRuleNeverCompletes(phy, front, k, product);
      DfuRuleStays(Run(phy, front, product), i.msg, Run(phy, ins, product).state, i.With(product));
    }
  }
}

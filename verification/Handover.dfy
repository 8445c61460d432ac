/** The application's part of a handover between two earbuds: an aggregator that
    marshals the objects of every registered interface, over as many calls as the
    caller's buffers need, and on the other side delivers each of them. */
module Handover {

  import opened Options

  /** What one registered interface can marshal; None is a null type list. */
  datatype Interface = Interface(types: Option<seq<nat>>)

  /** A marshalled object: its type, its contents and the octets it takes. */
  datatype Object = Object(ty: nat, data: nat, size: nat)

  /** The answers of the Marshal callbacks: the contents and size of what an interface has
      for a type, if it has anything. */
  type Offer = map<(nat, nat), (nat, nat)>

  function TypesOf(inf: Interface): seq<nat> {
    match inf.types case None => [] case Some(ts) => ts
  }

  /** The types of interface i from the j-th on, each with its interface. */
  function TypesFrom(infs: seq<Interface>, i: nat, j: nat): seq<(nat, nat)>
    requires i < |infs| && j <= |TypesOf(infs[i])|
    decreases |TypesOf(infs[i])| - j
  {
    if j == |TypesOf(infs[i])| then [] else [(i, TypesOf(infs[i])[j])] + TypesFrom(infs, i, j + 1)
  }

  /** Everything registered from interface i on, in registration order. */
  function Registered(infs: seq<Interface>, i: nat): seq<(nat, nat)>
    requires i <= |infs|
    decreases |infs| - i
  {
    if i == |infs| then [] else TypesFrom(infs, i, 0) + Registered(infs, i + 1)
  }

  /** The registered types whose callbacks provide something, with their objects. */
  function Provided(offer: Offer, ps: seq<(nat, nat)>): seq<(nat, Object)> {
    if ps == [] then []
    else
      (if ps[0] in offer then [(ps[0].0, Object(ps[0].1, offer[ps[0]].0, offer[ps[0]].1))] else [])
      + Provided(offer, ps[1..])
  }

  function Objects(qs: seq<(nat, Object)>): seq<Object> {
    if qs == [] then [] else [qs[0].1] + Objects(qs[1..])
  }

  /** What the callback of interface i has for a type. */
  function Answer(offer: Offer, i: nat, ty: nat): seq<Object> {
    if (i, ty) in offer then [Object(ty, offer[(i, ty)].0, offer[(i, ty)].1)] else []
  }

  /** What marshalling produces from the j-th type of interface i on. */
  function ObjectsFrom(infs: seq<Interface>, offer: Offer, i: nat, j: nat): seq<Object>
    requires i <= |infs| && (i < |infs| ==> j <= |TypesOf(infs[i])|)
    decreases |infs| - i, if i < |infs| then |TypesOf(infs[i])| - j else 0
  {
    if i == |infs| then []
    else if j == |TypesOf(infs[i])| then ObjectsFrom(infs, offer, i + 1, 0)
    else Answer(offer, i, TypesOf(infs[i])[j]) + ObjectsFrom(infs, offer, i, j + 1)
  }

  /** What one-shot marshalling produces. */
  function Emission(infs: seq<Interface>, offer: Offer): seq<Object> {
    ObjectsFrom(infs, offer, 0, 0)
  }

  function Octets(os: seq<Object>): nat {
    if os == [] then 0 else os[0].size + Octets(os[1..])
  }

  /** The longest run of objects that fits into `space` octets. */
  function Fit(os: seq<Object>, space: nat): (r: seq<Object>)
    ensures r <= os && Octets(r) <= space
    ensures r != os ==> Octets(r) + os[|r|].size > space
  {
    if os == [] || os[0].size > space then [] else [os[0]] + Fit(os[1..], space - os[0].size)
  }

  /** The chunks made of the objects `os` by calls with these buffer sizes. */
  function Chunks(os: seq<Object>, sizes: seq<nat>): (r: seq<seq<Object>>)
    ensures |r| == |sizes|
  {
    if sizes == [] then []
    else [Fit(os, sizes[0])] + Chunks(os[|Fit(os, sizes[0])|..], sizes[1..])
  }

  function Flat(cs: seq<seq<Object>>): seq<Object> {
    if cs == [] then [] else cs[0] + Flat(cs[1..])
  }

  /** There is a buffer for each object, in order, that could hold it alone; the buffers
      in between may have any size. */
  ghost predicate Serves(os: seq<Object>, sizes: seq<nat>, ix: seq<nat>) {
    && |ix| == |os|
    && (forall k :: 0 <= k < |ix| ==> ix[k] < |sizes| && sizes[ix[k]] >= os[k].size)
    && (forall j, k :: 0 <= j < k < |ix| ==> ix[j] < ix[k])
  }

  lemma ChunksSplit(os: seq<Object>, sizes: seq<nat>)
    requires sizes != []
    ensures var r := Fit(os, sizes[0]);
      Flat(Chunks(os, sizes)) == r + Flat(Chunks(os[|r|..], sizes[1..])) && os == r + os[|r|..]
  {
    var r := Fit(os, sizes[0]);
    assert Chunks(os, sizes)[1..] == Chunks(os[|r|..], sizes[1..]);
  }

  /** Whatever the buffer sizes, the chunks are a prefix of the one-shot emission, in
      order and without repetition. */
  lemma {:induction false} ChunksArePrefix(os: seq<Object>, sizes: seq<nat>)
    ensures Flat(Chunks(os, sizes)) <= os
  {
    if sizes != [] {
      var r := Fit(os, sizes[0]);
      ChunksArePrefix(os[|r|..], sizes[1..]);
      ChunksSplit(os, sizes);
    }
  }

  /** What is left after the first buffer is served by the others. */
  lemma ServesRest(os: seq<Object>, sizes: seq<nat>, ix: seq<nat>, r: nat) returns (jx: seq<nat>)
    requires sizes != [] && os != [] && Serves(os, sizes, ix) && r <= |os|
    requires sizes[0] >= os[0].size ==> r > 0
    ensures Serves(os[r..], sizes[1..], jx)
  {
    jx := seq(|os| - r, k requires 0 <= k < |os| - r => if ix[r + k] > 0 then ix[r + k] - 1 else 0);
    forall k | 0 <= k < |jx| ensures ix[r + k] > 0 && jx[k] == ix[r + k] - 1 {
      assert r > 0 ==> ix[0] < ix[r + k];
      assert k > 0 ==> ix[r] < ix[r + k];
    }
  }

  /** They are the whole of it as soon as every object in turn meets a buffer that could
      hold it; other calls in between do no harm. */
  lemma {:induction false} ChunksComplete(os: seq<Object>, sizes: seq<nat>, ix: seq<nat>)
    requires Serves(os, sizes, ix)
    ensures Flat(Chunks(os, sizes)) == os
  {
    if os == [] {
      ChunksArePrefix(os, sizes);
    } else {
      assert ix[0] < |sizes|;
      var r := Fit(os, sizes[0]);
      var jx := ServesRest(os, sizes, ix, |r|);
      ChunksComplete(os[|r|..], sizes[1..], jx);
      ChunksSplit(os, sizes);
    }
  }

  /** A buffer that cannot hold the next object makes no progress: as long as all are
      like that, nothing more is sent. */
  lemma {:induction false} SmallBuffersStall(os: seq<Object>, sizes: seq<nat>)
    requires os != [] && forall k :: 0 <= k < |sizes| ==> sizes[k] < os[0].size
    ensures Flat(Chunks(os, sizes)) == []
  {
    if sizes != [] {
      assert sizes[0] < os[0].size;
      assert os[0..] == os;
      SmallBuffersStall(os, sizes[1..]);
      ChunksSplit(os, sizes);
    }
  }

  lemma Regroup<T>(a: seq<T>, b: seq<T>, c: seq<T>)
    ensures a + b + c == a + (b + c)
  {
  }

  lemma TailOfConcat<T>(a: seq<T>, b: seq<T>)
    requires a != []
    ensures a + b != [] && (a + b)[0] == a[0] && (a + b)[1..] == a[1..] + b
  {
  }

  lemma FitStep(o: Object, os: seq<Object>, space: nat)
    ensures Octets([o] + os) == o.size + Octets(os)
    ensures o.size <= space ==> Fit([o] + os, space) == [o] + Fit(os, space - o.size)
  {
    assert ([o] + os)[1..] == os;
  }

  lemma {:induction false} FitUnique(out: seq<Object>, rest: seq<Object>, space: nat)
    requires Octets(out) <= space && (rest != [] ==> Octets(out) + rest[0].size > space)
    ensures Fit(out + rest, space) == out
  {
    if out == [] {
      assert out + rest == rest;
    } else {
      var o, more := out[0], out[1..];
      assert out == [o] + more;
      FitStep(o, more, space);
      FitUnique(more, rest, space - o.size);
      FitStep(o, more + rest, space);
      Regroup([o], more, rest);
    }
  }

  lemma {:induction false} OctetsAppend(os: seq<Object>, o: Object)
    ensures Octets(os + [o]) == Octets(os) + o.size
  {
    if os == [] {
      assert os + [o] == [o];
    } else {
      OctetsAppend(os[1..], o);
      TailOfConcat(os, [o]);
    }
  }

  lemma ProvidedStep(offer: Offer, p: (nat, nat), ps: seq<(nat, nat)>)
    ensures Objects(Provided(offer, [p] + ps)) == Answer(offer, p.0, p.1) + Objects(Provided(offer, ps))
  {
    assert ([p] + ps)[1..] == ps;
    var rest := Provided(offer, ps);
    if p in offer {
      assert Provided(offer, [p] + ps)[1..] == rest;
    } else {
      assert Provided(offer, [p] + ps) == rest;
    }
  }

  /** From any place the objects are those that the callbacks of the remaining registered
      types provide, in registration order. */
  lemma {:induction false} ObjectsFromProvided(infs: seq<Interface>, offer: Offer, i: nat, j: nat)
    requires i < |infs| && j <= |TypesOf(infs[i])|
    ensures ObjectsFrom(infs, offer, i, j) == Objects(Provided(offer, TypesFrom(infs, i, j) + Registered(infs, i + 1)))
    decreases |infs| - i, |TypesOf(infs[i])| - j
  {
    var later := Registered(infs, i + 1);
    if j < |TypesOf(infs[i])| {
      var p, own := (i, TypesOf(infs[i])[j]), TypesFrom(infs, i, j + 1);
      ObjectsFromProvided(infs, offer, i, j + 1);
      ProvidedStep(offer, p, own + later);
      Regroup([p], own, later);
      assert TypesFrom(infs, i, j) == [p] + own;
    } else {
      assert TypesFrom(infs, i, j) + later == later;
      if i + 1 < |infs| {
        ObjectsFromProvided(infs, offer, i + 1, 0);
        assert later == TypesFrom(infs, i + 1, 0) + Registered(infs, i + 2);
      } else {
        assert later == [];
      }
    }
  }

  /** So the emission is what every registered type provides, once each and in order. */
  lemma EmissionIsProvided(infs: seq<Interface>, offer: Offer)
    ensures Emission(infs, offer) == Objects(Provided(offer, Registered(infs, 0)))
  {
    if infs != [] { ObjectsFromProvided(infs, offer, 0, 0); }
  }

  /** The first interface from i on that has a type list. */
  function NextInterface(infs: seq<Interface>, i: nat): (r: Option<nat>)
    requires i <= |infs|
    ensures r.Some? ==> i <= r.value < |infs| && infs[r.value].types.Some?
    decreases |infs| - i
  {
    if i == |infs| then None else if infs[i].types.Some? then Some(i) else NextInterface(infs, i + 1)
  }

  /** The first interface that registers a type. */
  function InterfaceFrom(infs: seq<Interface>, i: nat, ty: nat): (r: Option<nat>)
    requires i <= |infs|
    ensures r.Some? ==> i <= r.value < |infs| && ty in TypesOf(infs[r.value])
    decreases |infs| - i
  {
    if i == |infs| then None else if ty in TypesOf(infs[i]) then Some(i) else InterfaceFrom(infs, i + 1, ty)
  }

  function InterfaceFor(infs: seq<Interface>, ty: nat): Option<nat> {
    InterfaceFrom(infs, 0, ty)
  }

  /** What marshalling produces from a cursor on. */
  function Rest(infs: seq<Interface>, offer: Offer, curr: Option<nat>, j: nat): seq<Object>
    requires curr.Some? ==> curr.value < |infs| && j <= |TypesOf(infs[curr.value])|
  {
    match curr case None => [] case Some(i) => ObjectsFrom(infs, offer, i, j)
  }

  /** Interfaces without a type list have nothing to marshal. */
  lemma {:induction false} SkipUntyped(infs: seq<Interface>, offer: Offer, i: nat)
    requires i <= |infs|
    ensures Rest(infs, offer, NextInterface(infs, i), 0) == ObjectsFrom(infs, offer, i, 0)
    decreases |infs| - i
  {
    if i < |infs| && infs[i].types.None? {
      SkipUntyped(infs, offer, i + 1);
    }
  }

  lemma CursorEnd(infs: seq<Interface>, offer: Offer, i: nat)
    requires i < |infs|
    ensures Rest(infs, offer, Some(i), |TypesOf(infs[i])|) == Rest(infs, offer, NextInterface(infs, i + 1), 0)
  {
    SkipUntyped(infs, offer, i + 1);
  }

  /** What one call makes of what is pending: the longest part that fits comes out, the
      rest stays pending, and the call is done when that is nothing. */
  ghost predicate Emitted(pending: seq<Object>, space: nat, out: seq<Object>, rest: seq<Object>, done: bool) {
    out == Fit(pending, space) && pending == out + rest && (done <==> rest == [])
  }

  /** What follows `sofar` is the answer for the type at the cursor and then the rest. */
  lemma CursorAppend(infs: seq<Interface>, offer: Offer, curr: Option<nat>, j: nat, sofar: seq<Object>)
    requires curr.Some? && curr.value < |infs| && j < |TypesOf(infs[curr.value])|
    ensures var a := Answer(offer, curr.value, TypesOf(infs[curr.value])[j]); var rest := Rest(infs, offer, curr, j);
      && (sofar + a) + Rest(infs, offer, curr, j + 1) == sofar + rest
      && (a != [] ==> rest != [] && rest[0] == a[0] && rest[0].ty in TypesOf(infs[curr.value]))
  {
    Regroup(sofar, Answer(offer, curr.value, TypesOf(infs[curr.value])[j]), Rest(infs, offer, curr, j + 1));
  }

  /** The unmarshalling result a client reports; the zero of the enumeration comes first. */
  datatype Status = Failure | FreeObject | DontFreeObject

  /** An unmarshalled object in the list, with the address it was allocated at. */
  datatype Entry = Entry(obj: Object, id: nat, status: Status)

  /** The answers of the Unmarshal callbacks: what interface i says of an object. */
  type Verdict = (nat, Object) -> Status

  /** The callbacks of a handover's end: an object given to an interface, and the
      interface told of its new role. */
  datatype Call = Delivery(target: nat, id: nat, obj: Object) | Commit(target: nat, primary: bool)

  /** Each interface is told its role once, in order. */
  function Commits(n: nat, primary: bool): seq<Call> {
    if n == 0 then [] else Commits(n - 1, primary) + [Commit(n - 1, primary)]
  }

  /** Every interface is told once, in order, and all of them the same role. */
  lemma {:induction false} CommitsTell(n: nat, primary: bool, k: nat)
    requires k < n
    ensures |Commits(n, primary)| == n && Commits(n, primary)[k] == Commit(k, primary)
  {
    if k < n - 1 {
      CommitsTell(n - 1, primary, k);
    } else {
      CommitsLength(n - 1, primary);
    }
  }

  lemma {:induction false} CommitsLength(n: nat, primary: bool)
    ensures |Commits(n, primary)| == n
  {
    if n > 0 { CommitsLength(n - 1, primary); }
  }

  /** The interface for a type is the first one that registers it, if there is one. */
  lemma {:induction false} InterfaceIsFirst(infs: seq<Interface>, i: nat, ty: nat, k: nat)
    requires i <= k < |infs| && ty in TypesOf(infs[k])
    ensures InterfaceFrom(infs, i, ty).Some? && InterfaceFrom(infs, i, ty).value <= k
    decreases k - i
  {
    if ty !in TypesOf(infs[i]) { InterfaceIsFirst(infs, i + 1, ty, k); }
  }

  function TotalTypes(infs: seq<Interface>, i: nat): nat
    requires i <= |infs|
    decreases |infs| - i
  {
    if i == |infs| then 0 else |TypesOf(infs[i])| + TotalTypes(infs, i + 1)
  }

  lemma OctetSum(n: nat, k: nat, t: nat)
    ensures ((n + k) % 256 + t) % 256 == (n + (k + t)) % 256
  {
  }

  predicate Known(infs: seq<Interface>, o: Object) {
    InterfaceFor(infs, o.ty).Some?
  }

  /** Some interface registers the types of the first k objects. */
  predicate KnownBelow(infs: seq<Interface>, os: seq<Object>, k: nat)
    requires k <= |os|
  {
    forall j {:trigger Known(infs, os[j])} :: 0 <= j < k ==> Known(infs, os[j])
  }

  predicate AllKnown(infs: seq<Interface>, os: seq<Object>) {
    KnownBelow(infs, os, |os|)
  }

  predicate Ready(infs: seq<Interface>, e: Entry) {
    Known(infs, e.obj) && e.status == Failure
  }

  /** The objects of the list have a client that has not been given them yet. */
  predicate Waiting(infs: seq<Interface>, list: seq<Entry>) {
    forall k {:trigger Ready(infs, list[k])} :: 0 <= k < |list| ==> Ready(infs, list[k])
  }

  /** The clients of the first k objects accept them. */
  predicate AcceptedBelow(infs: seq<Interface>, verdict: Verdict, list: seq<Entry>, k: nat)
    requires k <= |list|
  {
    forall j {:trigger Judge(infs, verdict, list[j])} :: 0 <= j < k ==> Judge(infs, verdict, list[j]).status != Failure
  }

  predicate AllAccepted(infs: seq<Interface>, verdict: Verdict, list: seq<Entry>) {
    AcceptedBelow(infs, verdict, list, |list|)
  }

  /** The entries made of arriving objects; the allocator hands out fresh addresses. */
  function Entries(os: seq<Object>, id: nat): (r: seq<Entry>)
    ensures |r| == |os|
  {
    if os == [] then []
    else Entries(os[..|os| - 1], id) + [Entry(os[|os| - 1], id + |os| - 1, Failure)]
  }

  function Judge(infs: seq<Interface>, verdict: Verdict, e: Entry): Entry {
    match InterfaceFor(infs, e.obj.ty) case None => e case Some(i) => e.(status := verdict(i, e.obj))
  }

  /** The list after every client has been given its object. */
  function Judged(infs: seq<Interface>, verdict: Verdict, list: seq<Entry>): (r: seq<Entry>)
    ensures |r| == |list|
  {
    if list == [] then []
    else Judged(infs, verdict, list[..|list| - 1]) + [Judge(infs, verdict, list[|list| - 1])]
  }

  /** Who is given the object of an entry. */
  function Handed(infs: seq<Interface>, e: Entry): seq<Call> {
    match InterfaceFor(infs, e.obj.ty) case None => [] case Some(i) => [Delivery(i, e.id, e.obj)]
  }

  /** Which interface is given which object, in list order. */
  function Deliveries(infs: seq<Interface>, list: seq<Entry>): seq<Call> {
    if list == [] then []
    else Deliveries(infs, list[..|list| - 1]) + Handed(infs, list[|list| - 1])
  }

  function Ids(list: seq<Entry>): seq<nat> {
    if list == [] then [] else Ids(list[..|list| - 1]) + [list[|list| - 1].id]
  }

  /** The addresses freed with the list, and those its clients have kept. */
  function FreedIds(list: seq<Entry>): seq<nat> {
    if list == [] then []
    else
      var e := list[|list| - 1];
      FreedIds(list[..|list| - 1]) + (if e.status == DontFreeObject then [] else [e.id])
  }

  function KeptIds(list: seq<Entry>): seq<nat> {
    if list == [] then []
    else
      var e := list[|list| - 1];
      KeptIds(list[..|list| - 1]) + (if e.status == DontFreeObject then [e.id] else [])
  }

  /** How often an address occurs in the list, among the freed and among the kept. */
  function Places(list: seq<Entry>, freed: seq<nat>, kept: seq<nat>, id: nat): nat {
    multiset(Ids(list))[id] + multiset(freed)[id] + multiset(kept)[id]
  }

  /** Every object handed out is in the list, freed or kept by its client, and in one of
      them once. */
  ghost predicate Conserved(list: seq<Entry>, freed: seq<nat>, kept: seq<nat>, handed: nat) {
    forall id: nat {:trigger Places(list, freed, kept, id)} ::
      Places(list, freed, kept, id) == if id < handed then 1 else 0
  }

  lemma IdsAppend(list: seq<Entry>, e: Entry)
    ensures Ids(list + [e]) == Ids(list) + [e.id]
  {
    assert (list + [e])[..|list|] == list;
  }

  lemma {:induction false} ListSplits(list: seq<Entry>)
    ensures multiset(Ids(list)) == multiset(FreedIds(list)) + multiset(KeptIds(list))
  {
    if list != [] {
      ListSplits(list[..|list| - 1]);
    }
  }

  lemma {:induction false} JudgedIds(infs: seq<Interface>, verdict: Verdict, list: seq<Entry>)
    ensures Ids(Judged(infs, verdict, list)) == Ids(list)
  {
    if list != [] {
      JudgedIds(infs, verdict, list[..|list| - 1]);
      IdsAppend(Judged(infs, verdict, list[..|list| - 1]), Judge(infs, verdict, list[|list| - 1]));
    }
  }

  lemma ReceiveConserves(list: seq<Entry>, freed: seq<nat>, kept: seq<nat>, handed: nat, o: Object)
    requires Conserved(list, freed, kept, handed)
    ensures Conserved(list + [Entry(o, handed, Failure)], freed, kept, handed + 1)
  {
    var more := list + [Entry(o, handed, Failure)];
    IdsAppend(list, Entry(o, handed, Failure));
    forall id: nat ensures Places(more, freed, kept, id) == if id < handed + 1 then 1 else 0 {
      assert Places(list, freed, kept, id) == if id < handed then 1 else 0;
    }
  }

  lemma ReleaseConserves(list: seq<Entry>, freed: seq<nat>, kept: seq<nat>, handed: nat)
    requires Conserved(list, freed, kept, handed)
    ensures Conserved([], freed + FreedIds(list), kept + KeptIds(list), handed)
  {
    ListSplits(list);
    forall id: nat
      ensures Places([], freed + FreedIds(list), kept + KeptIds(list), id) == if id < handed then 1 else 0
    {
      assert Places(list, freed, kept, id) == if id < handed then 1 else 0;
    }
  }

  lemma JudgeConserves(infs: seq<Interface>, verdict: Verdict, list: seq<Entry>,
                       freed: seq<nat>, kept: seq<nat>, handed: nat)
    requires Conserved(list, freed, kept, handed)
    ensures Conserved(Judged(infs, verdict, list), freed, kept, handed)
  {
    JudgedIds(infs, verdict, list);
    forall id: nat ensures Places(Judged(infs, verdict, list), freed, kept, id) == if id < handed then 1 else 0 {
      assert Places(list, freed, kept, id) == if id < handed then 1 else 0;
    }
  }

  /** The list when the first k objects have been given to their clients. */
  function PartlyJudged(infs: seq<Interface>, verdict: Verdict, list: seq<Entry>, k: nat): (r: seq<Entry>)
    requires k <= |list|
    ensures |r| == |list|
  {
    Judged(infs, verdict, list[..k]) + list[k..]
  }

  lemma {:induction false} PartlyJudgedEnds(infs: seq<Interface>, verdict: Verdict, list: seq<Entry>)
    ensures PartlyJudged(infs, verdict, list, 0) == list
    ensures PartlyJudged(infs, verdict, list, |list|) == Judged(infs, verdict, list)
    ensures Deliveries(infs, list[..0]) == [] && Deliveries(infs, list[..|list|]) == Deliveries(infs, list)
  {
    assert list[..|list|] == list;
  }

  /** Judging the entry at k extends the judged part of the list by one. */
  lemma JudgedStep(infs: seq<Interface>, verdict: Verdict, list: seq<Entry>, k: nat)
    requires k < |list| && Known(infs, list[k].obj)
    ensures var e := list[k];
      && PartlyJudged(infs, verdict, list, k)[k] == e
      && PartlyJudged(infs, verdict, list, k)[k := Judge(infs, verdict, e)] == PartlyJudged(infs, verdict, list, k + 1)
  {
    assert list[..k + 1][..k] == list[..k];
  }

  lemma DeliveriesStep(infs: seq<Interface>, list: seq<Entry>, k: nat, log: seq<Call>)
    requires k < |list|
    ensures log + Deliveries(infs, list[..k + 1]) == (log + Deliveries(infs, list[..k])) + Handed(infs, list[k])
  {
    assert list[..k + 1][..k] == list[..k];
  }

  lemma EntriesStep(os: seq<Object>, k: nat, id: nat)
    requires k < |os|
    ensures Entries(os[..k + 1], id) == Entries(os[..k], id) + [Entry(os[k], id + k, Failure)]
  {
    assert os[..k + 1][..k] == os[..k];
  }

  lemma {:induction false} OctetsLeft(os: seq<Object>, k: nat)
    requires k <= |os| && forall o :: o in os ==> o.size > 0
    ensures Octets(os) == Octets(os[..k]) + Octets(os[k..])
    ensures Octets(os[k..]) > 0 <==> k < |os|
  {
    if k == 0 {
      assert os[0..] == os;
    } else {
      OctetsLeft(os[1..], k - 1);
      assert os[1..][..k - 1] == os[..k][1..] && os[1..][k - 1..] == os[k..];
    }
  }

  /** What conservation means for one object: it is never freed twice, never freed and
      kept, and once the list is gone it has been freed or kept. */
  lemma FreedExactlyOnce(list: seq<Entry>, freed: seq<nat>, kept: seq<nat>, handed: nat, id: nat)
    requires Conserved(list, freed, kept, handed) && id < handed
    ensures multiset(freed)[id] + multiset(kept)[id] <= 1
    ensures list == [] ==> multiset(freed)[id] + multiset(kept)[id] == 1
  {
    assert Places(list, freed, kept, id) == 1;
  }

  /** An address has been freed once, or kept once by its client. */
  predicate GoneTo(id: nat, keeps: bool, freed: seq<nat>, kept: seq<nat>) {
    multiset(freed)[id] == (if keeps then 0 else 1) && multiset(kept)[id] == (if keeps then 1 else 0)
  }

  /** Every entry has gone where its status says. */
  ghost predicate Gone(list: seq<Entry>, freed: seq<nat>, kept: seq<nat>) {
    forall k {:trigger list[k]} :: 0 <= k < |list| ==>
      GoneTo(list[k].id, list[k].status == DontFreeObject, freed, kept)
  }

  /** The client of an object keeps it. */
  predicate Keeps(infs: seq<Interface>, verdict: Verdict, o: Object) {
    InterfaceFor(infs, o.ty).Some? && verdict(InterfaceFor(infs, o.ty).value, o) == DontFreeObject
  }

  /** Every object that has been delivered has gone where its client says, and every other
      one has been freed. */
  ghost predicate Decided(infs: seq<Interface>, verdict: Verdict, delivered: bool, list: seq<Entry>,
                          freed: seq<nat>, kept: seq<nat>) {
    forall k {:trigger list[k]} :: 0 <= k < |list| ==>
      GoneTo(list[k].id, delivered && Keeps(infs, verdict, list[k].obj), freed, kept)
  }

  /** The same of objects that have been handed out in a row, the first one as `id`. */
  ghost predicate ObjectsDecided(infs: seq<Interface>, verdict: Verdict, os: seq<Object>, id: nat,
                                 freed: seq<nat>, kept: seq<nat>) {
    forall k {:trigger os[k]} :: 0 <= k < |os| ==> GoneTo(id + k, Keeps(infs, verdict, os[k]), freed, kept)
  }

  lemma {:induction false} ByStatus(list: seq<Entry>, k: nat)
    requires k < |list|
    ensures if list[k].status == DontFreeObject then multiset(KeptIds(list))[list[k].id] > 0
            else multiset(FreedIds(list))[list[k].id] > 0
  {
    if k < |list| - 1 { ByStatus(list[..|list| - 1], k); }
  }

  /** The ids of a list that is conserved are all different, and none of them is gone. */
  lemma {:induction false} OnceInList(list: seq<Entry>, freed: seq<nat>, kept: seq<nat>, handed: nat, k: nat)
    requires Conserved(list, freed, kept, handed) && k < |list|
    ensures multiset(Ids(list))[list[k].id] == 1
    ensures multiset(freed)[list[k].id] == multiset(kept)[list[k].id] == 0
  {
    ByStatus(list, k);
    ListSplits(list);
    var id := list[k].id;
    assert Places(list, freed, kept, id) == if id < handed then 1 else 0;
  }

  lemma {:induction false} GoneByStatus(list: seq<Entry>, freed: seq<nat>, kept: seq<nat>, handed: nat)
    requires Conserved(list, freed, kept, handed)
    ensures Gone(list, freed + FreedIds(list), kept + KeptIds(list))
  {
    forall k | 0 <= k < |list|
      ensures GoneTo(list[k].id, list[k].status == DontFreeObject, freed + FreedIds(list), kept + KeptIds(list))
    {
      OnceInList(list, freed, kept, handed, k);
      ByStatus(list, k);
      ListSplits(list);
    }
  }

  lemma {:induction false} JudgedAt(infs: seq<Interface>, verdict: Verdict, list: seq<Entry>, k: nat)
    requires k < |list|
    ensures Judged(infs, verdict, list)[k] == Judge(infs, verdict, list[k])
  {
    if k < |list| - 1 { JudgedAt(infs, verdict, list[..|list| - 1], k); }
  }

  /** The verdict of its client decides where an object goes. */
  lemma {:induction false} VerdictDecides(infs: seq<Interface>, verdict: Verdict, delivered: bool, list: seq<Entry>,
                       freed: seq<nat>, kept: seq<nat>)
    requires Waiting(infs, list)
    requires Gone(if delivered then Judged(infs, verdict, list) else list, freed, kept)
    ensures Decided(infs, verdict, delivered, list, freed, kept)
  {
    var last := if delivered then Judged(infs, verdict, list) else list;
    forall k | 0 <= k < |list|
      ensures GoneTo(list[k].id, delivered && Keeps(infs, verdict, list[k].obj), freed, kept)
    {
      assert Ready(infs, list[k]);
      JudgedAt(infs, verdict, list, k);
      assert GoneTo(last[k].id, last[k].status == DontFreeObject, freed, kept);
    }
  }

  lemma {:induction false} UndeliveredAreFreed(infs: seq<Interface>, list: seq<Entry>)
    requires Waiting(infs, list)
    ensures FreedIds(list) == Ids(list) && KeptIds(list) == []
  {
    if list != [] {
      var front := list[..|list| - 1];
      assert Ready(infs, list[|list| - 1]);
      forall k | 0 <= k < |front| ensures Ready(infs, front[k]) {
        assert Ready(infs, list[k]);
      }
      UndeliveredAreFreed(infs, front);
    }
  }

  datatype MarshalState = Initialized | Marshaling | Unmarshaling

  class HandoverApp {
    const interfaces: seq<Interface>
    var state: MarshalState
    var currInterface: Option<nat>
    var currType: nat
    var list: seq<Entry>
    var listSize: nat
    var handed: nat
    ghost var freed: seq<nat>
    ghost var kept: seq<nat>
    ghost var calls: seq<Call>

    ghost predicate Valid()
      reads this
    {
      && CursorValid()
      && (state != Unmarshaling ==> list == [])
      && |list| <= listSize
      && Waiting(interfaces, list)
      && Conserved(list, freed, kept, handed)
    }

    ghost predicate CursorValid()
      reads this
    {
      && (currInterface.Some? ==>
           && currInterface.value < |interfaces|
           && interfaces[currInterface.value].types.Some?
           && currType <= |TypesOf(interfaces[currInterface.value])|)
    }

    /** Initialisation registers the interfaces; nothing is being handed over. */
    constructor (infs: seq<Interface>)
      ensures Valid() && interfaces == infs && state == Initialized && currInterface == None
      ensures freed == kept == [] && calls == []
    {
      interfaces := infs;
      state, currInterface, currType := Initialized, None, 0;
      list, listSize, handed := [], 0, 0;
      freed, kept, calls := [], [], [];
    }

    /** The objects that marshalling still has to produce. */
    ghost function Pending(offer: Offer): seq<Object>
      requires CursorValid()
      reads this
    {
      match state
      case Initialized => Emission(interfaces, offer)
      case Marshaling => Rest(interfaces, offer, currInterface, currType)
      case Unmarshaling => []
    }

    method GetNextInterface() returns (next: Option<nat>)
      requires CursorValid()
      ensures next == NextInterface(interfaces, if currInterface.Some? then currInterface.value + 1 else 0)
    {
      var i := 0;
      if currInterface.Some? {
        i := currInterface.value + 1;
      }
      ghost var start := i;
      while i < |interfaces|
        invariant i <= |interfaces|
        invariant NextInterface(interfaces, i) == NextInterface(interfaces, start)
      {
        if interfaces[i].types.Some? {
          return Some(i);
        }
        i := i + 1;
      }
      return None;
    }

    /** The object at the cursor does not fit behind `out`. */
    ghost predicate Stuck(offer: Offer, out: seq<Object>, space: nat)
      requires CursorValid()
      reads this
    {
      && currInterface.Some?
      && var rest := Rest(interfaces, offer, currInterface, currType);
         rest != [] && Octets(out) + rest[0].size > space && rest[0].ty in TypesOf(interfaces[currInterface.value])
    }

    /** The marshalling library: an object is appended as a whole, or refused. */
    static method Append(sofar: seq<Object>, o: Object, space: nat) returns (ok: bool, out: seq<Object>)
      requires Octets(sofar) <= space
      ensures ok <==> Octets(sofar) + o.size <= space
      ensures out == if ok then sofar + [o] else sofar
      ensures Octets(out) <= space
    {
      OctetsAppend(sofar, o);
      ok := Octets(sofar) + o.size <= space;
      out := if ok then sofar + [o] else sofar;
    }

    /** Offers the type at the cursor to its callback and appends the object, if it
        fits; then moves to the next type. */
    method MarshalType(offer: Offer, space: nat, sofar: seq<Object>) returns (marshalled: bool, out: seq<Object>)
      requires CursorValid() && currInterface.Some? && currType < |TypesOf(interfaces[currInterface.value])|
      requires Octets(sofar) <= space
      modifies this`currType
      ensures CursorValid() && Octets(out) <= space
      ensures currType == old(currType) + (if marshalled then 1 else 0)
      ensures out + Rest(interfaces, offer, currInterface, currType)
           == sofar + Rest(interfaces, offer, currInterface, old(currType))
      ensures !marshalled ==> Stuck(offer, out, space)
    {
      var i := currInterface.value;
      var ty := TypesOf(interfaces[i])[currType];
      CursorAppend(interfaces, offer, currInterface, currType, sofar);
      assert Octets(sofar + []) <= space by { assert sofar + [] == sofar; }
      marshalled, out := true, sofar + [];
      if (i, ty) in offer {
        var o := Object(ty, offer[(i, ty)].0, offer[(i, ty)].1);
        marshalled, out := Append(sofar, o, space);
        if !marshalled {
          return;
        }
      }
      assert out == sofar + Answer(offer, i, ty);
      currType := currType + 1;
    }

    /** Marshals the rest of the types of the current interface behind `sofar`. */
    method MarshalInterface(offer: Offer, space: nat, sofar: seq<Object>)
      returns (marshalled: bool, out: seq<Object>)
      requires CursorValid() && currInterface.Some? && Octets(sofar) <= space
      modifies this`currType
      ensures CursorValid() && Octets(out) <= space
      ensures out + Rest(interfaces, offer, currInterface, currType)
           == sofar + Rest(interfaces, offer, currInterface, old(currType))
      ensures marshalled ==> currType == |TypesOf(interfaces[currInterface.value])|
      ensures !marshalled ==> Stuck(offer, out, space)
    {
      out := sofar;
      marshalled := true;
      ghost var goal := sofar + Rest(interfaces, offer, currInterface, currType);
      var end := |TypesOf(interfaces[currInterface.value])|;
      while currType < end
        invariant CursorValid() && marshalled && Octets(out) <= space
        invariant out + Rest(interfaces, offer, currInterface, currType) == goal
      {
        marshalled, out := MarshalType(offer, space, out);
        if !marshalled {
          return;
        }
      }
    }

    /** Starts marshalling at the first interface with types, if there is one. */
    method BeginMarshal(ghost offer: Offer)
      requires CursorValid() && state == Initialized
      modifies this`state, this`currInterface, this`currType
      ensures CursorValid() && currInterface == NextInterface(interfaces, 0)
      ensures state == if currInterface.None? then Initialized else Marshaling
      ensures Pending(offer) == old(Pending(offer)) && (currInterface.None? ==> Pending(offer) == [])
    {
      SkipUntyped(interfaces, offer, 0);
      currInterface := None;
      currInterface := GetNextInterface();
      if currInterface.Some? {
        state := Marshaling;
        currType := 0;
      }
    }

    method MoveToNextInterface(ghost offer: Offer)
      requires CursorValid() && currInterface.Some? && currType == |TypesOf(interfaces[currInterface.value])|
      modifies this`currInterface, this`currType
      ensures CursorValid() && (currInterface.Some? ==> currInterface.value > old(currInterface).value)
      ensures Rest(interfaces, offer, currInterface, currType) == old(Rest(interfaces, offer, currInterface, currType))
    {
      CursorEnd(interfaces, offer, currInterface.value);
      var next := GetNextInterface();
      currInterface := next;
      if next.Some? {
        currType := 0;
      }
    }

    method MarshalRemaining(offer: Offer, space: nat) returns (marshalled: bool, out: seq<Object>)
      requires CursorValid()
      modifies this`currInterface, this`currType
      ensures CursorValid() && Octets(out) <= space
      ensures out + Rest(interfaces, offer, currInterface, currType)
           == old(Rest(interfaces, offer, currInterface, currType))
      ensures if marshalled then currInterface.None? else Stuck(offer, out, space)
    {
      out := [];
      marshalled := true;
      while marshalled && currInterface.Some?
        invariant CursorValid() && Octets(out) <= space
        invariant out + Rest(interfaces, offer, currInterface, currType)
               == old(Rest(interfaces, offer, currInterface, currType))
        invariant !marshalled ==> Stuck(offer, out, space)
        decreases if currInterface.Some? then |interfaces| - currInterface.value else 0, marshalled
      {
        marshalled, out := MarshalInterface(offer, space, out);
        if marshalled {
          MoveToNextInterface(offer);
        }
      }
    }

    /** A call while marshalling. */
    method MarshalChunk(offer: Offer, space: nat) returns (done: bool, out: seq<Object>)
      requires CursorValid() && state == Marshaling
      modifies this`currInterface, this`currType
      ensures CursorValid() && Emitted(old(Pending(offer)), space, out, Pending(offer), done)
      ensures if done then currInterface == None else Stuck(offer, out, space)
    {
      done, out := MarshalRemaining(offer, space);
      FitUnique(out, Rest(interfaces, offer, currInterface, currType), space);
    }

    /** One call of the marshal interface. It never panics while the application is not
        unmarshalling, emits the longest part of what is pending that fits into the
        buffer, leaves exactly the rest pending, and returns true just when nothing is.
        If it stops early, the cursor is at the interface of the object that did not
        fit; otherwise no interface is current. */
    method Marshal(offer: Offer, space: nat) returns (panic: bool, done: bool, out: seq<Object>)
      requires Valid()
      modifies this`state, this`currInterface, this`currType
      ensures Valid()
      ensures panic <==> old(state) == Unmarshaling
      ensures panic ==> unchanged(this)
      ensures !panic ==> Emitted(old(Pending(offer)), space, out, Pending(offer), done)
      ensures !panic ==> if done then currInterface == None else state == Marshaling && Stuck(offer, out, space)
      ensures !panic ==>
        (state == Initialized <==> NextInterface(interfaces, 0) == None && old(state) == Initialized)
      ensures !panic ==> state != Unmarshaling
    {
      out := [];
      if state == Unmarshaling {
        return true, false, out;
      }
      panic := false;
      if state == Initialized {
        BeginMarshal(offer);
        if currInterface.None? {
          return false, true, out;
        }
      }
      done, out := MarshalChunk(offer, space);
    }

    method GetInterfaceForType(ty: nat) returns (found: Option<nat>)
      ensures found == InterfaceFor(interfaces, ty)
    {
      for i := 0 to |interfaces|
        invariant InterfaceFrom(interfaces, i, ty) == InterfaceFor(interfaces, ty)
      {
        if interfaces[i].types.Some? {
          var types := interfaces[i].types.value;
          for j := 0 to |types|
            invariant forall k :: 0 <= k < j ==> types[k] != ty
          {
            if types[j] == ty {
              return Some(i);
            }
          }
        }
      }
      return None;
    }

    /** Sizes the list by the registered types, counted in an octet. */
    method InitializeUnmarshalDataList()
      modifies this`list, this`listSize
      ensures list == [] && listSize == TotalTypes(interfaces, 0) % 256
    {
      var n := 0;
      for i := 0 to |interfaces|
        invariant 0 <= n < 256
        invariant (n + TotalTypes(interfaces, i)) % 256 == TotalTypes(interfaces, 0) % 256
      {
        OctetSum(n, |TypesOf(interfaces[i])|, TotalTypes(interfaces, i + 1));
        if interfaces[i].types.Some? {
          n := (n + |interfaces[i].types.value|) % 256;
        }
      }
      list := [];
      listSize := n;
    }

    /** The loop over the list. */
    method FreeEntries()
      modifies this`freed, this`kept
      ensures freed == old(freed) + FreedIds(list) && kept == old(kept) + KeptIds(list)
    {
      for index := 0 to |list|
        invariant freed == old(freed) + FreedIds(list[..index]) && kept == old(kept) + KeptIds(list[..index])
      {
        assert list[..index + 1][..index] == list[..index];
        if list[index].status != DontFreeObject {
          freed := freed + [list[index].id];
        } else {
          kept := kept + [list[index].id];
        }
      }
      assert list[..|list|] == list;
    }

    /** Frees every object its client did not keep, and empties the list. */
    method DeinitializeUnmarshalDataList()
      requires Conserved(list, freed, kept, handed)
      modifies this`list, this`freed, this`kept
      ensures list == [] && Conserved(list, freed, kept, handed)
      ensures freed == old(freed) + FreedIds(old(list)) && kept == old(kept) + KeptIds(old(list))
      ensures Gone(old(list), freed, kept)
    {
      ReleaseConserves(list, freed, kept, handed);
      GoneByStatus(list, freed, kept, handed);
      FreeEntries();
      list := [];
    }

    /** The entries the list still has room for, counting the list a first call makes. */
    ghost function Room(): int
      reads this
    {
      if state == Unmarshaling then listSize - |list| else TotalTypes(interfaces, 0) % 256
    }

    /** Unmarshalling has begun, or may begin: some interface with types lies behind the
        interface where marshalling has stopped. */
    ghost predicate MayUnmarshal()
      requires CursorValid()
      reads this
    {
      || state == Unmarshaling
      || (state == Initialized
          && NextInterface(interfaces, if currInterface.Some? then currInterface.value + 1 else 0).Some?)
    }

    method BeginUnmarshal() returns (panic: bool)
      requires Valid()
      modifies this`state, this`list, this`listSize
      ensures Valid() && list == old(list)
      ensures panic <==> !old(MayUnmarshal())
      ensures !panic ==> state == Unmarshaling && Room() == old(Room())
    {
      if state == Marshaling {
        return true;
      }
      if state == Initialized {
        var next := GetNextInterface();
        if next.None? {
          return true;
        }
        state := Unmarshaling;
        InitializeUnmarshalDataList();
      }
      return false;
    }

    /** Stores one object that the library has taken out of the buffer. */
    method Store(o: Object) returns (panic: bool)
      requires Valid() && state == Unmarshaling && |list| < listSize
      modifies this`list, this`handed
      ensures panic <==> !Known(interfaces, o)
      ensures !panic ==> Valid() && handed == old(handed) + 1 && list == old(list) + [Entry(o, old(handed), Failure)]
    {
      var found := GetInterfaceForType(o.ty);
      if found.None? {
        return true;
      }
      ReceiveConserves(list, freed, kept, handed, o);
      list := list + [Entry(o, handed, Failure)];
      handed := handed + 1;
      return false;
    }

    /** The first k objects of the buffer have been stored behind `before`. */
    ghost predicate Storing(objs: seq<Object>, k: nat, before: seq<Entry>, id: nat)
      requires k <= |objs|
      reads this
    {
      && Valid() && state == Unmarshaling
      && list == before + Entries(objs[..k], id) && handed == id + k
      && KnownBelow(interfaces, objs, k)
    }

    method StoreNext(objs: seq<Object>, k: nat, ghost before: seq<Entry>, ghost id: nat) returns (panic: bool)
      requires k < |objs| && |list| < listSize && Storing(objs, k, before, id)
      modifies this`list, this`handed
      ensures panic <==> !Known(interfaces, objs[k])
      ensures !panic ==> Storing(objs, k + 1, before, id)
    {
      EntriesStep(objs, k, id);
      Regroup(before, Entries(objs[..k], id), [Entry(objs[k], id + k, Failure)]);
      panic := Store(objs[k]);
    }

    /** Takes everything out of the buffer. */
    method StoreAll(objs: seq<Object>, partial: nat, start: nat) returns (panic: bool, done: bool, consumed: nat)
      requires Valid() && state == Unmarshaling && forall o :: o in objs ==> o.size > 0
      requires start < Octets(objs) + partial
      modifies this`list, this`handed
      ensures panic <==> |objs| + (if partial > 0 then 1 else 0) > old(Room()) || !AllKnown(interfaces, objs)
      ensures !panic ==> Storing(objs, |objs|, old(list), old(handed))
      ensures !panic ==> consumed == (if objs == [] then start else Octets(objs)) && (done <==> partial == 0)
    {
      panic, done, consumed := false, true, start;
      ghost var before, id := list, handed;
      var k := 0;
      OctetsLeft(objs, 0);
      assert before + Entries(objs[..0], id) == before;
      while done && consumed < Octets(objs) + partial
        invariant k <= |objs| && Storing(objs, k, before, id)
        invariant consumed == if k == 0 then start else Octets(objs[..k])
        invariant Octets(objs) == Octets(objs[..k]) + Octets(objs[k..]) && (Octets(objs[k..]) > 0 <==> k < |objs|)
        invariant !done ==> k == |objs| && partial > 0 && |list| < listSize
        decreases |objs| - k, done
      {
        if |list| >= listSize {
          return true, false, consumed;
        }
        if k < |objs| {
          panic := StoreNext(objs, k, before, id);
          if panic {
            return;
          }
          OctetsLeft(objs, k + 1);
          k := k + 1;
          consumed := Octets(objs[..k]);
        } else {
          done := false;
        }
      }
      assert objs[..|objs|] == objs;
    }

    /** One call of the unmarshal interface, on a buffer that holds whole objects and
        then `partial` octets of another one, with a count of `start` octets from the
        caller. A count that is not below the size of the buffer makes it take nothing.
        Otherwise it appends, unless it panics, exactly the whole objects to the list and
        asks for more just when some octets are left. */
    method Unmarshal(objs: seq<Object>, partial: nat, start: nat) returns (panic: bool, done: bool, consumed: nat)
      requires Valid() && forall o :: o in objs ==> o.size > 0
      modifies this`state, this`list, this`listSize, this`handed
      ensures panic <==>
        || Octets(objs) + partial == 0
        || !old(MayUnmarshal())
        || (start < Octets(objs) + partial
            && (|objs| + (if partial > 0 then 1 else 0) > old(Room()) || !AllKnown(interfaces, objs)))
      ensures !panic ==> Valid() && state == Unmarshaling
      ensures !panic && start < Octets(objs) + partial ==>
        && Room() == old(Room()) - |objs|
        && list == old(list) + Entries(objs, old(handed)) && handed == old(handed) + |objs|
        && consumed == (if objs == [] then start else Octets(objs)) && (done <==> partial == 0)
      ensures !panic && start >= Octets(objs) + partial ==>
        Room() == old(Room()) && list == old(list) && handed == old(handed) && consumed == start && done
    {
      panic, done, consumed := true, true, start;
      if Octets(objs) + partial == 0 {
        return;
      }
      panic := BeginUnmarshal();
      if panic {
        return;
      }
      if start < Octets(objs) + partial {
        panic, done, consumed := StoreAll(objs, partial, start);
        assert objs[..|objs|] == objs;
      }
    }

    /** The first `index` objects of the list `before` have been delivered and accepted. */
    ghost predicate Delivering(verdict: Verdict, before: seq<Entry>, log: seq<Call>, index: nat)
      requires index <= |before|
      reads this
    {
      && list == PartlyJudged(interfaces, verdict, before, index)
      && calls == log + Deliveries(interfaces, before[..index])
      && AcceptedBelow(interfaces, verdict, before, index)
    }

    /** Gives the object at one index to its interface and notes the result. */
    method Deliver(index: nat, verdict: Verdict, ghost before: seq<Entry>, ghost log: seq<Call>)
      returns (failed: bool)
      requires index < |before| && Ready(interfaces, before[index])
      requires Delivering(verdict, before, log, index)
      modifies this`list, this`calls
      ensures failed <==> Judge(interfaces, verdict, before[index]).status == Failure
      ensures !failed ==> Delivering(verdict, before, log, index + 1)
    {
      JudgedStep(interfaces, verdict, before, index);
      DeliveriesStep(interfaces, before, index, log);
      var e := list[index];
      var found := GetInterfaceForType(e.obj.ty);
      calls := calls + [Delivery(found.value, e.id, e.obj)];
      var result := verdict(found.value, e.obj);
      list := list[index := e.(status := result)];
      failed := result == Failure;
    }

    /** The loop over the list. */
    method DeliverAll(verdict: Verdict, ghost before: seq<Entry>, ghost log: seq<Call>) returns (failed: bool)
      requires Waiting(interfaces, before) && Delivering(verdict, before, log, 0)
      modifies this`list, this`calls
      ensures failed <==> !AllAccepted(interfaces, verdict, before)
      ensures !failed ==> Delivering(verdict, before, log, |before|)
    {
      var index := 0;
      while index < |list|
        invariant index <= |list| == |before|
        invariant Delivering(verdict, before, log, index)
      {
        assert Ready(interfaces, before[index]);
        failed := Deliver(index, verdict, before, log);
        if failed {
          return;
        }
        index := index + 1;
      }
      return false;
    }

    /** Gives every object in the list to the interface that registered its type. */
    method ClientUnmarshal(verdict: Verdict) returns (panic: bool)
      requires Waiting(interfaces, list)
      modifies this`list, this`calls
      ensures panic <==> state != Unmarshaling || !AllAccepted(interfaces, verdict, old(list))
      ensures !panic ==> list == Judged(interfaces, verdict, old(list))
      ensures !panic ==> calls == old(calls) + Deliveries(interfaces, old(list))
    {
      if state != Unmarshaling {
        return true;
      }
      ghost var before := list;
      PartlyJudgedEnds(interfaces, verdict, before);
      assert calls + [] == calls;
      panic := DeliverAll(verdict, before, calls);
    }

    method DeinitializeMarshaller()
      requires CursorValid() && Conserved(list, freed, kept, handed) && (state != Unmarshaling ==> list == [])
      modifies this`state, this`list, this`freed, this`kept
      ensures Valid() && state == Initialized && list == []
      ensures freed == old(freed) + FreedIds(old(list)) && kept == old(kept) + KeptIds(old(list))
      ensures Gone(old(list), freed, kept)
    {
      if state == Unmarshaling {
        DeinitializeUnmarshalDataList();
      } else {
        assert FreedIds(list) == KeptIds(list) == [];
        assert freed + [] == freed && kept + [] == kept;
      }
      state := Initialized;
    }

    /** Tells every interface its new role. */
    method CommitAll(primary: bool)
      modifies this`calls
      ensures calls == old(calls) + Commits(|interfaces|, primary)
    {
      var i := 0;
      while i < |interfaces|
        invariant i <= |interfaces| && calls == old(calls) + Commits(i, primary)
      {
        Regroup(old(calls), Commits(i, primary), [Commit(i, primary)]);
        calls := calls + [Commit(i, primary)];
        i := i + 1;
      }
    }

    /** The end of a handover. The new primary must have been unmarshalling, and no
        client may fail; then every object has been delivered once, to the interface of
        its type, and is freed unless that client keeps it. After that every interface
        has been told the new role. */
    method Complete(primary: bool, verdict: Verdict) returns (panic: bool)
      requires Valid()
      modifies this`state, this`list, this`freed, this`kept, this`calls
      ensures panic <==>
        (primary && (old(state) != Unmarshaling || !AllAccepted(interfaces, verdict, old(list))))
      ensures !panic ==> Valid() && state == Initialized && list == []
      ensures !panic && primary ==>
        calls == old(calls) + Deliveries(interfaces, old(list)) + Commits(|interfaces|, true)
      ensures !panic && !primary ==> calls == old(calls) + Commits(|interfaces|, false)
      ensures !panic ==>
        var last := if primary then Judged(interfaces, verdict, old(list)) else old(list);
        freed == old(freed) + FreedIds(last) && kept == old(kept) + KeptIds(last)
      ensures !panic ==> Decided(interfaces, verdict, primary, old(list), freed, kept)
    {
      panic := false;
      if primary {
        panic := ClientUnmarshal(verdict);
        if panic {
          return;
        }
        JudgeConserves(interfaces, verdict, old(list), freed, kept, handed);
      }
      CommitAll(primary);
      DeinitializeMarshaller();
      VerdictDecides(interfaces, verdict, primary, old(list), freed, kept);
    }

    /** An abort frees what has not been delivered. It leaves the marshalling cursor
        where it was. */
    method Abort()
      requires Valid()
      modifies this`state, this`list, this`freed, this`kept
      ensures Valid() && state == Initialized && list == []
      ensures freed == old(freed) + Ids(old(list)) && kept == old(kept)
      ensures unchanged(`currInterface) && unchanged(`currType) && unchanged(`calls)
    {
      UndeliveredAreFreed(interfaces, list);
      DeinitializeMarshaller();
    }
  }

  /** No marshal type is registered twice. */
  ghost predicate Unique(ps: seq<(nat, nat)>) {
    forall a, b :: 0 <= a < b < |ps| ==> ps[a].1 != ps[b].1
  }

  lemma {:induction false} TypesFromAt(infs: seq<Interface>, i: nat, j: nat, k: nat)
    requires i < |infs| && j <= |TypesOf(infs[i])|
    ensures |TypesFrom(infs, i, j)| == |TypesOf(infs[i])| - j
    ensures k < |TypesFrom(infs, i, j)| ==> TypesFrom(infs, i, j)[k] == (i, TypesOf(infs[i])[j + k])
    decreases |TypesOf(infs[i])| - j
  {
    if j < |TypesOf(infs[i])| {
      TypesFromAt(infs, i, j + 1, if k > 0 then k - 1 else 0);
    }
  }

  lemma {:induction false} RegisteredLength(infs: seq<Interface>, i: nat)
    requires i <= |infs|
    ensures |Registered(infs, i)| == TotalTypes(infs, i)
    decreases |infs| - i
  {
    if i < |infs| {
      TypesFromAt(infs, i, 0, 0);
      RegisteredLength(infs, i + 1);
    }
  }

  /** In a table without duplicates a registered type is found at its own interface. */
  lemma {:induction false} SourceFound(infs: seq<Interface>, i: nat, n: nat)
    requires i <= |infs| && Unique(Registered(infs, i)) && n < |Registered(infs, i)|
    ensures var p := Registered(infs, i)[n]; InterfaceFrom(infs, i, p.1) == Some(p.0)
    decreases |infs| - i
  {
    var own, rest := TypesFrom(infs, i, 0), Registered(infs, i + 1);
    var types := TypesOf(infs[i]);
    var p := Registered(infs, i)[n];
    TypesFromAt(infs, i, 0, n);
    if n >= |own| {
      forall k | 0 <= k < |types| ensures types[k] != p.1 {
        TypesFromAt(infs, i, 0, k);
        assert Registered(infs, i)[k] == own[k];
      }
      forall a, b | 0 <= a < b < |rest| ensures rest[a].1 != rest[b].1 {
        assert rest[a] == Registered(infs, i)[|own| + a] && rest[b] == Registered(infs, i)[|own| + b];
      }
      SourceFound(infs, i + 1, n - |own|);
    }
  }

  /** Every object comes from the callback of an interface that registered its type. */
  lemma {:induction false} ProvidedSource(offer: Offer, ps: seq<(nat, nat)>, k: nat)
    ensures |Provided(offer, ps)| <= |ps|
    ensures k < |Provided(offer, ps)| ==>
      (var q := Provided(offer, ps)[k];
       (q.0, q.1.ty) in ps && (q.0, q.1.ty) in offer && offer[(q.0, q.1.ty)] == (q.1.data, q.1.size))
  {
    if ps != [] {
      var head := ps[0] in offer;
      ProvidedSource(offer, ps[1..], if head && k > 0 then k - 1 else k);
    }
  }

  lemma {:induction false} ObjectsAt(qs: seq<(nat, Object)>, k: nat)
    ensures |Objects(qs)| == |qs|
    ensures k < |qs| ==> Objects(qs)[k] == qs[k].1
  {
    if qs != [] {
      ObjectsAt(qs[1..], if k > 0 then k - 1 else 0);
    }
  }

  lemma {:induction false} EntriesAt(os: seq<Object>, id: nat, k: nat)
    requires k < |os|
    ensures Entries(os, id)[k] == Entry(os[k], id + k, Failure)
  {
    if k < |os| - 1 {
      EntriesAt(os[..|os| - 1], id, k);
    }
  }

  lemma {:induction false} DeliveriesAt(infs: seq<Interface>, list: seq<Entry>, k: nat)
    requires forall j :: 0 <= j < |list| ==> Known(infs, list[j].obj)
    ensures |Deliveries(infs, list)| == |list|
    ensures k < |list| ==> Known(infs, list[k].obj)
    ensures k < |list| ==>
      Deliveries(infs, list)[k] == Delivery(InterfaceFor(infs, list[k].obj.ty).value, list[k].id, list[k].obj)
  {
    if list != [] {
      assert Known(infs, list[|list| - 1].obj);
      var front := list[..|list| - 1];
      forall j | 0 <= j < |front| ensures Known(infs, front[j].obj) {
        assert Known(infs, list[j].obj);
      }
      DeliveriesAt(infs, front, k);
    }
  }

  /** What a table without duplicates emits is known to the other side. */
  lemma EmissionKnown(infs: seq<Interface>, offer: Offer, k: nat)
    requires Unique(Registered(infs, 0))
    ensures var qs := Provided(offer, Registered(infs, 0));
      && |Emission(infs, offer)| == |qs| <= TotalTypes(infs, 0)
      && (k < |qs| ==> Emission(infs, offer)[k] == qs[k].1
                       && InterfaceFor(infs, qs[k].1.ty) == Some(qs[k].0))
  {
    var ps := Registered(infs, 0);
    var qs := Provided(offer, ps);
    EmissionIsProvided(infs, offer);
    RegisteredLength(infs, 0);
    ProvidedSource(offer, ps, k);
    ObjectsAt(qs, k);
    if k < |qs| {
      var n :| 0 <= n < |ps| && ps[n] == (qs[k].0, qs[k].1.ty);
      SourceFound(infs, 0, n);
    }
  }

  /** The round trip: of all that one side emits, the k-th object is the k-th one the
      other side delivers, and it is delivered to the interface that provided it. */
  lemma HandoverDelivers(infs: seq<Interface>, offer: Offer, id: nat, k: nat)
    requires Unique(Registered(infs, 0))
    ensures var qs := Provided(offer, Registered(infs, 0));
      var ds := Deliveries(infs, Entries(Emission(infs, offer), id));
      |ds| == |qs| && (k < |qs| ==> ds[k] == Delivery(qs[k].0, id + k, qs[k].1))
  {
    var os := Emission(infs, offer);
    var list := Entries(os, id);
    forall j | 0 <= j < |list| ensures Known(infs, list[j].obj) {
      EmissionKnown(infs, offer, j);
      EntriesAt(os, id, j);
    }
    EmissionKnown(infs, offer, k);
    DeliveriesAt(infs, list, k);
    if k < |os| {
      EntriesAt(os, id, k);
    }
  }

  lemma EntriesAppend(os: seq<Object>, o: Object, id: nat)
    ensures Entries(os + [o], id) == Entries(os, id) + [Entry(o, id + |os|, Failure)]
  {
    assert (os + [o])[..|os|] == os;
  }

  lemma {:induction false} EntriesConcat(a: seq<Object>, b: seq<Object>, id: nat)
    ensures Entries(a, id) + Entries(b, id + |a|) == Entries(a + b, id)
  {
    if b == [] {
      assert a + b == a;
    } else {
      var front, o := b[..|b| - 1], b[|b| - 1];
      assert b == front + [o];
      EntriesConcat(a, front, id);
      EntriesAppend(front, o, id + |a|);
      EntriesAppend(a + front, o, id);
      Regroup(a, front, [o]);
      Regroup(Entries(a, id), Entries(front, id + |a|), [Entry(o, id + |a| + |front|, Failure)]);
    }
  }

  /** The registered table fits the receiver's list, and every object takes octets. */
  ghost predicate Transferable(infs: seq<Interface>, offer: Offer) {
    && Unique(Registered(infs, 0)) && TotalTypes(infs, 0) < 256
    && forall o :: o in Emission(infs, offer) ==> o.size > 0
  }

  /** A receiver whose list takes `room` entries can take all these objects. */
  ghost predicate Receivable(infs: seq<Interface>, all: seq<Object>, room: nat) {
    && AllKnown(infs, all) && |all| <= room
    && forall k {:trigger all[k]} :: 0 <= k < |all| ==> all[k].size > 0
  }

  lemma TransferableIsReceivable(infs: seq<Interface>, offer: Offer)
    requires Transferable(infs, offer)
    ensures Receivable(infs, Emission(infs, offer), TotalTypes(infs, 0))
  {
    var os := Emission(infs, offer);
    EmissionKnown(infs, offer, 0);
    forall k | 0 <= k < |os| ensures Known(infs, os[k]) {
      EmissionKnown(infs, offer, k);
    }
  }

  lemma PartReceivable(infs: seq<Interface>, sent: seq<Object>, out: seq<Object>, rest: seq<Object>, room: nat)
    requires Receivable(infs, sent + out + rest, room)
    ensures AllKnown(infs, out) && |sent| + |out| <= room
    ensures forall o :: o in out ==> o.size > 0
  {
    var all := sent + out + rest;
    forall k | 0 <= k < |out| ensures Known(infs, out[k]) && out[k].size > 0 {
      assert all[|sent| + k] == out[k];
      assert Known(infs, all[|sent| + k]);
    }
  }

  /** The receiver holds exactly what has been sent, from address id on, and its list
      takes `room` entries in all. */
  ghost predicate Holds(app: HandoverApp, sent: seq<Object>, room: nat, id: nat, log: seq<Call>)
    reads app
  {
    && app.Valid() && app.MayUnmarshal() && app.Room() + |sent| == room
    && app.list == Entries(sent, id) && app.handed == id + |sent| && app.calls == log
  }

  /** The sender has still to send the rest of `all`; with the buffers left the chunks
      make up `total`. */
  ghost predicate Sends(app: HandoverApp, offer: Offer, sent: seq<Object>, left: seq<nat>,
                        all: seq<Object>, total: seq<Object>)
    reads app
  {
    && app.Valid() && app.state != Unmarshaling
    && sent + app.Pending(offer) == all
    && sent + Flat(Chunks(app.Pending(offer), left)) == total
  }

  /** The cursor is at the interface of the next object, if one is left. */
  ghost predicate AtNext(app: HandoverApp, offer: Offer)
    requires app.Valid()
    reads app
  {
    var rest := app.Pending(offer);
    if rest == [] then app.currInterface == None
    else app.currInterface.Some? && rest[0].ty in TypesOf(app.interfaces[app.currInterface.value])
  }

  method MarshalChunk(primary: HandoverApp, offer: Offer, ghost sent: seq<Object>, left: seq<nat>,
                      ghost all: seq<Object>, ghost total: seq<Object>)
    returns (out: seq<Object>)
    requires left != [] && Sends(primary, offer, sent, left, all, total)
    modifies primary
    ensures Sends(primary, offer, sent + out, left[1..], all, total)
    ensures sent + out + primary.Pending(offer) == all && primary.calls == old(primary.calls)
    ensures AtNext(primary, offer)
  {
    ghost var os := primary.Pending(offer);
    ChunksSplit(os, left);
    var panic, done;
    panic, done, out := primary.Marshal(offer, left[0]);
    Regroup(sent, out, primary.Pending(offer));
    Regroup(sent, out, Flat(Chunks(primary.Pending(offer), left[1..])));
  }

  /** Sends one chunk, unless it is empty. */
  method SendChunk(secondary: HandoverApp, ghost sent: seq<Object>, out: seq<Object>, ghost rest: seq<Object>,
                 ghost room: nat, ghost id: nat, ghost log: seq<Call>)
    returns (panic: bool)
    requires Receivable(secondary.interfaces, sent + out + rest, room) && Holds(secondary, sent, room, id, log)
    modifies secondary
    ensures !panic && Holds(secondary, sent + out, room, id, log)
    ensures out == [] ==> secondary.state == old(secondary.state)
  {
    PartReceivable(secondary.interfaces, sent, out, rest, room);
    EntriesConcat(sent, out, id);
    panic := false;
    if out != [] {
      var done, consumed;
      panic, done, consumed := secondary.Unmarshal(out, 0, 0);
    } else {
      assert sent + out == sent;
    }
  }

  /** One packet: a chunk is marshalled and sent. */
  method Packet(primary: HandoverApp, secondary: HandoverApp, offer: Offer, ghost sent: seq<Object>, left: seq<nat>,
                ghost all: seq<Object>, ghost total: seq<Object>,
                 ghost room: nat, ghost id: nat, ghost log: seq<Call>)
    returns (panic: bool, ghost more: seq<Object>)
    requires primary != secondary && left != [] && Sends(primary, offer, sent, left, all, total)
    requires Receivable(secondary.interfaces, all, room) && Holds(secondary, sent, room, id, log)
    modifies primary, secondary
    ensures !panic && Sends(primary, offer, more, left[1..], all, total) && Holds(secondary, more, room, id, log)
    ensures primary.calls == old(primary.calls)
    ensures more == [] ==> sent == [] && secondary.state == old(secondary.state)
  {
    var out := MarshalChunk(primary, offer, sent, left, all, total);
    panic := SendChunk(secondary, sent, out, primary.Pending(offer), room, id, log);
    more := sent + out;
  }

  method Packets(primary: HandoverApp, secondary: HandoverApp, offer: Offer, sizes: seq<nat>,
                 ghost all: seq<Object>, ghost total: seq<Object>,
                 ghost room: nat, ghost id: nat, ghost log: seq<Call>)
    returns (panic: bool, ghost sent: seq<Object>)
    requires primary != secondary && Sends(primary, offer, [], sizes, all, total)
    requires Receivable(secondary.interfaces, all, room) && Holds(secondary, [], room, id, log)
    modifies primary, secondary
    ensures !panic && Sends(primary, offer, sent, [], all, total) && Holds(secondary, sent, room, id, log)
    ensures primary.calls == old(primary.calls) && (sent == [] ==> secondary.state == old(secondary.state))
  {
    panic := false;
    sent := [];
    var left := sizes;
    while left != []
      invariant !panic && Sends(primary, offer, sent, left, all, total)
      invariant Holds(secondary, sent, room, id, log) && primary.calls == old(primary.calls)
      invariant sent == [] ==> secondary.state == old(secondary.state)
      decreases |left|
    {
      panic, sent := Packet(primary, secondary, offer, sent, left, all, total, room, id, log);
      left := left[1..];
    }
  }

  /** A transfer: chunks are marshalled and sent for the given buffer sizes. Nothing
      panics, and the receiver holds exactly the chunks, in order, for its clients. */
  method Transfer(primary: HandoverApp, secondary: HandoverApp, offer: Offer, sizes: seq<nat>, ghost room: nat)
    returns (panic: bool)
    requires primary != secondary && primary.Valid() && primary.state != Unmarshaling
    requires Receivable(secondary.interfaces, primary.Pending(offer), room)
    requires Holds(secondary, [], room, secondary.handed, secondary.calls)
    modifies primary, secondary
    ensures !panic && primary.Valid() && primary.state != Unmarshaling && primary.calls == old(primary.calls)
    ensures var sent := Flat(Chunks(old(primary.Pending(offer)), sizes));
      && Holds(secondary, sent, room, old(secondary.handed), old(secondary.calls))
      && (sent == [] ==> secondary.state == old(secondary.state))
  {
    ghost var sent, all := [], primary.Pending(offer);
    ghost var total := Flat(Chunks(all, sizes));
    panic, sent := Packets(primary, secondary, offer, sizes, all, total, room, secondary.handed, secondary.calls);
    assert sent == total by {
      assert Chunks(primary.Pending(offer), []) == [];
      assert sent + [] == sent;
    }
  }

  /** A transfer over buffers that each object in turn can rely on brings everything over. */
  method TransferAll(primary: HandoverApp, secondary: HandoverApp, offer: Offer, sizes: seq<nat>, ghost ix: seq<nat>)
    requires primary != secondary && primary.Valid() && primary.state == Initialized
    requires secondary.Valid() && secondary.state == Initialized && secondary.MayUnmarshal()
    requires primary.interfaces == secondary.interfaces && Transferable(primary.interfaces, offer)
    requires Serves(Emission(primary.interfaces, offer), sizes, ix)
    modifies primary, secondary
    ensures primary.Valid() && secondary.Valid()
    ensures primary.calls == old(primary.calls) && secondary.calls == old(secondary.calls)
    ensures secondary.list == Entries(Emission(primary.interfaces, offer), old(secondary.handed))
    ensures secondary.state == if secondary.list == [] then Initialized else Unmarshaling
  {
    ghost var infs, all := primary.interfaces, primary.Pending(offer);
    ghost var room := TotalTypes(infs, 0);
    ChunksComplete(all, sizes, ix);
    TransferableIsReceivable(infs, offer);
    var panic := Transfer(primary, secondary, offer, sizes, room);
  }

  /** Both sides complete in their new roles. */
  method CompleteBoth(primary: HandoverApp, secondary: HandoverApp, verdict: Verdict) returns (panic: bool)
    requires primary != secondary && primary.Valid() && secondary.Valid()
    modifies primary, secondary
    ensures panic <==>
      old(secondary.state) != Unmarshaling || !AllAccepted(secondary.interfaces, verdict, old(secondary.list))
    ensures !panic ==> primary.Valid() && secondary.Valid() && primary.state == secondary.state == Initialized
    ensures !panic ==> primary.calls == old(primary.calls) + Commits(|primary.interfaces|, false)
    ensures var infs := secondary.interfaces;
      !panic ==> secondary.calls == old(secondary.calls) + Deliveries(infs, old(secondary.list)) + Commits(|infs|, true)
    ensures !panic ==>
      Decided(secondary.interfaces, verdict, true, old(secondary.list), secondary.freed, secondary.kept)
  {
    panic := primary.Complete(false, verdict);
    panic := secondary.Complete(true, verdict);
  }

  /** A whole handover: a transfer over buffers that each object in turn can rely on, then
      both sides complete. With nothing to hand over the new primary panics, since it has
      not been unmarshalling. Otherwise nothing panics if every client accepts its object,
      and each object has been delivered on the new primary in the order of its emission;
      HandoverDelivers says to which interface. Only then is every interface on both
      sides told its new role. */
  method Handover(primary: HandoverApp, secondary: HandoverApp, offer: Offer, sizes: seq<nat>, verdict: Verdict,
                  ghost ix: seq<nat>)
    returns (panic: bool)
    requires primary != secondary && primary.Valid() && primary.state == Initialized
    requires secondary.Valid() && secondary.state == Initialized && secondary.MayUnmarshal()
    requires primary.interfaces == secondary.interfaces && Transferable(primary.interfaces, offer)
    requires Serves(Emission(primary.interfaces, offer), sizes, ix)
    modifies primary, secondary
    ensures var infs := primary.interfaces;
      var list := Entries(Emission(infs, offer), old(secondary.handed));
      && (panic <==> list == [] || !AllAccepted(infs, verdict, list))
      && (!panic ==> primary.calls == old(primary.calls) + Commits(|infs|, false))
      && (!panic ==> secondary.calls == old(secondary.calls) + Deliveries(infs, list) + Commits(|infs|, true))
    ensures !panic ==> primary.Valid() && secondary.Valid() && primary.state == secondary.state == Initialized
    ensures var os, id := Emission(primary.interfaces, offer), old(secondary.handed);
      !panic ==> ObjectsDecided(primary.interfaces, verdict, os, id, secondary.freed, secondary.kept)
  {
    ghost var os, id := Emission(primary.interfaces, offer), secondary.handed;
    TransferAll(primary, secondary, offer, sizes, ix);
    panic := CompleteBoth(primary, secondary, verdict);
    if !panic { EntriesDecided(primary.interfaces, verdict, os, id, secondary.freed, secondary.kept); }
  }

  lemma {:induction false} EntriesDecided(infs: seq<Interface>, verdict: Verdict, os: seq<Object>, id: nat,
                       freed: seq<nat>, kept: seq<nat>)
    requires Decided(infs, verdict, true, Entries(os, id), freed, kept)
    ensures ObjectsDecided(infs, verdict, os, id, freed, kept)
  {
    var list := Entries(os, id);
    forall k | 0 <= k < |os| ensures GoneTo(id + k, Keeps(infs, verdict, os[k]), freed, kept) {
      EntriesAt(os, id, k);
      assert GoneTo(list[k].id, true && Keeps(infs, verdict, list[k].obj), freed, kept);
    }
  }

  lemma {:induction false} RegisteredHas(infs: seq<Interface>, start: nat, i: nat, j: nat) returns (n: nat)
    requires start <= i < |infs| && j < |TypesOf(infs[i])|
    ensures n < |Registered(infs, start)| && Registered(infs, start)[n] == (i, TypesOf(infs[i])[j])
    decreases i - start
  {
    TypesFromAt(infs, start, 0, j);
    if start == i {
      n := j;
    } else {
      n := RegisteredHas(infs, start + 1, i, j);
      n := |TypesOf(infs[start])| + n;
    }
  }

  lemma OwnInterface(infs: seq<Interface>, i: nat, ty: nat)
    requires Unique(Registered(infs, 0)) && i < |infs| && ty in TypesOf(infs[i])
    ensures InterfaceFor(infs, ty) == Some(i)
  {
    var j :| 0 <= j < |TypesOf(infs[i])| && TypesOf(infs[i])[j] == ty;
    var n := RegisteredHas(infs, 0, i, j);
    SourceFound(infs, 0, n);
  }

  /** The interface from which marshalling calls with these buffer sizes leave a later
      unmarshalling to look for types, if it is aborted after them: behind that of the
      first object that has not been sent. Without a call it is where it was. */
  function ResumeFrom(infs: seq<Interface>, os: seq<Object>, sizes: seq<nat>, start: nat): nat {
    var sent := |Flat(Chunks(os, sizes))|;
    if sizes == [] then start
    else if sent >= |os| then 0
    else match InterfaceFor(infs, os[sent].ty) case None => 0 case Some(i) => i + 1
  }

  /** The interface behind the current one. */
  ghost function Behind(app: HandoverApp): nat
    reads app
  {
    if app.currInterface.Some? then app.currInterface.value + 1 else 0
  }

  /** Where the cursor stands after all the calls. */
  lemma ResumesBehind(app: HandoverApp, offer: Offer, os: seq<Object>, sizes: seq<nat>, start: nat)
    requires app.Valid() && AtNext(app, offer) && Unique(Registered(app.interfaces, 0)) && sizes != []
    requires Flat(Chunks(os, sizes)) + app.Pending(offer) == os
    ensures ResumeFrom(app.interfaces, os, sizes, start) == Behind(app)
  {
    var sent := Flat(Chunks(os, sizes));
    if app.Pending(offer) != [] {
      assert app.Pending(offer)[0] == os[|sent|];
      OwnInterface(app.interfaces, app.currInterface.value, os[|sent|].ty);
    }
  }

  method MarshalAll(app: HandoverApp, offer: Offer, sizes: seq<nat>)
    requires app.Valid() && app.state == Initialized && Unique(Registered(app.interfaces, 0))
    modifies app
    ensures app.Valid() && app.state != Unmarshaling
    ensures Behind(app) == ResumeFrom(app.interfaces, old(app.Pending(offer)), sizes, old(Behind(app)))
  {
    ghost var sent, os := [], app.Pending(offer);
    ghost var total := Flat(Chunks(os, sizes));
    var left := sizes;
    while left != []
      invariant Sends(app, offer, sent, left, os, total) && |left| <= |sizes|
      invariant if left == sizes then Behind(app) == old(Behind(app)) else AtNext(app, offer)
      decreases |left|
    {
      var out := MarshalChunk(app, offer, sent, left, os, total);
      sent := sent + out;
      left := left[1..];
    }
    if sizes != [] {
      assert Chunks(app.Pending(offer), []) == [];
      assert sent + [] == sent;
      ResumesBehind(app, offer, os, sizes, old(Behind(app)));
    }
  }

  /** An idle earbud is handed one object. */
  method ReceiveOne(app: HandoverApp, o: Object) returns (panic: bool)
    requires app.Valid() && app.state == Initialized && 0 < TotalTypes(app.interfaces, 0) < 256
    requires o.size > 0 && Known(app.interfaces, o)
    modifies app
    ensures panic <==> NextInterface(app.interfaces, old(Behind(app))).None?
  {
    assert Octets([o]) == o.size;
    var done, consumed;
    panic, done, consumed := app.Unmarshal([o], 0, 0);
  }

  /** An earbud that marshals into any number of buffers, is told to abort, and is then
      handed an object: the abort leaves the cursor behind, so it panics exactly when no
      interface with types follows that of the object that was to be sent next. */
  method ReceiveAfterAbort(app: HandoverApp, offer: Offer, sizes: seq<nat>, o: Object) returns (panic: bool)
    requires app.Valid() && app.state == Initialized
    requires Unique(Registered(app.interfaces, 0)) && 0 < TotalTypes(app.interfaces, 0) < 256
    requires o.size > 0 && Known(app.interfaces, o)
    modifies app
    ensures panic <==> NextInterface(app.interfaces,
      ResumeFrom(app.interfaces, Emission(app.interfaces, offer), sizes, old(Behind(app)))).None?
  {
    MarshalAll(app, offer, sizes);
    app.Abort();
    panic := ReceiveOne(app, o);
  }

  lemma {:induction false} EverythingProvided(offer: Offer, ps: seq<(nat, nat)>)
    requires forall p :: p in ps ==> p in offer
    ensures |Provided(offer, ps)| == |ps|
  {
    if ps != [] {
      assert ps[0] in ps;
      EverythingProvided(offer, ps[1..]);
    }
  }

  /** The list is sized in an octet: when every callback provides its object, the
      receiver's list takes them all exactly if fewer than 256 types are registered. */
  lemma FullEmissionFits(infs: seq<Interface>, offer: Offer)
    requires forall p :: p in Registered(infs, 0) ==> p in offer
    ensures |Emission(infs, offer)| <= TotalTypes(infs, 0) % 256 <==> TotalTypes(infs, 0) < 256
  {
    EmissionIsProvided(infs, offer);
    EverythingProvided(offer, Registered(infs, 0));
    ObjectsAt(Provided(offer, Registered(infs, 0)), 0);
    RegisteredLength(infs, 0);
  }
}

/**
 Process-wide client ownership (backend/app/client_lifecycle.py).  Each region that holds the lock
 is one atomic step, and so is each call of a provider's `close`; tasks interleave arbitrarily.
 */
module ClientRegistry {
  import opened Options
  import opened Sequences

  datatype Provider = OpenAI | Tavily

  // Factories are keyed by identity.
  datatype FactoryId = FactoryId(provider: Provider, identity: nat)

  datatype Key = Key(factory: FactoryId, apiKey: string, baseUrl: Option<string>, organization: Option<string>)

  // Equal values are the same object; a factory may hand out one object many times.
  datatype Client = Client(id: nat, closable: bool)

  // `serial` numbers the creations, so that two entries never stand for the same creation.
  datatype Entry = Entry(client: Client, serial: nat)

  type Entries = map<Key, Entry>
  type Factories = map<FactoryId, nat>

  datatype Registry = Registry(clients: Entries, factories: Factories, closing: bool, event: Option<nat>)

  datatype Answer = Rejected | FactoryRaised | Reused(entry: Entry) | Created(entry: Entry)

  // ----- the lock-held regions -----

  // `base_url or None`
  function NonEmpty(text: Option<string>): Option<string> {
    if text == Some("") then None else text
  }

  // The arguments of a call.
  datatype Request =
    | OpenaiRequest(factory: nat, apiKey: string, baseUrl: Option<string>, organization: Option<string>)
    | TavilyRequest(factory: nat, apiKey: string, apiBaseUrl: Option<string>)

  function KeyOf(request: Request): Key {
    match request
    case OpenaiRequest(factory, apiKey, baseUrl, organization) =>
      Key(FactoryId(OpenAI, factory), apiKey, NonEmpty(baseUrl), NonEmpty(organization))
    case TavilyRequest(factory, apiKey, apiBaseUrl) => Key(FactoryId(Tavily, factory), apiKey, NonEmpty(apiBaseUrl), None)
  }

  predicate Missing(text: Option<string>) {
    text == None || text == Some("")
  }

  predicate SameText(a: Option<string>, b: Option<string>) {
    (Missing(a) && Missing(b)) || (!Missing(a) && a == b)
  }

  // One provider, credential, factory and configuration, where an empty text says no more than a missing one.
  predicate SameConfiguration(a: Request, b: Request) {
    match (a, b)
    case (OpenaiRequest(f, k, url, org), OpenaiRequest(f', k', url', org')) =>
      f == f' && k == k' && SameText(url, url') && SameText(org, org')
    case (TavilyRequest(f, k, url), TavilyRequest(f', k', url')) => f == f' && k == k' && SameText(url, url')
    case _ => false
  }

  /** Two calls make the same key exactly if their arguments say the same. */
  lemma KeysAgreeIff(a: Request, b: Request)
    ensures KeyOf(a) == KeyOf(b) <==> SameConfiguration(a, b)
  {
  }

  function Answered(r: Registry, key: Key, produced: Option<Client>, serial: nat): Answer {
    if r.closing then Rejected
    else if key in r.clients then Reused(r.clients[key])
    else if produced.None? then FactoryRaised
    else Created(Entry(produced.value, serial))
  }

  function AfterGet(r: Registry, key: Key, factory: nat, produced: Option<Client>, serial: nat): Registry {
    match Answered(r, key, produced, serial)
    case Created(entry) =>
      r.(clients := r.clients[key := entry],
         factories := if key.factory in r.factories then r.factories else r.factories[key.factory := factory])
    case _ => r
  }

  function AfterBegin(r: Registry, pass: nat): Registry {
    Registry(map[], map[], true, Some(pass))
  }

  function Failed(entries: Entries, failed: set<Client>): Entries {
    map k | k in entries && entries[k].client in failed :: entries[k]
  }

  function FactoriesOf(entries: Entries): set<FactoryId> {
    set k | k in entries :: k.factory
  }

  function AfterFinish(r: Registry, entries: Entries, factories: Factories, failed: set<Client>): Registry {
    if failed == {} then r.(closing := false, event := None)
    else
      var kept := FactoriesOf(Failed(entries, failed));
      Registry(Failed(entries, failed), map f | f in factories && f in kept :: factories[f], false, None)
  }

  function ClientsOf(entries: Entries): set<Client> {
    set k | k in entries :: entries[k].client
  }

  // Each object of the entries once, however many keys share it.
  predicate ListsClients(queue: seq<Client>, entries: Entries) {
    Distinct(queue) && (set c | c in queue) == ClientsOf(entries)
  }

  // ----- the object -----

  class ProcessClients {
    var clients: Entries
    var factories: Factories
    var closing: bool
    var closeFinished: Option<nat>

    function View(): Registry
      reads this
    {
      Registry(clients, factories, closing, closeFinished)
    }

    constructor ()
      ensures View() == Registry(map[], map[], false, None)
    {
      clients, factories, closing, closeFinished := map[], map[], false, None;
    }

    /** `produced` is what the factory returns if it is called. */
    method GetOpenai(apiKey: string, factory: nat, baseUrl: Option<string>, organization: Option<string>,
                     produced: Option<Client>, serial: nat) returns (answer: Answer)
      modifies this
      ensures var key := KeyOf(OpenaiRequest(factory, apiKey, baseUrl, organization));
        && answer == Answered(old(View()), key, produced, serial)
        && View() == AfterGet(old(View()), key, factory, produced, serial)
    {
      var key := Key(FactoryId(OpenAI, factory), apiKey, NonEmpty(baseUrl), NonEmpty(organization));
      answer := Lookup(key, factory, produced, serial);
    }

    method GetTavily(apiKey: string, factory: nat, apiBaseUrl: Option<string>, produced: Option<Client>, serial: nat)
      returns (answer: Answer)
      modifies this
      ensures var key := KeyOf(TavilyRequest(factory, apiKey, apiBaseUrl));
        && answer == Answered(old(View()), key, produced, serial)
        && View() == AfterGet(old(View()), key, factory, produced, serial)
    {
      var key := Key(FactoryId(Tavily, factory), apiKey, NonEmpty(apiBaseUrl), None);
      answer := Lookup(key, factory, produced, serial);
    }

    method Lookup(key: Key, factory: nat, produced: Option<Client>, serial: nat) returns (answer: Answer)
      modifies this
      ensures answer == Answered(old(View()), key, produced, serial)
      ensures View() == AfterGet(old(View()), key, factory, produced, serial)
    {
      if closing {
        return Rejected;
      }
      if key in clients {
        return Reused(clients[key]);
      }
      if produced.None? {
        return FactoryRaised;
      }
      var entry := Entry(produced.value, serial);
      clients := clients[key := entry];
      if key.factory !in factories {
        factories := factories[key.factory := factory];
      }
      return Created(entry);
    }

    /** The first caller owns the pass and takes everything; a later one learns which event to await. */
    method BeginClose(pass: nat)
      returns (owner: bool, awaited: Option<nat>, entries: Entries, taken: Factories, queue: seq<Client>)
      modifies this
      ensures owner == !old(closing)
      ensures !owner ==> View() == old(View()) && awaited == old(closeFinished)
      ensures owner ==> View() == AfterBegin(old(View()), pass) && awaited == Some(pass)
      ensures owner ==> entries == old(clients) && taken == old(factories) && ListsClients(queue, entries)
    {
      entries, taken, queue := map[], map[], [];
      if closing {
        return false, closeFinished, entries, taken, queue;
      }
      closing, closeFinished := true, Some(pass);
      owner, awaited, entries, taken := true, Some(pass), clients, factories;
      var rest := ClientsOf(entries);
      while rest != {}
        invariant Distinct(queue) && rest <= ClientsOf(entries)
        invariant forall c :: c in queue <==> c in ClientsOf(entries) && c !in rest
        decreases rest
      {
        var c :| c in rest;
        queue, rest := queue + [c], rest - {c};
      }
      clients, factories := map[], map[];
    }

    /** Every client is tried; a failure is remembered and the loop goes on. */
    method CloseEach(queue: seq<Client>, succeeds: Client -> bool) returns (failed: set<Client>, firstError: Option<Client>)
      ensures failed == set c | c in queue && c.closable && !succeeds(c)
      ensures firstError.None? <==> failed == {}
      ensures firstError.Some? ==> firstError.value in failed
    {
      failed, firstError := {}, None;
      for n := 0 to |queue|
        invariant failed == set c | c in queue[..n] && c.closable && !succeeds(c)
        invariant firstError.None? <==> failed == {}
        invariant firstError.Some? ==> firstError.value in failed
      {
        var client := queue[n];
        assert queue[..n + 1] == queue[..n] + [client];
        if !client.closable {
          continue;
        }
        if !succeeds(client) {
          failed := failed + {client};
          if firstError == None {
            firstError := Some(client);
          }
        }
      }
      assert queue[..|queue|] == queue;
    }

    method FinishClose(entries: Entries, taken: Factories, failed: set<Client>)
      modifies this
      ensures View() == AfterFinish(old(View()), entries, taken, failed)
    {
      if failed != {} {
        clients := map k | k in entries && entries[k].client in failed :: entries[k];
        var kept := set k | k in entries && entries[k].client in failed :: k.factory;
        factories := map f | f in taken && f in kept :: taken[f];
        assert kept == FactoriesOf(Failed(entries, failed));
      }
      closing := false;
      closeFinished := None;
    }
  }

  // ----- interleavings -----

  datatype Task =
    | Owner(pass: nat, entries: Entries, factories: Factories, queue: seq<Client>, failed: set<Client>)
    | Waiter(pass: nat)
    | Done(pass: nat)

  datatype Call = Call(pass: nat, client: Client, succeeded: bool)
  datatype Retirement = Retirement(pass: nat, client: Client)

  // `made` lists every client created, in order, so that an entry's serial is its place in the list, and
  // `orders` the calls they were created for;
  // `calls` records every call of a provider's close; `retired` every creation that is given up.
  datatype World = World(
    reg: Registry, tasks: map<nat, Task>, owner: Option<nat>, made: seq<Client>, orders: seq<Request>, passes: nat,
    finished: set<nat>, calls: seq<Call>, retired: map<nat, Retirement>)

  datatype Event =
    | Get(request: Request, produced: Option<Client>)
    | BeginPass(task: nat, queue: seq<Client>)
    | CloseNext(task: nat, succeeds: bool)
    | FinishPass(task: nat)
    | Wake(task: nat)

  const START := World(Registry(map[], map[], false, None), map[], None, [], [], 0, {}, [], map[])

  predicate InjectiveSerials(entries: Entries) {
    forall k, l :: k in entries && l in entries && entries[k].serial == entries[l].serial ==> k == l
  }

  function Retired(entries: Entries, failed: set<Client>, pass: nat): map<nat, Retirement>
    requires InjectiveSerials(entries)
  {
    map k | k in entries && entries[k].client !in failed :: entries[k].serial := Retirement(pass, entries[k].client)
  }

  function AnswerTo(w: World, request: Request, produced: Option<Client>): Answer {
    Answered(w.reg, KeyOf(request), produced, |w.made|)
  }

  // An event that is not possible in w leaves w as it is.
  function Apply(w: World, e: Event): World {
    match e
    case Get(request, produced) =>
      var answer := AnswerTo(w, request, produced);
      w.(reg := AfterGet(w.reg, KeyOf(request), request.factory, produced, |w.made|),
         made := if answer.Created? then w.made + [produced.value] else w.made,
         orders := if answer.Created? then w.orders + [request] else w.orders)
    case BeginPass(t, queue) =>
      if t in w.tasks && !w.tasks[t].Done? then w
      else if w.reg.closing then
        if w.reg.event.Some? then w.(tasks := w.tasks[t := Waiter(w.reg.event.value)]) else w
      else if !ListsClients(queue, w.reg.clients) then w
      else w.(reg := AfterBegin(w.reg, w.passes), passes := w.passes + 1, owner := Some(t),
              tasks := w.tasks[t := Owner(w.passes, w.reg.clients, w.reg.factories, queue, {})])
    case CloseNext(t, succeeds) =>
      if t !in w.tasks || !w.tasks[t].Owner? || w.tasks[t].queue == [] then w
      else
        var o := w.tasks[t];
        var c := o.queue[0];
        if !c.closable then w.(tasks := w.tasks[t := o.(queue := o.queue[1..])])
        else w.(tasks := w.tasks[t := o.(queue := o.queue[1..], failed := if succeeds then o.failed else o.failed + {c})],
                calls := w.calls + [Call(o.pass, c, succeeds)])
    case FinishPass(t) =>
      if t !in w.tasks || !w.tasks[t].Owner? || w.tasks[t].queue != [] || !InjectiveSerials(w.tasks[t].entries) then w
      else
        var o := w.tasks[t];
        w.(reg := AfterFinish(w.reg, o.entries, o.factories, o.failed), owner := None,
           finished := w.finished + {o.pass}, tasks := w.tasks[t := Done(o.pass)],
           retired := w.retired + Retired(o.entries, o.failed, o.pass))
    case Wake(t) =>
      if t in w.tasks && w.tasks[t].Waiter? && w.tasks[t].pass in w.finished
      then w.(tasks := w.tasks[t := Done(w.tasks[t].pass)]) else w
  }

  function After(events: seq<Event>): World {
    if events == [] then START else Apply(After(events[..|events| - 1]), events[|events| - 1])
  }

  // ----- what every interleaving keeps -----

  ghost function Serials(entries: Entries): set<nat> {
    set k | k in entries :: entries[k].serial
  }

  ghost function InFlight(w: World): Entries {
    if w.owner.Some? && w.owner.value in w.tasks && w.tasks[w.owner.value].Owner? then w.tasks[w.owner.value].entries
    else map[]
  }

  ghost predicate OneOwner(w: World) {
    && (w.reg.closing <==> w.owner.Some?)
    && (forall t :: t in w.tasks && w.tasks[t].Owner? ==> w.owner == Some(t))
    && (w.owner.Some? ==>
          && w.owner.value in w.tasks && w.tasks[w.owner.value].Owner?
          && w.reg.event == Some(w.tasks[w.owner.value].pass) && w.reg.clients == map[] && w.reg.factories == map[])
    && (w.owner.None? ==> w.reg.event == None)
  }

  ghost predicate FactoriesMatch(w: World) {
    w.reg.factories.Keys == FactoriesOf(w.reg.clients)
  }

  predicate Called(w: World, pass: nat, c: Client) {
    Call(pass, c, true) in w.calls || Call(pass, c, false) in w.calls
  }

  // No provider object is closed twice in one pass.
  ghost predicate CalledOnce(calls: seq<Call>) {
    forall i, j :: 0 <= i < j < |calls| ==> calls[i].pass != calls[j].pass || calls[i].client != calls[j].client
  }

  // What the owner has called, has failed to close, and still has to call.
  ghost predicate OwnerOnTrack(w: World, o: Task)
    requires o.Owner?
  {
    && o.factories.Keys == FactoriesOf(o.entries) && InjectiveSerials(o.entries)
    && o.failed <= ClientsOf(o.entries) && Distinct(o.queue)
    && (forall c :: c in o.queue ==> c in ClientsOf(o.entries) && !Called(w, o.pass, c))
    && (forall c :: c in ClientsOf(o.entries) && c.closable ==> c in o.queue || Called(w, o.pass, c))
    && (forall c :: c in o.failed <==> Call(o.pass, c, false) in w.calls)
  }

  ghost function FirstNumbers(n: nat): (r: set<nat>)
    ensures forall k: nat :: k in r <==> k < n
  {
    if n == 0 then {} else FirstNumbers(n - 1) + {n - 1}
  }

  ghost predicate Partition(a: set<nat>, b: set<nat>, c: set<nat>, whole: set<nat>) {
    && a + b + c == whole
    && a * b == {} && a * c == {} && b * c == {}
  }

  ghost predicate Conserved(w: World) {
    && InjectiveSerials(w.reg.clients)
    && Partition(Serials(w.reg.clients), Serials(InFlight(w)), w.retired.Keys, FirstNumbers(|w.made|))
  }

  lemma Repartition(b: set<nat>, c: set<nat>, back: set<nat>, gone: set<nat>, whole: set<nat>)
    requires Partition({}, b, c, whole) && back + gone == b && back * gone == {}
    ensures Partition(back, {}, c + gone, whole)
  {
  }

  ghost predicate PassesInOrder(w: World) {
    && (forall t :: t in w.tasks ==> w.tasks[t].pass < w.passes)
    && (forall t :: t in w.tasks && w.tasks[t].Waiter? ==> w.tasks[t].pass in w.finished || w.reg.event == Some(w.tasks[t].pass))
    && (forall t :: t in w.tasks && w.tasks[t].Done? ==> w.tasks[t].pass in w.finished)
    && (forall c :: c in w.calls ==> c.pass < w.passes)
    && (forall p :: p in w.finished ==> p < w.passes)
    && (w.reg.event.Some? ==> w.reg.event.value !in w.finished)
  }

  // A retirement of a finished pass, with the call that closed the object if it has a close method.
  ghost predicate Proper(r: Retirement, finished: set<nat>, calls: seq<Call>) {
    r.pass in finished && (r.client.closable ==> Call(r.pass, r.client, true) in calls)
  }

  ghost predicate RetiredProperly(w: World) {
    forall n :: n in w.retired ==> Proper(w.retired[n], w.finished, w.calls)
  }

  // Each entry holds the client that was made as its serial says.
  predicate FromLog(entries: Entries, made: seq<Client>) {
    forall k :: k in entries ==> entries[k].serial < |made| && made[entries[k].serial] == entries[k].client
  }

  predicate RetiredFromLog(retired: map<nat, Retirement>, made: seq<Client>) {
    forall n :: n in retired ==> n < |made| && retired[n].client == made[n]
  }

  ghost predicate Logged(w: World) {
    FromLog(w.reg.clients, w.made) && FromLog(InFlight(w), w.made) && RetiredFromLog(w.retired, w.made)
  }

  ghost predicate Inv(w: World) {
    && OneOwner(w) && FactoriesMatch(w) && Conserved(w) && PassesInOrder(w) && RetiredProperly(w) && CalledOnce(w.calls)
    && (w.owner.Some? ==> OwnerOnTrack(w, w.tasks[w.owner.value]))
  }

  lemma AddedSerial(entries: Entries, key: Key, entry: Entry)
    requires key !in entries
    ensures Serials(entries[key := entry]) == Serials(entries) + {entry.serial}
  {
    var after := entries[key := entry];
    assert key in after && after[key].serial == entry.serial;
    forall n | n in Serials(entries) ensures n in Serials(after) {
      var k :| k in entries && entries[k].serial == n;
      assert k in after && after[k].serial == n;
    }
  }

  lemma GetConserves(w: World, key: Key, entry: Entry)
    requires Conserved(w) && key !in w.reg.clients && entry.serial == |w.made|
    ensures var entries := w.reg.clients[key := entry];
      && InjectiveSerials(entries)
      && Partition(Serials(entries), Serials(InFlight(w)), w.retired.Keys, FirstNumbers(|w.made| + 1))
  {
    AddedSerial(w.reg.clients, key, entry);
    var entries := w.reg.clients[key := entry];
    forall k | k in w.reg.clients ensures w.reg.clients[k].serial < |w.made| {
      assert w.reg.clients[k].serial in Serials(w.reg.clients);
    }
  }

  lemma AddedFactory(entries: Entries, key: Key, entry: Entry)
    requires key !in entries
    ensures FactoriesOf(entries[key := entry]) == FactoriesOf(entries) + {key.factory}
  {
    var after := entries[key := entry];
    assert key in after;
    forall f | f in FactoriesOf(entries) ensures f in FactoriesOf(after) {
      var k :| k in entries && k.factory == f;
      assert k in after;
    }
  }

  lemma GetKeepsInv(w: World, request: Request, produced: Option<Client>)
    requires Inv(w)
    ensures Inv(Apply(w, Get(request, produced)))
  {
    var w' := Apply(w, Get(request, produced));
    var key := KeyOf(request);
    if AnswerTo(w, request, produced).Created? {
      var entry := Entry(produced.value, |w.made|);
      AddedFactory(w.reg.clients, key, entry);
      GetConserves(w, key, entry);
      assert w'.reg.clients == w.reg.clients[key := entry];
    } else {
      assert w' == w;
    }
  }

  lemma WaitingKeepsInv(w: World, t: nat)
    requires Inv(w) && w.reg.event.Some? && (t in w.tasks ==> w.tasks[t].Done?)
    ensures Inv(w.(tasks := w.tasks[t := Waiter(w.reg.event.value)]))
  {
    var w' := w.(tasks := w.tasks[t := Waiter(w.reg.event.value)]);
    assert InFlight(w') == InFlight(w);
    assert OneOwner(w') && PassesInOrder(w');
  }

  lemma TakingConserves(w: World, t: nat, queue: seq<Client>)
    requires OneOwner(w) && Conserved(w) && !w.reg.closing && ListsClients(queue, w.reg.clients) && (t in w.tasks ==> w.tasks[t].Done?)
    ensures Conserved(Apply(w, BeginPass(t, queue)))
  {
    var w' := Apply(w, BeginPass(t, queue));
    assert InFlight(w) == map[] && InFlight(w') == w.reg.clients && w'.reg.clients == map[];
    assert Serials(map[]) == {};
  }

  lemma TakingIsOwned(w: World, t: nat, queue: seq<Client>)
    requires Inv(w) && !w.reg.closing && ListsClients(queue, w.reg.clients) && (t in w.tasks ==> w.tasks[t].Done?)
    ensures var w' := Apply(w, BeginPass(t, queue));
      && OneOwner(w') && PassesInOrder(w') && OwnerOnTrack(w', w'.tasks[t]) && w'.owner == Some(t)
      && FactoriesMatch(w') && RetiredProperly(w') && w'.calls == w.calls
  {
    forall c | c in ClientsOf(w.reg.clients) ensures c in queue { }
    forall c | c in queue ensures c in ClientsOf(w.reg.clients) { }
  }

  lemma BeginKeepsInv(w: World, t: nat, queue: seq<Client>)
    requires Inv(w)
    ensures Inv(Apply(w, BeginPass(t, queue)))
  {
    var w' := Apply(w, BeginPass(t, queue));
    if t in w.tasks && !w.tasks[t].Done? {
      assert w' == w;
    } else if w.reg.closing {
      WaitingKeepsInv(w, t);
    } else if ListsClients(queue, w.reg.clients) {
      TakingConserves(w, t, queue);
      TakingIsOwned(w, t, queue);
    }
  }

  // The owner's next call, as it changes the owner alone.
  lemma OwnerAdvances(w: World, t: nat, succeeds: bool)
    requires t in w.tasks && w.tasks[t].Owner? && OwnerOnTrack(w, w.tasks[t]) && w.tasks[t].queue != []
    ensures var w' := Apply(w, CloseNext(t, succeeds)); w'.tasks[t].Owner? && OwnerOnTrack(w', w'.tasks[t])
  {
    var w' := Apply(w, CloseNext(t, succeeds));
    var o, o' := w.tasks[t], w'.tasks[t];
    var c := o.queue[0];
    assert c in o.queue && w'.calls == if c.closable then w.calls + [Call(o.pass, c, succeeds)] else w.calls;
    forall x | x in o'.queue ensures x in o.queue && x != c {
      var i :| 0 <= i < |o'.queue| && o'.queue[i] == x;
      assert o.queue[i + 1] == x;
    }
    forall x | x in o.queue && x != c ensures x in o'.queue {
      var i :| 0 <= i < |o.queue| && o.queue[i] == x;
      assert o'.queue[i - 1] == x;
    }
  }

  lemma CallsStayOnce(calls: seq<Call>, call: Call)
    requires CalledOnce(calls) && Call(call.pass, call.client, true) !in calls && Call(call.pass, call.client, false) !in calls
    ensures CalledOnce(calls + [call])
  {
    forall i | 0 <= i < |calls| ensures calls[i].pass != call.pass || calls[i].client != call.client {
      assert calls[i] in calls && calls[i] == Call(calls[i].pass, calls[i].client, calls[i].succeeded);
    }
  }

  lemma CloseNextOrders(w: World, t: nat, succeeds: bool)
    requires OneOwner(w) && PassesInOrder(w)
    ensures var w' := Apply(w, CloseNext(t, succeeds));
      OneOwner(w') && PassesInOrder(w') && InFlight(w') == InFlight(w)
  {
  }

  lemma CloseNextKeepsInv(w: World, t: nat, succeeds: bool)
    requires Inv(w)
    ensures Inv(Apply(w, CloseNext(t, succeeds)))
  {
    var w' := Apply(w, CloseNext(t, succeeds));
    CloseNextOrders(w, t, succeeds);
    if t in w.tasks && w.tasks[t].Owner? && w.tasks[t].queue != [] {
      var c := w.tasks[t].queue[0];
      assert c in w.tasks[t].queue;
      CallsStayOnce(w.calls, Call(w.tasks[t].pass, c, succeeds));
      OwnerAdvances(w, t, succeeds);
      forall n | n in w'.retired ensures w'.retired[n] == w.retired[n] { }
    }
  }

  predicate CanFinish(w: World, t: nat) {
    t in w.tasks && w.tasks[t].Owner? && w.tasks[t].queue == [] && InjectiveSerials(w.tasks[t].entries)
  }

  // The owner of a pass is done and nobody owns the next one yet.
  lemma ReleaseKeepsOrder(w: World, w': World, t: nat, pass: nat)
    requires OneOwner(w) && PassesInOrder(w) && t in w.tasks && w.tasks[t].Owner? && w.tasks[t].pass == pass
    requires w'.tasks == w.tasks[t := Done(pass)] && w'.owner == None && w'.finished == w.finished + {pass}
    requires w'.calls == w.calls && w'.passes == w.passes && !w'.reg.closing && w'.reg.event == None
    ensures OneOwner(w') && PassesInOrder(w')
  {
  }

  lemma FinishReleases(w: World, t: nat)
    requires OneOwner(w) && PassesInOrder(w) && CanFinish(w, t)
    ensures var w' := Apply(w, FinishPass(t)); OneOwner(w') && PassesInOrder(w') && w'.calls == w.calls && w'.owner.None?
  {
    ReleaseKeepsOrder(w, Apply(w, FinishPass(t)), t, w.tasks[t].pass);
  }

  // The pass sorts its entries: those that failed go back, the rest are retired.
  lemma SerialsSplit(entries: Entries, failed: set<Client>, pass: nat)
    requires InjectiveSerials(entries)
    ensures var back, gone := Failed(entries, failed), Retired(entries, failed, pass);
      Serials(back) + gone.Keys == Serials(entries) && Serials(back) * gone.Keys == {} && InjectiveSerials(back)
  {
    var back, gone := Failed(entries, failed), Retired(entries, failed, pass);
    forall n | n in Serials(entries) ensures n in Serials(back) + gone.Keys {
      var k :| k in entries && entries[k].serial == n;
      if entries[k].client in failed { assert k in back && back[k].serial == n; } else { assert entries[k].serial in gone; }
    }
    forall n | n in Serials(back) ensures n in Serials(entries) && n !in gone {
      var k :| k in back && back[k].serial == n;
      assert k in entries;
    }
  }

  lemma FinishRegistry(w: World, t: nat)
    requires OneOwner(w) && CanFinish(w, t)
    ensures Apply(w, FinishPass(t)).reg.clients == Failed(w.tasks[t].entries, w.tasks[t].failed) && w.reg.clients == map[]
  {
    if w.tasks[t].failed == {} { assert Failed(w.tasks[t].entries, w.tasks[t].failed) == map[]; }
  }

  lemma NothingInFlight(w: World)
    requires w.owner.None?
    ensures InFlight(w) == map[]
  {
  }

  lemma KeysOfUnion(m: map<nat, Retirement>, more: map<nat, Retirement>)
    ensures (m + more).Keys == m.Keys + more.Keys
  {
  }

  lemma FinishHands(w: World, t: nat)
    requires OneOwner(w) && CanFinish(w, t)
    ensures var w' := Apply(w, FinishPass(t)); var o := w.tasks[t];
      && w'.made == w.made && InFlight(w) == o.entries && InFlight(w') == map[]
      && w'.retired.Keys == w.retired.Keys + Retired(o.entries, o.failed, o.pass).Keys
  {
    NothingInFlight(Apply(w, FinishPass(t)));
    KeysOfUnion(w.retired, Retired(w.tasks[t].entries, w.tasks[t].failed, w.tasks[t].pass));
  }

  lemma FinishConserves(w: World, t: nat)
    requires OneOwner(w) && Conserved(w) && CanFinish(w, t)
    ensures Conserved(Apply(w, FinishPass(t)))
  {
    var o := w.tasks[t];
    FinishRegistry(w, t);
    FinishHands(w, t);
    SerialsSplit(o.entries, o.failed, o.pass);
    assert Serials(map[]) == {};
    Repartition(Serials(o.entries), w.retired.Keys, Serials(Failed(o.entries, o.failed)),
                Retired(o.entries, o.failed, o.pass).Keys, FirstNumbers(|w.made|));
  }

  lemma FinishKeepsFactories(w: World, t: nat)
    requires Inv(w) && CanFinish(w, t)
    ensures FactoriesMatch(Apply(w, FinishPass(t)))
  {
    var o := w.tasks[t];
    var back := Failed(o.entries, o.failed);
    if o.failed != {} {
      forall f | f in FactoriesOf(back) ensures f in o.factories {
        var k :| k in back && k.factory == f;
        assert k in o.entries;
      }
    }
  }

  lemma PassRetiresProperly(w: World, o: Task)
    requires o.Owner? && OwnerOnTrack(w, o) && o.queue == []
    ensures var gone := Retired(o.entries, o.failed, o.pass);
      forall n :: n in gone ==> Proper(gone[n], w.finished + {o.pass}, w.calls)
  {
    var gone := Retired(o.entries, o.failed, o.pass);
    forall n | n in gone ensures Proper(gone[n], w.finished + {o.pass}, w.calls) {
      var k :| k in o.entries && o.entries[k].client !in o.failed && o.entries[k].serial == n
        && gone[n] == Retirement(o.pass, o.entries[k].client);
      assert o.entries[k].client in ClientsOf(o.entries);
    }
  }

  lemma FinishRetiresProperly(w: World, t: nat)
    requires Inv(w) && CanFinish(w, t)
    ensures RetiredProperly(Apply(w, FinishPass(t)))
  {
    var w' := Apply(w, FinishPass(t));
    var o := w.tasks[t];
    PassRetiresProperly(w, o);
    KeysOfUnion(w.retired, Retired(o.entries, o.failed, o.pass));
    forall n | n in w'.retired ensures Proper(w'.retired[n], w'.finished, w'.calls) {
      assert n in w.retired ==> Proper(w.retired[n], w.finished, w.calls);
    }
  }

  lemma FinishKeepsInv(w: World, t: nat)
    requires Inv(w)
    ensures Inv(Apply(w, FinishPass(t)))
  {
    if CanFinish(w, t) {
      FinishConserves(w, t);
      FinishKeepsFactories(w, t);
      FinishRetiresProperly(w, t);
      FinishReleases(w, t);
    } else {
      assert Apply(w, FinishPass(t)) == w;
    }
  }

  lemma WakeOrders(w: World, t: nat)
    requires OneOwner(w) && PassesInOrder(w)
    ensures OneOwner(Apply(w, Wake(t))) && PassesInOrder(Apply(w, Wake(t)))
  {
  }

  lemma WakeKeepsInv(w: World, t: nat)
    requires Inv(w)
    ensures Inv(Apply(w, Wake(t)))
  {
    var w' := Apply(w, Wake(t));
    if t in w.tasks && w.tasks[t].Waiter? && w.tasks[t].pass in w.finished {
      assert InFlight(w') == InFlight(w);
      WakeOrders(w, t);
    }
  }

  /** Every interleaving of any tasks keeps the invariant. */
  lemma {:induction false} EveryInterleaving(events: seq<Event>)
    ensures Inv(After(events))
  {
    if events == [] {
      assert InFlight(START) == map[];
    } else {
      var w := After(events[..|events| - 1]);
      EveryInterleaving(events[..|events| - 1]);
      match events[|events| - 1]
      case Get(request, produced) => GetKeepsInv(w, request, produced);
      case BeginPass(t, queue) => BeginKeepsInv(w, t, queue);
      case CloseNext(t, succeeds) => CloseNextKeepsInv(w, t, succeeds);
      case FinishPass(t) => FinishKeepsInv(w, t);
      case Wake(t) => WakeKeepsInv(w, t);
    }
  }

  // ----- what that means -----

  /** One task at most owns a shutdown pass, and nothing is registered while a pass is running. */
  lemma OnePassAtATime(events: seq<Event>, t: nat, u: nat)
    ensures var w := After(events);
      && (t in w.tasks && u in w.tasks && w.tasks[t].Owner? && w.tasks[u].Owner? ==> t == u)
      && (t in w.tasks && w.tasks[t].Owner? ==> w.reg.closing && w.reg.clients == map[])
  {
    EveryInterleaving(events);
  }

  /** In every interleaving each distinct object is closed at most once per pass. */
  lemma ClosedAtMostOncePerPass(events: seq<Event>)
    ensures CalledOnce(After(events).calls)
  {
    EveryInterleaving(events);
  }

  lemma GetKeepsLog(w: World, request: Request, produced: Option<Client>)
    requires Logged(w)
    ensures Logged(Apply(w, Get(request, produced)))
  {
    var w' := Apply(w, Get(request, produced));
    assert InFlight(w') == InFlight(w) && w.made <= w'.made;
  }

  lemma UnionFromLog(retired: map<nat, Retirement>, more: map<nat, Retirement>, made: seq<Client>)
    requires RetiredFromLog(retired, made) && RetiredFromLog(more, made)
    ensures RetiredFromLog(retired + more, made)
  {
  }

  lemma SortedFromLog(entries: Entries, failed: set<Client>, pass: nat, made: seq<Client>)
    requires FromLog(entries, made) && InjectiveSerials(entries)
    ensures FromLog(Failed(entries, failed), made) && RetiredFromLog(Retired(entries, failed, pass), made)
  {
  }

  lemma FinishKeepsLog(w: World, t: nat)
    requires OneOwner(w) && Logged(w)
    ensures Logged(Apply(w, FinishPass(t)))
  {
    if CanFinish(w, t) {
      var o := w.tasks[t];
      FinishRegistry(w, t);
      FinishHands(w, t);
      SortedFromLog(o.entries, o.failed, o.pass, w.made);
      UnionFromLog(w.retired, Retired(o.entries, o.failed, o.pass), w.made);
    }
  }

  lemma BeginKeepsLog(w: World, t: nat, queue: seq<Client>)
    requires OneOwner(w) && Logged(w)
    ensures Logged(Apply(w, BeginPass(t, queue)))
  {
    var w' := Apply(w, BeginPass(t, queue));
    if w'.owner == w.owner {
      assert InFlight(w') == InFlight(w);
    } else {
      assert InFlight(w') == w.reg.clients && w'.reg.clients == map[];
    }
  }

  lemma StepKeepsLog(w: World, e: Event)
    requires OneOwner(w) && PassesInOrder(w) && Logged(w)
    ensures Logged(Apply(w, e))
  {
    match e
    case Get(request, produced) => GetKeepsLog(w, request, produced);
    case BeginPass(t, queue) => BeginKeepsLog(w, t, queue);
    case CloseNext(t, succeeds) => CloseNextOrders(w, t, succeeds);
    case FinishPass(t) => FinishKeepsLog(w, t);
    case Wake(t) => assert InFlight(Apply(w, e)) == InFlight(w);
  }

  /** In every interleaving each entry and each retirement is of the very client made under its serial. */
  lemma {:induction false} ClientsAreLogged(events: seq<Event>)
    ensures Logged(After(events))
  {
    if events == [] {
      assert InFlight(START) == map[];
    } else {
      ClientsAreLogged(events[..|events| - 1]);
      EveryInterleaving(events[..|events| - 1]);
      StepKeepsLog(After(events[..|events| - 1]), events[|events| - 1]);
    }
  }

  // The client made n-th is registered, in the hands of the running pass, or retired.
  ghost predicate Registered(w: World, n: nat)
    requires n < |w.made|
  {
    exists k :: k in w.reg.clients && w.reg.clients[k] == Entry(w.made[n], n)
  }

  ghost predicate Taken(w: World, n: nat)
    requires n < |w.made|
  {
    exists k :: k in InFlight(w) && InFlight(w)[k] == Entry(w.made[n], n)
  }

  lemma PlacesAreSerials(w: World, n: nat)
    requires Logged(w) && n < |w.made|
    ensures Registered(w, n) <==> n in Serials(w.reg.clients)
    ensures Taken(w, n) <==> n in Serials(InFlight(w))
  {
    if n in Serials(w.reg.clients) {
      var k :| k in w.reg.clients && w.reg.clients[k].serial == n;
      assert w.reg.clients[k] == Entry(w.made[n], n);
    }
    if n in Serials(InFlight(w)) {
      var k :| k in InFlight(w) && InFlight(w)[k].serial == n;
      assert InFlight(w)[k] == Entry(w.made[n], n);
    }
  }

  /**
   Every client ever made is in exactly one place: the registry, the hands of the running pass, or
   retired; a retired one was closed successfully by a finished pass unless it has no close method.
   */
  lemma NoClientIsLost(events: seq<Event>, n: nat)
    requires n < |After(events).made|
    ensures var w := After(events);
      var live, taken, gone := Registered(w, n), Taken(w, n), n in w.retired;
      && (live || taken || gone) && !(live && taken) && !(live && gone) && !(taken && gone)
      && (w.owner.None? ==> live || gone)
      && (gone ==>
            && w.retired[n].client == w.made[n] && w.retired[n].pass in w.finished
            && (w.made[n].closable ==> Call(w.retired[n].pass, w.made[n], true) in w.calls))
  {
    EveryInterleaving(events);
    ClientsAreLogged(events);
    var w := After(events);
    assert n in FirstNumbers(|w.made|);
    assert Serials(map[]) == {};
    PlacesAreSerials(w, n);
    assert n in w.retired ==> Proper(w.retired[n], w.finished, w.calls);
  }

  // The registry r keeps exactly the entries whose close failed in the pass of owner o.
  ghost predicate KeepsFailures(w: World, o: Task, r: Registry)
    requires o.Owner?
  {
    && (forall k :: k in r.clients <==> k in o.entries && Call(o.pass, o.entries[k].client, false) in w.calls)
    && (forall k :: k in r.clients ==> r.clients[k] == o.entries[k])
    && (forall k :: k in o.entries && k !in r.clients && o.entries[k].client.closable ==>
          Call(o.pass, o.entries[k].client, true) in w.calls)
  }

  // The registry r keeps exactly the factories that its own keys name.
  ghost predicate KeepsFactories(o: Task, r: Registry)
    requires o.Owner?
  {
    && (forall f :: f in r.factories <==> exists k :: k in r.clients && k.factory == f)
    && (forall f :: f in r.factories ==> f in o.factories && r.factories[f] == o.factories[f])
  }

  lemma FailuresAreKept(w: World, t: nat)
    requires OneOwner(w) && CanFinish(w, t) && OwnerOnTrack(w, w.tasks[t])
    ensures KeepsFailures(w, w.tasks[t], Apply(w, FinishPass(t)).reg)
  {
    var o := w.tasks[t];
    FinishRegistry(w, t);
    forall k | k in o.entries ensures o.entries[k].client in ClientsOf(o.entries) { }
  }

  lemma FactoriesAreNamed(r: Registry)
    requires r.factories.Keys == FactoriesOf(r.clients)
    ensures forall f :: f in r.factories <==> exists k :: k in r.clients && k.factory == f
  {
    forall f ensures f in r.factories <==> exists k :: k in r.clients && k.factory == f {
      assert f in r.factories.Keys <==> f in FactoriesOf(r.clients);
    }
  }

  lemma FactoriesAreKept(w: World, t: nat)
    requires Inv(w) && CanFinish(w, t)
    ensures KeepsFactories(w.tasks[t], Apply(w, FinishPass(t)).reg)
  {
    FinishKeepsFactories(w, t);
    FactoriesAreNamed(Apply(w, FinishPass(t)).reg);
  }

  /**
   When a pass ends, the registry holds exactly the entries whose close failed in that pass, the
   factories kept are exactly the ones their keys name, and every other closable object was closed.
   */
  lemma PassEndsTruthfully(events: seq<Event>, t: nat)
    requires t in After(events).tasks && After(events).tasks[t].Owner? && After(events).tasks[t].queue == []
    ensures var w := After(events); var r := Apply(w, FinishPass(t)).reg;
      KeepsFailures(w, w.tasks[t], r) && KeepsFactories(w.tasks[t], r)
  {
    var w := After(events);
    EveryInterleaving(events);
    FailuresAreKept(w, t);
    FactoriesAreKept(w, t);
  }

  /** A close call, whether it owned the pass or waited, returns only after that pass has finished. */
  lemma {:induction false} CloseReturnsAfterThePass(events: seq<Event>, t: nat)
    requires t in After(events).tasks && After(events).tasks[t].Done?
    ensures After(events).tasks[t].pass in After(events).finished
  {
    EveryInterleaving(events);
  }

  lemma OwnershipIsClear(events: seq<Event>)
    ensures OneOwner(After(events))
  {
    EveryInterleaving(events);
  }

  lemma OtherEventsKeepClient(w: World, e: Event, key: Key)
    requires OneOwner(w) && !w.reg.closing && key in w.reg.clients && !e.BeginPass?
    ensures var w' := Apply(w, e); !w'.reg.closing && key in w'.reg.clients && w'.reg.clients[key] == w.reg.clients[key]
  {
  }

  lemma {:induction false} EntryStays(events: seq<Event>, more: seq<Event>, key: Key)
    requires key in After(events).reg.clients && !After(events).reg.closing
    requires forall e :: e in more ==> !e.BeginPass?
    ensures var w := After(events + more);
      !w.reg.closing && key in w.reg.clients && w.reg.clients[key] == After(events).reg.clients[key]
  {
    if more == [] {
      assert events + more == events;
    } else {
      var last := |more| - 1;
      EntryStays(events, more[..last], key);
      assert (events + more)[..|events + more| - 1] == events + more[..last];
      OwnershipIsClear(events + more[..last]);
      OtherEventsKeepClient(After(events + more[..last]), more[last], key);
    }
  }

  // ----- which calls share a client -----

  // Each entry stands for a creation ordered by a call with its key.
  predicate Ordered(entries: Entries, orders: seq<Request>) {
    forall k :: k in entries ==> entries[k].serial < |orders| && KeyOf(orders[entries[k].serial]) == k
  }

  ghost predicate OrdersMatch(w: World) {
    |w.orders| == |w.made| && Ordered(w.reg.clients, w.orders) && Ordered(InFlight(w), w.orders)
  }

  lemma GetKeepsOrders(w: World, request: Request, produced: Option<Client>)
    requires OrdersMatch(w)
    ensures OrdersMatch(Apply(w, Get(request, produced)))
  {
    var w' := Apply(w, Get(request, produced));
    assert InFlight(w') == InFlight(w) && w.orders <= w'.orders;
  }

  lemma BeginKeepsOrders(w: World, t: nat, queue: seq<Client>)
    requires OneOwner(w) && OrdersMatch(w)
    ensures OrdersMatch(Apply(w, BeginPass(t, queue)))
  {
    var w' := Apply(w, BeginPass(t, queue));
    if w'.owner == w.owner {
      assert InFlight(w') == InFlight(w);
    } else {
      assert InFlight(w') == w.reg.clients && w'.reg.clients == map[];
    }
  }

  lemma FinishKeepsOrders(w: World, t: nat)
    requires OneOwner(w) && OrdersMatch(w)
    ensures OrdersMatch(Apply(w, FinishPass(t)))
  {
    if CanFinish(w, t) {
      FinishRegistry(w, t);
      FinishHands(w, t);
    }
  }

  lemma StepKeepsOrders(w: World, e: Event)
    requires OneOwner(w) && PassesInOrder(w) && OrdersMatch(w)
    ensures OrdersMatch(Apply(w, e))
  {
    match e
    case Get(request, produced) => GetKeepsOrders(w, request, produced);
    case BeginPass(t, queue) => BeginKeepsOrders(w, t, queue);
    case CloseNext(t, succeeds) => CloseNextOrders(w, t, succeeds);
    case FinishPass(t) => FinishKeepsOrders(w, t);
    case Wake(t) => assert InFlight(Apply(w, e)) == InFlight(w);
  }

  lemma {:induction false} EveryRunKeepsOrders(events: seq<Event>)
    ensures OrdersMatch(After(events))
  {
    if events == [] {
      assert InFlight(START) == map[];
    } else {
      EveryRunKeepsOrders(events[..|events| - 1]);
      EveryInterleaving(events[..|events| - 1]);
      StepKeepsOrders(After(events[..|events| - 1]), events[|events| - 1]);
    }
  }

  // A registered client was made for a call with these arguments.
  ghost predicate RegisteredFor(w: World, request: Request)
    requires OrdersMatch(w)
  {
    exists k :: k in w.reg.clients && SameConfiguration(w.orders[w.reg.clients[k].serial], request)
  }

  lemma RegisteredUnderKey(w: World, request: Request)
    requires OrdersMatch(w)
    ensures RegisteredFor(w, request) <==> KeyOf(request) in w.reg.clients
  {
    if RegisteredFor(w, request) {
      var k :| k in w.reg.clients && SameConfiguration(w.orders[w.reg.clients[k].serial], request);
      KeysAgreeIff(w.orders[w.reg.clients[k].serial], request);
    }
    if KeyOf(request) in w.reg.clients {
      KeysAgreeIff(w.orders[w.reg.clients[KeyOf(request)].serial], request);
    }
  }

  // The entry is the client made for a call with these arguments.
  predicate MadeFor(w: World, entry: Entry, request: Request) {
    && entry.serial < |w.orders| && SameConfiguration(w.orders[entry.serial], request)
    && entry.serial < |w.made| && entry.client == w.made[entry.serial]
  }

  /**
   In every interleaving a call is rejected exactly while a pass is running.  Otherwise it is answered with
   the client made for its own arguments, if one is registered, and else with what the factory makes.
   */
  lemma AnswersFitTheCall(events: seq<Event>, request: Request, produced: Option<Client>)
    ensures var w := After(events); var answer := AnswerTo(w, request, produced);
      && OrdersMatch(w) && (answer.Rejected? <==> w.owner.Some?)
      && (answer.Reused? <==> w.owner.None? && RegisteredFor(w, request))
      && (answer.Created? <==> w.owner.None? && !RegisteredFor(w, request) && produced.Some?)
      && (answer.Reused? ==> MadeFor(w, answer.entry, request))
      && (answer.Created? ==> answer.entry == Entry(produced.value, |w.made|))
  {
    var w := After(events);
    EveryInterleaving(events);
    EveryRunKeepsOrders(events);
    ClientsAreLogged(events);
    RegisteredUnderKey(w, request);
    if AnswerTo(w, request, produced).Reused? {
      KeysAgreeIff(w.orders[w.reg.clients[KeyOf(request)].serial], request);
    }
  }

  predicate Answers(answer: Answer) { answer.Reused? || answer.Created? }

  lemma AnsweredEntryIsKept(w: World, request: Request, produced: Option<Client>)
    requires Answers(AnswerTo(w, request, produced))
    ensures var w' := Apply(w, Get(request, produced));
      && !w'.reg.closing && KeyOf(request) in w'.reg.clients
      && w'.reg.clients[KeyOf(request)] == AnswerTo(w, request, produced).entry
  {
  }

  lemma OtherKeyOtherEntry(w: World, key: Key, request: Request, produced: Option<Client>)
    requires OrdersMatch(w) && key in w.reg.clients && Answers(AnswerTo(w, request, produced))
    ensures AnswerTo(w, request, produced).entry == w.reg.clients[key] <==> KeyOf(request) == key
  {
  }

  /**
   Until a pass begins, and whatever else happens: two calls are answered with the same entry exactly if
   their arguments say the same.
   */
  lemma ClientsAreShared(events: seq<Event>, first: Request, produced: Option<Client>, more: seq<Event>, second: Request, again: Option<Client>)
    requires forall e :: e in more ==> !e.BeginPass?
    requires Answers(AnswerTo(After(events), first, produced))
    requires Answers(AnswerTo(After(events + [Get(first, produced)] + more), second, again))
    ensures AnswerTo(After(events + [Get(first, produced)] + more), second, again).entry
        == AnswerTo(After(events), first, produced).entry
      <==> SameConfiguration(first, second)
  {
    var called := events + [Get(first, produced)];
    assert called[..|called| - 1] == events;
    AnsweredEntryIsKept(After(events), first, produced);
    EntryStays(called, more, KeyOf(first));
    EveryRunKeepsOrders(called + more);
    OtherKeyOtherEntry(After(called + more), KeyOf(first), second, again);
    KeysAgreeIff(first, second);
  }
}

/**
 The discovery-page counter (backend/app/collectors/queue.py): many workers reserve and withdraw pages
 with WATCH, GET and EXEC, interleaved command by command.
 */
module DiscoveryPages {
  datatype Raw = Missing | Number(n: int) | Garbage

  const MAX_PAGE := 10
  const ATTEMPTS := 3

  function Current(raw: Raw): int {
    if raw.Number? then raw.n else 0
  }

  function NextPage(current: int): int {
    if current + 1 > MAX_PAGE then 1 else current + 1
  }

  // Where a worker is between the commands of one attempt.
  datatype Phase = Begin | Watched(version: nat) | Got(version: nat, raw: Raw)

  datatype Worker =
    | Idle
    | Reserving(phase: Phase, attempt: nat)
    | Holding(page: int)
    | Withdrawing(page: int, phase: Phase, attempt: nat)

  // The key and its modification count, the workers, the pages handed out so far, and for each page
  // in flight the number of net reservations at the moment it was handed out.
  datatype World = World(value: Raw, version: nat, workers: map<nat, Worker>, pages: seq<int>, net: int, held: map<nat, int>)

  datatype Choice = Proceed | Fail

  datatype Event = Event(worker: nat, choice: Choice)

  function At(w: World, k: nat): Worker {
    if k in w.workers then w.workers[k] else Idle
  }

  function Move(w: World, k: nat, to: Worker): World {
    w.(workers := w.workers[k := to])
  }

  function Release(w: World, k: nat): World {
    Move(w, k, Idle).(held := w.held - {k})
  }

  // EXEC after MULTI: aborted when the key was written since WATCH.
  function Reserved(w: World, k: nat, phase: Phase, attempt: nat): World
    requires phase.Got?
  {
    if phase.version == w.version then
      var page := NextPage(Current(phase.raw));
      World(Number(page), w.version + 1, w.workers[k := Holding(page)], w.pages + [page], w.net + 1, w.held[k := w.net + 1])
    else if attempt + 1 < ATTEMPTS then Move(w, k, Reserving(Begin, attempt + 1))
    else Move(w, k, Idle)     // the source raises RuntimeError
  }

  function Withdrawn(w: World, k: nat, page: int, phase: Phase, attempt: nat): World
    requires phase.Got?
  {
    if phase.raw.Garbage? || Current(phase.raw) != page then Release(w, k)
    else if phase.version == w.version then
      Release(w, k).(value := Number(if page - 1 > 0 then page - 1 else 0), version := w.version + 1, net := w.net - 1)
    else if attempt + 1 < ATTEMPTS then Move(w, k, Withdrawing(page, Begin, attempt + 1))
    else Release(w, k)
  }

  function Advance(w: World, phase: Phase): Phase
    requires !phase.Got?
  {
    if phase.Begin? then Watched(w.version) else Got(phase.version, w.value)
  }

  function Apply(w: World, e: Event): World {
    match At(w, e.worker)
    case Idle => Move(w, e.worker, Reserving(Begin, 0))
    case Holding(page) =>
      if e.choice.Proceed? then Release(w, e.worker) else Move(w, e.worker, Withdrawing(page, Begin, 0))
    case Reserving(phase, attempt) =>
      if phase.Got? then Reserved(w, e.worker, phase, attempt)
      else Move(w, e.worker, Reserving(Advance(w, phase), attempt))
    case Withdrawing(page, phase, attempt) =>
      if phase.Got? then Withdrawn(w, e.worker, page, phase, attempt)
      else Move(w, e.worker, Withdrawing(page, Advance(w, phase), attempt))
  }

  predicate InRange(raw: Raw) {
    0 <= Current(raw) <= MAX_PAGE
  }

  function Start(value: Raw): World {
    World(value, 0, map[], [], Current(value), map[])
  }

  function After(value: Raw, events: seq<Event>): World {
    if events == [] then Start(value)
    else Apply(After(value, events[..|events| - 1]), events[|events| - 1])
  }

  // ----- what a worker has read is current as long as EXEC will accept it -----

  predicate PhaseOk(w: World, phase: Phase) {
    match phase
    case Begin => true
    case Watched(version) => version <= w.version
    case Got(version, raw) => version <= w.version && (version == w.version ==> raw == w.value)
  }

  predicate WorkerOk(w: World, k: nat, worker: Worker) {
    match worker
    case Idle => k !in w.held
    case Reserving(phase, _) => k !in w.held && PhaseOk(w, phase)
    case Holding(page) => k in w.held && 1 <= page <= MAX_PAGE
    case Withdrawing(page, phase, _) => k in w.held && 1 <= page <= MAX_PAGE && PhaseOk(w, phase)
  }

  ghost predicate Coherent(w: World) {
    && InRange(w.value)
    && (forall k :: WorkerOk(w, k, At(w, k)))
  }

  lemma OthersKeepTheirPlace(w: World, e: Event, k: nat)
    requires k != e.worker
    ensures At(Apply(w, e), k) == At(w, k) && (k in Apply(w, e).held <==> k in w.held)
    ensures k in w.held ==> Apply(w, e).held[k] == w.held[k]
  {
  }

  lemma StepKeepsCoherent(w: World, e: Event)
    requires Coherent(w)
    ensures Coherent(Apply(w, e))
  {
    var w' := Apply(w, e);
    assert WorkerOk(w, e.worker, At(w, e.worker));
    assert w.version <= w'.version && (w'.version == w.version ==> w'.value == w.value);
    forall k ensures WorkerOk(w', k, At(w', k)) {
      assert WorkerOk(w, k, At(w, k));
      if k != e.worker { OthersKeepTheirPlace(w, e, k); }
    }
  }

  // ----- the atomic counter -----

  // What one command may do to the counter, as seen from outside.
  datatype Effect = Nothing | Reserve(worker: nat, page: int) | Withdraw(worker: nat, page: int)

  function EffectOf(w: World, e: Event): Effect {
    var worker := At(w, e.worker);
    if worker.Reserving? && worker.phase.Got? && worker.phase.version == w.version
    then Reserve(e.worker, NextPage(Current(w.value)))
    else if worker.Withdrawing? && worker.phase.Got? && worker.phase.version == w.version && Current(w.value) == worker.page
            && !w.value.Garbage?
    then Withdraw(e.worker, worker.page)
    else Nothing
  }

  lemma {:induction false} EveryInterleavingIsCoherent(value: Raw, events: seq<Event>)
    requires InRange(value)
    ensures Coherent(After(value, events))
  {
    if events != [] {
      EveryInterleavingIsCoherent(value, events[..|events| - 1]);
      StepKeepsCoherent(After(value, events[..|events| - 1]), events[|events| - 1]);
    }
  }

  /**
   Every command of every interleaving is one step of an atomic counter: it changes nothing, or hands
   out the page after the counter's present value, or takes back the page the counter shows.
   */
  lemma CommandsRefineAtomicCounter(value: Raw, events: seq<Event>, e: Event)
    requires InRange(value)
    ensures var w := After(value, events); var w' := Apply(w, e);
      match EffectOf(w, e)
      case Nothing => w'.value == w.value && w'.pages == w.pages && w'.net == w.net
      case Reserve(k, page) =>
        && page == NextPage(Current(w.value)) && w'.value == Number(page) && At(w', k) == Holding(page)
        && w'.pages == w.pages + [page]
      case Withdraw(k, page) =>
        && Current(w.value) == page && w'.value == Number(page - 1) && k in w.held && k !in w'.held
        && w'.pages == w.pages && NextPage(Current(w'.value)) == page
  {
    EveryInterleavingIsCoherent(value, events);
  }

  /** The counter stays within its range in every interleaving. */
  lemma CounterStaysInRange(value: Raw, events: seq<Event>)
    requires InRange(value)
    ensures InRange(After(value, events).value)
  {
    EveryInterleavingIsCoherent(value, events);
  }

  predicate NobodyFails(events: seq<Event>) {
    forall e :: e in events ==> e.choice == Proceed
  }

  predicate NobodyWithdraws(w: World) {
    forall k :: k in w.workers ==> !w.workers[k].Withdrawing?
  }

  predicate InCycle(w: World, value: Raw) {
    && (forall i :: 0 <= i < |w.pages| ==> w.pages[i] == (Current(value) + i) % 10 + 1)
    && (w.pages == [] ==> w.value == value) && (w.pages != [] ==> w.value == Number(w.pages[|w.pages| - 1]))
  }

  lemma ProceedingNeverWithdraws(w: World, e: Event)
    requires NobodyWithdraws(w) && e.choice.Proceed?
    ensures NobodyWithdraws(Apply(w, e))
  {
    assert !At(w, e.worker).Withdrawing?;
  }

  lemma FirstOfCycle(x: int)
    requires 0 <= x <= MAX_PAGE
    ensures NextPage(x) == x % 10 + 1
  {
  }

  lemma CycleStep(x: int)
    requires x >= 0
    ensures NextPage(x % 10 + 1) == (x + 1) % 10 + 1
  {
  }

  // The next page of the cycle, or no page, keeps the pages in cycle.
  lemma CycleContinues(w: World, w': World, value: Raw)
    requires InRange(value) && InCycle(w, value)
    requires (w'.value == w.value && w'.pages == w.pages)
      || (w'.value == Number(NextPage(Current(w.value))) && w'.pages == w.pages + [NextPage(Current(w.value))])
    ensures InCycle(w', value)
  {
    if w.pages == [] {
      FirstOfCycle(Current(value));
    } else {
      CycleStep(Current(value) + |w.pages| - 1);
    }
  }

  /** Without withdrawals the i-th reservation, whoever makes it, gets the i-th page of the cycle. */
  lemma {:induction false} PagesComeInCycle(value: Raw, events: seq<Event>)
    requires InRange(value) && NobodyFails(events)
    ensures NobodyWithdraws(After(value, events)) && InCycle(After(value, events), value)
  {
    if events != [] {
      var last := |events| - 1;
      assert events[last] in events && forall e :: e in events[..last] ==> e in events;
      PagesComeInCycle(value, events[..last]);
      var w := After(value, events[..last]);
      ProceedingNeverWithdraws(w, events[last]);
      CommandsRefineAtomicCounter(value, events[..last], events[last]);
      assert !EffectOf(w, events[last]).Withdraw?;
      CycleContinues(w, After(value, events), value);
    }
  }

  // ----- pages in flight -----

  // Two counts of net reservations fall on the same page.
  predicate SamePage(a: int, b: int) {
    (a - b) % 10 == 0
  }

  predicate Carries(worker: Worker, page: int) {
    (worker.Holding? || worker.Withdrawing?) && worker.page == page
  }

  predicate InFlight(w: World, page: int) {
    exists k :: k in w.held && Carries(At(w, k), page)
  }

  predicate HolderOk(w: World, k: nat)
    requires k in w.held
  {
    var worker := At(w, k);
    (worker.Holding? || worker.Withdrawing?) && SamePage(w.held[k], worker.page) && w.net - MAX_PAGE < w.held[k] <= w.net
  }

  // Fewer than ten net reservations lie between the oldest page in flight and the counter.
  ghost predicate Windowed(w: World) {
    && SamePage(w.net, Current(w.value))
    && (forall k :: k in w.held ==> HolderOk(w, k))
    && (forall k, l :: k in w.held && l in w.held && k != l ==> w.held[k] != w.held[l])
  }

  lemma SamePageInWindow(a: int, b: int, page: int)
    requires SamePage(a, page) && SamePage(b, page) && -MAX_PAGE < a - b < MAX_PAGE
    ensures a == b
  {
  }

  /** Inside the window, pages in flight are pairwise distinct. */
  lemma PagesInFlightAreDistinct(w: World, k: nat, l: nat, page: int)
    requires Windowed(w) && k in w.held && l in w.held && Carries(At(w, k), page) && Carries(At(w, l), page)
    ensures k == l
  {
    assert HolderOk(w, k) && HolderOk(w, l);
    SamePageInWindow(w.held[k], w.held[l], page);
  }

  lemma NextPageFollows(net: int, current: int)
    requires SamePage(net, current) && 0 <= current <= MAX_PAGE
    ensures SamePage(net + 1, NextPage(current)) && 1 <= NextPage(current) <= MAX_PAGE
  {
  }

  lemma NineBehind(held: int, net: int, page: int, current: int)
    requires SamePage(held, page) && SamePage(net, current) && 1 <= page <= MAX_PAGE && 0 <= current <= MAX_PAGE
    requires net - MAX_PAGE < held <= net
    ensures page == NextPage(current) <==> held == net - (MAX_PAGE - 1)
  {
  }

  lemma HolderOfNext(w: World, k: nat)
    requires Windowed(w) && Coherent(w) && k in w.held
    ensures Carries(At(w, k), NextPage(Current(w.value))) <==> w.held[k] == w.net - (MAX_PAGE - 1)
  {
    assert HolderOk(w, k) && WorkerOk(w, k, At(w, k));
    NineBehind(w.held[k], w.net, At(w, k).page, Current(w.value));
  }

  /** A reservation hands out a page in flight exactly when some holder is nine net reservations old. */
  lemma WrapsOntoLivePageIff(w: World)
    requires Windowed(w) && Coherent(w)
    ensures InFlight(w, NextPage(Current(w.value))) <==> exists k :: k in w.held && w.held[k] == w.net - (MAX_PAGE - 1)
  {
    var next := NextPage(Current(w.value));
    if InFlight(w, next) {
      var k :| k in w.held && Carries(At(w, k), next);
      HolderOfNext(w, k);
    }
    if k :| k in w.held && w.held[k] == w.net - (MAX_PAGE - 1) {
      HolderOfNext(w, k);
      assert Carries(At(w, k), next);
    }
  }

  /** A withdrawal that takes effect withdraws the caller's own reservation, and it is the latest. */
  lemma WithdrawalIsOwnAndLatest(w: World, e: Event)
    requires Windowed(w) && Coherent(w) && EffectOf(w, e).Withdraw?
    ensures e.worker in w.held && w.held[e.worker] == w.net
    ensures forall k :: k in w.held && k != e.worker ==> w.held[k] < w.net
  {
    assert WorkerOk(w, e.worker, At(w, e.worker)) && HolderOk(w, e.worker);
    SamePageInWindow(w.held[e.worker], w.net, At(w, e.worker).page);
    forall k | k in w.held && k != e.worker ensures w.held[k] < w.net { assert HolderOk(w, k); }
  }

  lemma ReserveKeepsWindow(w: World, e: Event)
    requires Coherent(w) && Windowed(w) && EffectOf(w, e).Reserve? && !InFlight(w, EffectOf(w, e).page)
    ensures Windowed(Apply(w, e))
  {
    var w' := Apply(w, e);
    assert WorkerOk(w, e.worker, At(w, e.worker));
    WrapsOntoLivePageIff(w);
    NextPageFollows(w.net, Current(w.value));
    forall k | k in w'.held ensures HolderOk(w', k) {
      if k != e.worker {
        OthersKeepTheirPlace(w, e, k);
        assert HolderOk(w, k);
      }
    }
    forall k | k in w.held ensures w.held[k] <= w.net { assert HolderOk(w, k); }
  }

  lemma WithdrawKeepsWindow(w: World, e: Event)
    requires Coherent(w) && Windowed(w) && EffectOf(w, e).Withdraw?
    ensures Windowed(Apply(w, e))
  {
    var w' := Apply(w, e);
    WithdrawalIsOwnAndLatest(w, e);
    assert WorkerOk(w, e.worker, At(w, e.worker));
    forall k | k in w'.held ensures HolderOk(w', k) {
      OthersKeepTheirPlace(w, e, k);
      assert HolderOk(w, k);
    }
  }

  lemma OtherCommandsKeepWindow(w: World, e: Event)
    requires Coherent(w) && Windowed(w) && EffectOf(w, e).Nothing?
    ensures Windowed(Apply(w, e))
  {
    var w' := Apply(w, e);
    assert WorkerOk(w, e.worker, At(w, e.worker));
    forall k | k in w'.held ensures k in w.held && w'.held[k] == w.held[k] && HolderOk(w', k) {
      assert HolderOk(w, k);
      if k != e.worker { OthersKeepTheirPlace(w, e, k); }
    }
  }

  ghost predicate NoReservationWraps(value: Raw, events: seq<Event>) {
    events != [] ==>
      var w, e := After(value, events[..|events| - 1]), events[|events| - 1];
      NoReservationWraps(value, events[..|events| - 1])
      && (EffectOf(w, e).Reserve? ==> !InFlight(w, EffectOf(w, e).page))
  }

  /**
   As long as no reservation wraps onto a page in flight, the window is kept: pages in flight stay
   pairwise distinct and a withdrawal takes back the caller's own reservation, the latest one.
   */
  lemma {:induction false} WindowIsKept(value: Raw, events: seq<Event>)
    requires InRange(value) && NoReservationWraps(value, events)
    ensures Windowed(After(value, events))
  {
    if events != [] {
      var w, e := After(value, events[..|events| - 1]), events[|events| - 1];
      WindowIsKept(value, events[..|events| - 1]);
      EveryInterleavingIsCoherent(value, events[..|events| - 1]);
      match EffectOf(w, e)
      case Nothing => OtherCommandsKeepWindow(w, e);
      case Reserve(_, _) => ReserveKeepsWindow(w, e);
      case Withdraw(_, _) => WithdrawKeepsWindow(w, e);
    }
  }

  lemma SamePageSmall(current: int, page: int, net: int)
    requires SamePage(net, current) && SamePage(net, page) && 0 <= current <= MAX_PAGE && 1 <= page <= MAX_PAGE
    ensures current == page || (current == 0 && page == MAX_PAGE)
  {
  }

  /**
   The latest reservation can be withdrawn unless it is page 10 and the counter shows 0, because the
   page 1 reserved after it was itself withdrawn: then page 10 is skipped in this cycle.
   */
  lemma LatestCanBeWithdrawnIff(w: World, k: nat)
    requires Windowed(w) && Coherent(w) && k in w.held && w.held[k] == w.net
    ensures Carries(At(w, k), Current(w.value)) <==> !(Carries(At(w, k), MAX_PAGE) && Current(w.value) == 0)
  {
    assert HolderOk(w, k) && WorkerOk(w, k, At(w, k));
    SamePageSmall(Current(w.value), At(w, k).page, w.net);
  }

  // ----- over runs -----

  /**
   In every run in which no reservation has wrapped onto a page in flight: pages in flight are pairwise
   distinct; a withdrawal takes back the caller's own reservation, which is the latest in flight, and
   the next reservation returns that page again.
   */
  lemma ReservationsStayApart(value: Raw, events: seq<Event>, e: Event)
    requires InRange(value) && NoReservationWraps(value, events)
    ensures var w := After(value, events);
      && (forall k, l, page :: k in w.held && l in w.held && Carries(At(w, k), page) && Carries(At(w, l), page) ==> k == l)
      && (EffectOf(w, e).Withdraw? ==>
            && EffectOf(w, e).worker == e.worker && e.worker in w.held && Carries(At(w, e.worker), EffectOf(w, e).page)
            && (forall k :: k in w.held && k != e.worker ==> w.held[k] < w.held[e.worker])
            && NextPage(Current(Apply(w, e).value)) == EffectOf(w, e).page)
  {
    var w := After(value, events);
    WindowIsKept(value, events);
    EveryInterleavingIsCoherent(value, events);
    forall k, l, page | k in w.held && l in w.held && Carries(At(w, k), page) && Carries(At(w, l), page) ensures k == l {
      PagesInFlightAreDistinct(w, k, l, page);
    }
    if EffectOf(w, e).Withdraw? {
      WithdrawalIsOwnAndLatest(w, e);
      CommandsRefineAtomicCounter(value, events, e);
    }
  }

  /**
   Such a run's next reservation repeats a page in flight exactly when some holder is nine net
   reservations old, and its latest reservation can be withdrawn exactly when the counter is not at 0
   with that reservation being page 10.
   */
  lemma ReservationLimitsIff(value: Raw, events: seq<Event>, k: nat)
    requires InRange(value) && NoReservationWraps(value, events)
    ensures var w := After(value, events);
      && (InFlight(w, NextPage(Current(w.value))) <==> exists h :: h in w.held && w.held[h] == w.net - (MAX_PAGE - 1))
      && (k in w.held && w.held[k] == w.net ==>
            (Carries(At(w, k), Current(w.value)) <==> !(Carries(At(w, k), MAX_PAGE) && Current(w.value) == 0)))
  {
    var w := After(value, events);
    WindowIsKept(value, events);
    EveryInterleavingIsCoherent(value, events);
    WrapsOntoLivePageIff(w);
    if k in w.held && w.held[k] == w.net { LatestCanBeWithdrawnIff(w, k); }
  }

  // ----- conflicts are retried -----

  // The command that worker k sends next is an EXEC that fails, because the key was written since its WATCH.
  predicate ExecFails(w: World, k: nat) {
    match At(w, k)
    case Reserving(Got(version, _), _) => version != w.version
    case Withdrawing(page, Got(version, raw), _) => version != w.version && raw.Number? && raw.n == page
    case _ => false
  }

  // The failed EXECs of the reservation or withdrawal that worker k is at.
  function Conflicts(value: Raw, events: seq<Event>, k: nat): nat {
    if events == [] then 0
    else
      var init, e := events[..|events| - 1], events[|events| - 1];
      var w := After(value, init);
      if e.worker != k then Conflicts(value, init, k)
      else if At(w, k).Idle? || At(w, k).Holding? then 0
      else Conflicts(value, init, k) + (if ExecFails(w, k) then 1 else 0)
  }

  predicate Counted(worker: Worker, conflicts: nat) {
    match worker
    case Reserving(_, attempt) => attempt == conflicts < 3
    case Withdrawing(page, _, attempt) => attempt == conflicts < 3 && page != 0
    case Holding(page) => page != 0
    case Idle => true
  }

  lemma {:induction false} AttemptsAreCounted(value: Raw, events: seq<Event>, k: nat)
    requires InRange(value)
    ensures Counted(At(After(value, events), k), Conflicts(value, events, k))
  {
    if events != [] {
      var init, e := events[..|events| - 1], events[|events| - 1];
      AttemptsAreCounted(value, init, k);
      EveryInterleavingIsCoherent(value, init);
      assert WorkerOk(After(value, init), k, At(After(value, init), k));
      if e.worker != k { OthersKeepTheirPlace(After(value, init), e, k); }
    }
  }

  // The worker that starts its attempt over.
  function Restarted(worker: Worker): Worker {
    match worker
    case Reserving(_, attempt) => Reserving(Begin, attempt + 1)
    case Withdrawing(page, _, attempt) => Withdrawing(page, Begin, attempt + 1)
    case other => other
  }

  predicate SameCounter(w: World, w': World) {
    w'.value == w.value && w'.pages == w.pages && w'.net == w.net
  }

  lemma FailedExec(w: World, e: Event, conflicts: nat)
    requires ExecFails(w, e.worker) && Counted(At(w, e.worker), conflicts)
    ensures SameCounter(w, Apply(w, e))
    ensures At(Apply(w, e), e.worker) == if conflicts == 2 then Idle else Restarted(At(w, e.worker))
  {
  }

  /**
   In every interleaving a failed EXEC starts the attempt over, except for the third one in a row, after which
   a reservation is given up without a page, and a withdrawal without effect.
   */
  lemma ConflictsAreRetried(value: Raw, events: seq<Event>, e: Event)
    requires InRange(value) && ExecFails(After(value, events), e.worker)
    ensures var w := After(value, events);
      && Conflicts(value, events, e.worker) <= 2 && SameCounter(w, Apply(w, e))
      && At(Apply(w, e), e.worker) == if Conflicts(value, events, e.worker) == 2 then Idle else Restarted(At(w, e.worker))
  {
    AttemptsAreCounted(value, events, e.worker);
    FailedExec(After(value, events), e, Conflicts(value, events, e.worker));
  }

  // ----- one run for each failure -----

  function Happening(w: World, events: seq<Event>): World {
    if events == [] then w else Apply(Happening(w, events[..|events| - 1]), events[|events| - 1])
  }

  lemma {:induction false} HappeningAfter(value: Raw, events: seq<Event>, more: seq<Event>)
    ensures After(value, events + more) == Happening(After(value, events), more)
  {
    if more == [] {
      assert events + more == events;
    } else {
      HappeningAfter(value, events, more[..|more| - 1]);
      assert (events + more)[..|events + more| - 1] == events + more[..|more| - 1];
    }
  }

  // An undisturbed reservation: begin, WATCH, GET, EXEC.
  function Reservation(k: nat): seq<Event> {
    [Event(k, Proceed), Event(k, Proceed), Event(k, Proceed), Event(k, Proceed)]
  }

  lemma FourSteps(w: World, a: Event, b: Event, c: Event, d: Event)
    ensures Happening(w, [a, b, c, d]) == Apply(Apply(Apply(Apply(w, a), b), c), d)
  {
    assert [a, b, c, d][..3] == [a, b, c] && [a, b, c][..2] == [a, b] && [a, b][..1] == [a] && [a][..0] == [];
    assert Happening(w, [a]) == Apply(Happening(w, []), a);
    assert Happening(w, [a, b]) == Apply(Happening(w, [a]), b);
    assert Happening(w, [a, b, c]) == Apply(Happening(w, [a, b]), c);
  }

  lemma ReservationHolds(w: World, k: nat)
    requires At(w, k).Idle?
    ensures var w' := Happening(w, Reservation(k)); var page := NextPage(Current(w.value));
      && w' == World(Number(page), w.version + 1, w.workers[k := Holding(page)], w.pages + [page], w.net + 1, w.held[k := w.net + 1])
  {
    FourSteps(w, Event(k, Proceed), Event(k, Proceed), Event(k, Proceed), Event(k, Proceed));
    var a := Apply(w, Event(k, Proceed));
    var b := Apply(a, Event(k, Proceed));
    var c := Apply(b, Event(k, Proceed));
    assert a.workers == w.workers[k := Reserving(Begin, 0)];
    assert b.workers == w.workers[k := Reserving(Watched(w.version), 0)];
    assert c.workers == w.workers[k := Reserving(Got(w.version, w.value), 0)];
    assert Apply(c, Event(k, Proceed)).workers == w.workers[k := Holding(NextPage(Current(w.value)))];
  }

  // Worker 0 keeps page 1 while worker 1 takes the n pages after it and gives none back.
  function Laps(n: nat): seq<Event> {
    if n == 0 then Reservation(0) else Laps(n - 1) + Reservation(1) + [Event(1, Proceed)]
  }

  predicate OnLap(w: World, n: nat) {
    w.value == Number(n + 1) && w.net == n + 1 && w.held == map[0 := 1] && At(w, 0) == Holding(1) && At(w, 1) == Idle
  }

  lemma OneLap(w: World, n: nat)
    requires n < 9 && OnLap(w, n)
    ensures OnLap(Apply(Happening(w, Reservation(1)), Event(1, Proceed)), n + 1)
  {
    ReservationHolds(w, 1);
    var held := Happening(w, Reservation(1));
    assert At(held, 1) == Holding(n + 2) && At(held, 0) == Holding(1) && held.held == map[0 := 1, 1 := n + 2];
  }

  lemma AfterOneMore(value: Raw, events: seq<Event>, e: Event)
    ensures After(value, events + [e]) == Apply(After(value, events), e)
  {
    assert (events + [e])[..|events|] == events;
  }

  lemma {:induction false} LapsMoveOn(n: nat)
    requires n <= 9
    ensures OnLap(After(Missing, Laps(n)), n)
  {
    if n == 0 {
      assert [] + Reservation(0) == Reservation(0);
      HappeningAfter(Missing, [], Reservation(0));
      ReservationHolds(Start(Missing), 0);
    } else {
      LapsMoveOn(n - 1);
      OneLap(After(Missing, Laps(n - 1)), n - 1);
      HappeningAfter(Missing, Laps(n - 1), Reservation(1));
      AfterOneMore(Missing, Laps(n - 1) + Reservation(1), Event(1, Proceed));
    }
  }

  /** After nine laps worker 1 is handed page 1, which worker 0 still has. */
  lemma WrapRepeatsLivePage()
    ensures var w := After(Missing, Laps(9) + Reservation(1));
      0 in w.held && 1 in w.held && Carries(At(w, 0), 1) && Carries(At(w, 1), 1)
  {
    LapsMoveOn(9);
    HappeningAfter(Missing, Laps(9), Reservation(1));
    ReservationHolds(After(Missing, Laps(9)), 1);
  }

  // Worker k gives its page back: decide, WATCH, GET, EXEC.
  function Withdrawal(k: nat): seq<Event> {
    [Event(k, Fail), Event(k, Proceed), Event(k, Proceed), Event(k, Proceed)]
  }

  lemma WithdrawalReleases(w: World, k: nat, page: int)
    requires At(w, k) == Holding(page) && w.value == Number(page)
    ensures Happening(w, Withdrawal(k)) ==
      Release(w, k).(value := Number(if page > 1 then page - 1 else 0), version := w.version + 1, net := w.net - 1)
  {
    FourSteps(w, Event(k, Fail), Event(k, Proceed), Event(k, Proceed), Event(k, Proceed));
    var a := Apply(w, Event(k, Fail));
    var b := Apply(a, Event(k, Proceed));
    var c := Apply(b, Event(k, Proceed));
    assert a.workers == w.workers[k := Withdrawing(page, Begin, 0)];
    assert b.workers == w.workers[k := Withdrawing(page, Watched(w.version), 0)];
    assert c.workers == w.workers[k := Withdrawing(page, Got(w.version, w.value), 0)];
    assert Apply(c, Event(k, Proceed)).workers == w.workers[k := Idle];
  }

  lemma TenThenOne()
    ensures var w := After(Number(9), Reservation(0) + Reservation(1));
      At(w, 0) == Holding(10) && At(w, 1) == Holding(1) && w.value == Number(1) && w.held == map[0 := 10, 1 := 11] && w.net == 11
  {
    assert [] + Reservation(0) == Reservation(0);
    HappeningAfter(Number(9), [], Reservation(0));
    ReservationHolds(Start(Number(9)), 0);
    var ten := After(Number(9), Reservation(0));
    assert ten.value == Number(10) && ten.net == 10 && ten.held == map[0 := 10] && ten.workers == map[0 := Holding(10)];
    HappeningAfter(Number(9), Reservation(0), Reservation(1));
    ReservationHolds(ten, 1);
  }

  /** Page 10, then page 1, then page 1 withdrawn: page 10 is now the latest but the counter shows 0. */
  lemma PageTenIsSkipped()
    ensures var w := After(Number(9), Reservation(0) + Reservation(1) + Withdrawal(1));
      At(w, 0) == Holding(10) && w.held == map[0 := w.net] && w.value == Number(0)
  {
    TenThenOne();
    HappeningAfter(Number(9), Reservation(0) + Reservation(1), Withdrawal(1));
    WithdrawalReleases(After(Number(9), Reservation(0) + Reservation(1)), 1, 1);
  }
}

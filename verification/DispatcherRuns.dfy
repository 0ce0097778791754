/**
 Runs of the queue: pushes and dispatches, one dispatcher at a time, where a dispatch may end early and
 an answer of the worker queue may be lost.
 */
module DispatcherRuns {
  import opened TaskQueue
  import opened Dispatcher

  datatype Operation =
    | Push(task: Task, priority: real)
    | Dispatch(concurrency: int, answer: nat -> Answer, stop: Stop)

  // Redis, and what no longer shows in it: tasks gone, tasks doubled, calls spent in vain.
  datatype History = History(store: Store, lost: seq<Task>, doubled: seq<Task>, wasted: nat) {
    function Waiting(): set<Task> { TasksOf(store.lanes) }
  }

  function AccountOf(st: Store, op: Operation, tavily: Task -> bool): Ledger {
    match op
    case Push(_, _) => NOTHING
    case Dispatch(concurrency, answer, stop) =>
      Account(st.budget, Popped(st.lanes, concurrency), Weather(tavily, answer), stop)
  }

  function Performed(h: History, op: Operation, tavily: Task -> bool): History {
    var l := AccountOf(h.store, op, tavily);
    History(match op
            case Push(task, priority) => h.store.(lanes := Enqueued(h.store.lanes, task, priority))
            case Dispatch(concurrency, answer, stop) => Dispatched(h.store, concurrency, Weather(tavily, answer), stop),
            h.lost + l.lost, h.doubled + l.doubled, h.wasted + l.wasted)
  }

  function After(ops: seq<Operation>, limit: nat, tavily: Task -> bool): History {
    if ops == [] then History(Store(EMPTY, limit, []), [], [], 0)
    else Performed(After(ops[..|ops| - 1], limit, tavily), ops[|ops| - 1], tavily)
  }

  function PushedBy(op: Operation): seq<Task> {
    if op.Push? then [op.task] else []
  }

  // Every push, counted as often as it was made.
  function Pushed(ops: seq<Operation>): multiset<Task> {
    if ops == [] then multiset{}
    else Pushed(ops[..|ops| - 1]) + multiset(PushedBy(ops[|ops| - 1]))
  }

  // ----- one dispatch -----

  lemma {:induction false} BagHasTasks(z: seq<Entry>)
    ensures forall t :: t in Bag(z) <==> t in TasksIn(z)
  {
    if z != [] {
      BagHasTasks(z[1..]);
      assert z == [z[0]] + z[1..];
      TasksInSplit([z[0]], z[1..]);
      OneEntry(z[0]);
    }
  }

  lemma PopSplits(q: Lanes, n: int)
    requires q.Ok()
    ensures var popped := Popped(q, n); var left := Dropped(q, |popped|);
      left.Ok() && TasksOf(q) == TasksIn(popped) + TasksOf(left) && BagOf(q) == Bag(popped) + BagOf(left)
  {
    var popped := Popped(q, n);
    var left := Dropped(q, |popped|);
    DroppedIsTheRest(q, |popped|);
    DroppingKeepsOk(q, |popped|);
    assert q.Whole() == popped + left.Whole();
    TasksInSplit(popped, left.Whole());
    BagOfAppend(popped, left.Whole());
  }

  lemma Regroup(left: multiset<Task>, popped: multiset<Task>, waits: multiset<Task>, handed: multiset<Task>,
                back: multiset<Task>, lost: multiset<Task>, doubled: multiset<Task>)
    requires waits <= left + back && handed + back + lost == popped + doubled
    ensures waits + handed + lost <= popped + left + doubled
  {
    forall t ensures (waits + handed + lost)[t] <= (popped + left + doubled)[t] {
      assert waits[t] <= (left + back)[t] && (handed + back + lost)[t] == (popped + doubled)[t];
    }
  }

  // From st to st' with account l: nothing is there that was not, and nothing is missing that l does not name.
  ghost predicate Accounted(st: Store, st': Store, l: Ledger, pushed: seq<Task>, tavily: Task -> bool) {
    && st'.lanes.Ok() && st'.handed == st.handed + l.handed
    && st'.budget == st.budget - l.charged && (st.budget >= 0 ==> st'.budget >= 0)
    && CountTavily(l.handed, tavily) + l.wasted == l.charged + CountTavily(l.doubled, tavily)
    && TasksOf(st'.lanes) + Members(l.handed) + Members(l.lost) == TasksOf(st.lanes) + Members(pushed)
    && BagOf(st'.lanes) + multiset(l.handed) + multiset(l.lost) <= BagOf(st.lanes) + multiset(pushed) + multiset(l.doubled)
  }

  lemma SamePopped(l: Ledger, popped: seq<Entry>, tavily: Task -> bool)
    requires Balanced(l, Bag(popped), tavily)
    ensures Members(l.handed) + Members(l.back) + Members(l.lost) == TasksIn(popped)
  {
    BagHasTasks(popped);
    forall t ensures t in TasksIn(popped) <==> t in Members(l.handed) + Members(l.back) + Members(l.lost) {
      assert t in Bag(popped) <==> t in l.handed || t in l.back || t in l.lost;
    }
  }

  lemma NoPush(st: Store, st': Store, l: Ledger, left: set<Task>, popped: set<Task>, tavily: Task -> bool)
    requires TasksOf(st.lanes) == popped + left && TasksOf(st'.lanes) == left + Members(l.back)
    requires Members(l.handed) + Members(l.back) + Members(l.lost) == popped
    requires BagOf(st'.lanes) + multiset(l.handed) + multiset(l.lost) <= BagOf(st.lanes) + multiset(l.doubled)
    ensures TasksOf(st'.lanes) + Members(l.handed) + Members(l.lost) == TasksOf(st.lanes) + Members([])
    ensures BagOf(st'.lanes) + multiset(l.handed) + multiset(l.lost) <= BagOf(st.lanes) + multiset([]) + multiset(l.doubled)
  {
    assert Members([]) == {} && BagOf(st.lanes) + multiset([]) == BagOf(st.lanes);
  }

  /**
   A dispatch, wherever it stops: what waits afterwards, what it handed over and what it lost are
   together exactly what waited before.  Only a task whose answer was lost occurs once more than before.
   */
  lemma DispatchConserves(st: Store, concurrency: int, weather: Weather, stop: Stop)
    requires st.lanes.Ok()
    ensures Accounted(st, Dispatched(st, concurrency, weather, stop),
                      Account(st.budget, Popped(st.lanes, concurrency), weather, stop), [], weather.tavily)
  {
    var popped := Popped(st.lanes, concurrency);
    var left := Dropped(st.lanes, |popped|);
    var st', l := Dispatched(st, concurrency, weather, stop), Account(st.budget, popped, weather, stop);
    PopSplits(st.lanes, concurrency);
    AccountSettles(st.(lanes := left), popped, weather, stop);
    AccountBalances(st.budget, popped, weather, stop);
    BagHasTasks(popped);
    Regroup(BagOf(left), Bag(popped), BagOf(st'.lanes), multiset(l.handed), multiset(l.back), multiset(l.lost), multiset(l.doubled));
    SamePopped(l, popped, weather.tavily);
    NoPush(st, st', l, TasksOf(left), TasksIn(popped), weather.tavily);
  }

  lemma PushConserves(st: Store, task: Task, priority: real, tavily: Task -> bool)
    requires st.lanes.Ok()
    ensures Accounted(st, st.(lanes := Enqueued(st.lanes, task, priority)), NOTHING, [task], tavily)
  {
    RequeueWaits(st.lanes, task, priority);
    CountOfOne(task, tavily);
    NoneWaitsMore(st);
  }

  lemma OperationConserves(h: History, op: Operation, tavily: Task -> bool)
    requires h.store.lanes.Ok()
    ensures Accounted(h.store, Performed(h, op, tavily).store, AccountOf(h.store, op, tavily), PushedBy(op), tavily)
  {
    match op
    case Push(task, priority) => PushConserves(h.store, task, priority, tavily);
    case Dispatch(concurrency, answer, stop) => DispatchConserves(h.store, concurrency, Weather(tavily, answer), stop);
  }

  // ----- nothing is invented -----

  lemma Chained(w: multiset<Task>, w': multiset<Task>, h: multiset<Task>, h': multiset<Task>, l: multiset<Task>, l': multiset<Task>,
                d: multiset<Task>, d': multiset<Task>, all: multiset<Task>, pushed: multiset<Task>)
    requires w + h + l <= all + d && w' + h' + l' <= w + pushed + d'
    ensures w' + (h + h') + (l + l') <= all + pushed + (d + d')
  {
    forall t ensures (w' + (h + h') + (l + l'))[t] <= (all + pushed + (d + d'))[t] {
      assert (w + h + l)[t] <= (all + d)[t] && (w' + h' + l')[t] <= (w + pushed + d')[t];
    }
  }

  // The books of a run: occurrences, and calls.
  ghost predicate Books(h: History, pushed: multiset<Task>, limit: nat, tavily: Task -> bool) {
    && h.store.lanes.Ok() && h.store.budget >= 0
    && BagOf(h.store.lanes) + multiset(h.store.handed) + multiset(h.lost) <= pushed + multiset(h.doubled)
    && h.store.budget + CountTavily(h.store.handed, tavily) + h.wasted == limit + CountTavily(h.doubled, tavily)
  }

  lemma BooksGoOn(h: History, h': History, l: Ledger, pushed: multiset<Task>, more: seq<Task>, limit: nat, tavily: Task -> bool)
    requires Books(h, pushed, limit, tavily) && Accounted(h.store, h'.store, l, more, tavily)
    requires h'.lost == h.lost + l.lost && h'.doubled == h.doubled + l.doubled && h'.wasted == h.wasted + l.wasted
    ensures Books(h', pushed + multiset(more), limit, tavily)
  {
    CountOfAppend(h.store.handed, l.handed, tavily);
    CountOfAppend(h.doubled, l.doubled, tavily);
    MembersOfAppend(h.store.handed, l.handed);
    MembersOfAppend(h.lost, l.lost);
    MembersOfAppend(h.doubled, l.doubled);
    Chained(BagOf(h.store.lanes), BagOf(h'.store.lanes), multiset(h.store.handed), multiset(l.handed), multiset(h.lost), multiset(l.lost),
            multiset(h.doubled), multiset(l.doubled), pushed, multiset(more));
  }

  /**
   Over any run: what waits, was handed over or was lost was pushed as often, but for the answers lost;
   and the budget, the Tavily tasks handed over and the calls spent in vain make up the monthly limit,
   but for the Tavily tasks whose answers were lost.  The budget is never negative.
   */
  lemma {:induction false} RunsInventNothing(ops: seq<Operation>, limit: nat, tavily: Task -> bool)
    ensures Books(After(ops, limit, tavily), Pushed(ops), limit, tavily)
  {
    if ops == [] {
      assert forall lane :: EMPTY.LaneOk(lane);
      assert EMPTY.Whole() == [];
      CountOfOne("", tavily);
    } else {
      var init, op := ops[..|ops| - 1], ops[|ops| - 1];
      var h := After(init, limit, tavily);
      RunsInventNothing(init, limit, tavily);
      OperationConserves(h, op, tavily);
      BooksGoOn(h, After(ops, limit, tavily), AccountOf(h.store, op, tavily), Pushed(init), PushedBy(op), limit, tavily);
    }
  }

  // ----- nothing is lost without a stop -----

  ghost predicate GoneOrThere(h: History, task: Task, handedMark: nat, lostMark: nat) {
    && handedMark <= |h.store.handed| && lostMark <= |h.lost|
    && (task in h.Waiting() || task in h.store.handed[handedMark..] || task in h.lost[lostMark..])
  }

  lemma MemberStays(before: seq<Task>, more: seq<Task>, mark: nat)
    requires mark <= |before|
    ensures (before + more)[mark..] == before[mark..] + more
  {
  }

  lemma AccountedKeepsTask(h: History, h': History, l: Ledger, pushed: seq<Task>, task: Task, handedMark: nat, lostMark: nat, tavily: Task -> bool)
    requires Accounted(h.store, h'.store, l, pushed, tavily) && h'.lost == h.lost + l.lost
    requires handedMark <= |h.store.handed| && lostMark <= |h.lost|
    requires GoneOrThere(h, task, handedMark, lostMark) || task in pushed
    ensures GoneOrThere(h', task, handedMark, lostMark)
  {
    MemberStays(h.store.handed, l.handed, handedMark);
    MemberStays(h.lost, l.lost, lostMark);
    if task in h.Waiting() || task in pushed {
      assert task in TasksOf(h.store.lanes) + Members(pushed);
      assert task in TasksOf(h'.store.lanes) + Members(l.handed) + Members(l.lost);
    }
  }

  lemma LanesStayOk(ops: seq<Operation>, limit: nat, tavily: Task -> bool)
    ensures After(ops, limit, tavily).store.lanes.Ok()
  {
    RunsInventNothing(ops, limit, tavily);
  }

  lemma StepKeepsTask(h: History, op: Operation, task: Task, handedMark: nat, lostMark: nat, tavily: Task -> bool)
    requires h.store.lanes.Ok() && handedMark <= |h.store.handed| && lostMark <= |h.lost|
    requires GoneOrThere(h, task, handedMark, lostMark) || task in PushedBy(op)
    ensures GoneOrThere(Performed(h, op, tavily), task, handedMark, lostMark)
  {
    OperationConserves(h, op, tavily);
    AccountedKeepsTask(h, Performed(h, op, tavily), AccountOf(h.store, op, tavily), PushedBy(op), task, handedMark, lostMark, tavily);
  }

  lemma Prefix(ops: seq<Operation>, i: nat)
    requires i < |ops|
    ensures ops[..|ops| - 1][..i] == ops[..i]
  {
  }

  lemma AfterNext(ops: seq<Operation>, i: nat, limit: nat, tavily: Task -> bool)
    requires i < |ops|
    ensures After(ops[..i + 1], limit, tavily) == Performed(After(ops[..i], limit, tavily), ops[i], tavily)
  {
    assert ops[..i + 1][..i] == ops[..i];
  }

  lemma {:induction false} TaskStays(ops: seq<Operation>, n: nat, task: Task, handedMark: nat, lostMark: nat, limit: nat, tavily: Task -> bool)
    requires n <= |ops| && GoneOrThere(After(ops[..n], limit, tavily), task, handedMark, lostMark)
    ensures GoneOrThere(After(ops, limit, tavily), task, handedMark, lostMark)
    decreases |ops|
  {
    if n == |ops| {
      assert ops[..n] == ops;
    } else {
      var last := |ops| - 1;
      Prefix(ops, n);
      TaskStays(ops[..last], n, task, handedMark, lostMark, limit, tavily);
      LanesStayOk(ops[..last], limit, tavily);
      StepKeepsTask(After(ops[..last], limit, tavily), ops[last], task, handedMark, lostMark, tavily);
    }
  }

  /**
   Over any run, and for every push of it: from then on the task waits in a lane, has been handed over
   since that push, or has been lost since by a dispatch that ended early.
   */
  lemma RunsLoseNothing(ops: seq<Operation>, i: nat, limit: nat, tavily: Task -> bool)
    requires i < |ops| && ops[i].Push?
    ensures var h := After(ops[..i], limit, tavily);
      GoneOrThere(After(ops, limit, tavily), ops[i].task, |h.store.handed|, |h.lost|)
  {
    var h := After(ops[..i], limit, tavily);
    LanesStayOk(ops[..i], limit, tavily);
    StepKeepsTask(h, ops[i], ops[i].task, |h.store.handed|, |h.lost|, tavily);
    AfterNext(ops, i, limit, tavily);
    TaskStays(ops, i + 1, ops[i].task, |h.store.handed|, |h.lost|, limit, tavily);
  }

  // ----- runs without a stop -----

  // It does not end early; and it loses no answer.
  predicate Quiet(op: Operation) {
    op.Push? || op.stop.Never?
  }

  ghost predicate Heard(op: Operation) {
    op.Push? || forall n: nat :: op.answer(n) != TakenButRaised
  }

  lemma {:induction false} QuietTurns(budget: int, popped: seq<Entry>, weather: Weather)
    ensures var l := Turns(budget, popped, weather); l.lost == [] && l.wasted == 0
    ensures (forall n: nat :: weather.answer(n) != TakenButRaised) ==> Turns(budget, popped, weather).doubled == []
  {
    if popped != [] { QuietTurns(budget, popped[..|popped| - 1], weather); }
  }

  // The point lies between paying for the call and having its hand-over confirmed, or the call given back.
  predicate InVain(answer: Answer, point: Point) {
    point.Paid? || (point.Handed? && answer.Refused?) || (point.Returned? && !answer.Taken?)
  }

  /** A dispatch spends at most one call in vain, exactly if it ends early at such a point of a task that was paid for. */
  lemma CallIsWastedIff(budget: int, popped: seq<Entry>, weather: Weather, stop: Stop)
    ensures Account(budget, popped, weather, stop).wasted ==
      if Cuts(stop, popped) && weather.tavily(popped[stop.task].task) && InVain(weather.answer(stop.task), stop.point)
         && Turns(budget, popped[..stop.task], weather).charged < budget then 1 else 0
  {
    if Cuts(stop, popped) { QuietTurns(budget, popped[..stop.task], weather); }
    else { QuietTurns(budget, popped, weather); }
  }

  /** A run in which no dispatch ends early loses no task and spends no call in vain. */
  lemma {:induction false} QuietRunsLoseNothing(ops: seq<Operation>, limit: nat, tavily: Task -> bool)
    requires forall op :: op in ops ==> Quiet(op)
    ensures var h := After(ops, limit, tavily); h.lost == [] && h.wasted == 0
    ensures (forall op :: op in ops ==> Heard(op)) ==> After(ops, limit, tavily).doubled == []
  {
    if ops != [] {
      var init, op := ops[..|ops| - 1], ops[|ops| - 1];
      assert op in ops && forall x :: x in init ==> x in ops;
      QuietRunsLoseNothing(init, limit, tavily);
      if op.Dispatch? {
        var st := After(init, limit, tavily).store;
        QuietTurns(st.budget, Popped(st.lanes, op.concurrency), Weather(tavily, op.answer));
      }
    }
  }

  // ----- exactly when a push is lost -----

  // How often the task waits, and has been handed over and lost since the marks.
  ghost function Places(h: History, task: Task, handedMark: nat, lostMark: nat): nat
    requires handedMark <= |h.store.handed| && lostMark <= |h.lost|
  {
    BagOf(h.store.lanes)[task] + multiset(h.store.handed[handedMark..])[task] + multiset(h.lost[lostMark..])[task]
  }

  lemma CountStays(before: seq<Task>, more: seq<Task>, mark: nat, task: Task)
    requires mark <= |before|
    ensures multiset((before + more)[mark..])[task] == multiset(before[mark..])[task] + multiset(more)[task]
  {
    MemberStays(before, more, mark);
    MembersOfAppend(before[mark..], more);
  }

  // The marks of a moment of the run.
  ghost predicate Since(h: History, mark: History) {
    |mark.store.handed| <= |h.store.handed| && |mark.lost| <= |h.lost| && |mark.doubled| <= |h.doubled|
  }

  ghost predicate AtMostOnce(h: History, task: Task, mark: History) {
    Since(h, mark)
    && Places(h, task, |mark.store.handed|, |mark.lost|) <= 1 + multiset(h.doubled[|mark.doubled|..])[task]
  }

  lemma StepKeepsPlaces(h: History, op: Operation, task: Task, mark: History, tavily: Task -> bool)
    requires h.store.lanes.Ok() && AtMostOnce(h, task, mark) && task !in PushedBy(op)
    ensures AtMostOnce(Performed(h, op, tavily), task, mark)
  {
    var h', l := Performed(h, op, tavily), AccountOf(h.store, op, tavily);
    OperationConserves(h, op, tavily);
    CountStays(h.store.handed, l.handed, |mark.store.handed|, task);
    CountStays(h.lost, l.lost, |mark.lost|, task);
    CountStays(h.doubled, l.doubled, |mark.doubled|, task);
    assert multiset(PushedBy(op))[task] == 0;
    var left := BagOf(h'.store.lanes) + multiset(l.handed) + multiset(l.lost);
    var right := BagOf(h.store.lanes) + multiset(PushedBy(op)) + multiset(l.doubled);
    assert left[task] <= right[task];
  }

  lemma PushIsOnce(h: History, op: Operation, tavily: Task -> bool)
    requires op.Push? && h.store.lanes.Ok() && op.task !in h.Waiting()
    ensures AtMostOnce(Performed(h, op, tavily), op.task, h)
  {
    var h' := Performed(h, op, tavily);
    BagHasTasks(h.store.lanes.Whole());
    EnqueueAddsAtMostOne(h.store.lanes, op.task, op.priority);
    assert h'.store.handed[|h.store.handed|..] == [] && h'.lost[|h.lost|..] == [];
    assert BagOf(h'.store.lanes)[op.task] <= (BagOf(h.store.lanes) + multiset{op.task})[op.task];
  }

  lemma {:induction false} PlacesStay(ops: seq<Operation>, n: nat, task: Task, mark: History, limit: nat, tavily: Task -> bool)
    requires n <= |ops| && AtMostOnce(After(ops[..n], limit, tavily), task, mark)
    requires forall k :: n <= k < |ops| ==> task !in PushedBy(ops[k])
    ensures AtMostOnce(After(ops, limit, tavily), task, mark)
    decreases |ops|
  {
    if n == |ops| {
      assert ops[..n] == ops;
    } else {
      var last := |ops| - 1;
      Prefix(ops, n);
      PlacesStay(ops[..last], n, task, mark, limit, tavily);
      LanesStayOk(ops[..last], limit, tavily);
      StepKeepsPlaces(After(ops[..last], limit, tavily), ops[last], task, mark, tavily);
    }
  }

  lemma LastPushIsOnce(ops: seq<Operation>, i: nat, limit: nat, tavily: Task -> bool)
    requires i < |ops| && ops[i].Push? && ops[i].task !in After(ops[..i], limit, tavily).Waiting()
    requires forall k :: i < k < |ops| ==> ops[i].task !in PushedBy(ops[k])
    ensures AtMostOnce(After(ops, limit, tavily), ops[i].task, After(ops[..i], limit, tavily))
  {
    LanesStayOk(ops[..i], limit, tavily);
    PushIsOnce(After(ops[..i], limit, tavily), ops[i], tavily);
    AfterNext(ops, i, limit, tavily);
    PlacesStay(ops, i + 1, ops[i].task, After(ops[..i], limit, tavily), limit, tavily);
  }

  /**
   For the last push of a task that did not wait already, and unless an answer for it was lost since:
   the task neither waits nor has been handed over since exactly if a stopped dispatch has lost it since.
   */
  lemma PushIsLostIff(ops: seq<Operation>, i: nat, limit: nat, tavily: Task -> bool)
    requires i < |ops| && ops[i].Push? && ops[i].task !in After(ops[..i], limit, tavily).Waiting()
    requires forall k :: i < k < |ops| ==> ops[i].task !in PushedBy(ops[k])
    ensures var mark, h, task := After(ops[..i], limit, tavily), After(ops, limit, tavily), ops[i].task;
      && Since(h, mark)
      && (task !in h.doubled[|mark.doubled|..] ==>
            (task !in h.Waiting() && task !in h.store.handed[|mark.store.handed|..] <==> task in h.lost[|mark.lost|..]))
  {
    var mark, h, task := After(ops[..i], limit, tavily), After(ops, limit, tavily), ops[i].task;
    RunsLoseNothing(ops, i, limit, tavily);
    LastPushIsOnce(ops, i, limit, tavily);
    BagHasTasks(h.store.lanes.Whole());
    if task !in h.doubled[|mark.doubled|..] {
      assert multiset(h.doubled[|mark.doubled|..])[task] == 0;
    }
  }

  // ----- a run for each failure -----

  lemma PlusNothing(l: Ledger)
    ensures NOTHING.Plus(l) == l && l.Plus(NOTHING) == l
  {
    assert [] + l.handed == l.handed && [] + l.back == l.back && [] + l.doubled == l.doubled && [] + l.lost == l.lost;
    assert l.handed + [] == l.handed && l.back + [] == l.back && l.doubled + [] == l.doubled && l.lost + [] == l.lost;
  }

  // A list of one entry.
  predicate Single(z: seq<Entry>, e: Entry) {
    |z| == 1 && z[0] == e
  }

  lemma LoopOfOne(st: Store, z: seq<Entry>, e: Entry, weather: Weather, stop: Stop)
    requires Single(z, e) && (stop.Never? || stop.task == 0)
    ensures Looped(st, z, weather, stop) == if stop.Never? then Delivered(st, e, weather, 0) else CutShort(st, e, weather, 0, stop.point)
  {
    assert z[..0] == [];
    assert AllDelivered(st, z[..0], weather) == st;
  }

  lemma AccountOfOne(budget: int, z: seq<Entry>, e: Entry, weather: Weather, stop: Stop)
    requires Single(z, e) && (stop.Never? || stop.task == 0)
    ensures Account(budget, z, weather, stop) ==
      if stop.Never? then Turn(budget, e.task, weather, 0) else CutTurn(budget, e.task, weather, 0, stop.point)
  {
    assert z[..0] == [] && Names(z[1..]) == [];
    assert Turns(budget, z[..0], weather) == NOTHING;
    PlusNothing(Turn(budget, e.task, weather, 0));
    if stop.At? { PlusNothing(CutTurn(budget, e.task, weather, 0, stop.point)); }
  }

  predicate Empty(q: Lanes) {
    q.high == [] && q.normal == [] && q.low == []
  }

  lemma OnlyEntry(z: seq<Entry>, task: Task, score: real)
    requires z == []
    ensures Single(ZAdd(z, task, score), Entry(task, score))
  {
  }

  lemma OnlyLane(q: Lanes, lane: Lane, z: seq<Entry>, e: Entry)
    requires Empty(q) && Single(z, e)
    ensures Single(q.Put(lane, z).Whole(), e)
  {
  }

  lemma SingleIsTaken(z: seq<Entry>, e: Entry)
    requires Single(z, e)
    ensures Single(z[..1], e) && |z[1..]| == 0
  {
  }

  lemma NoneIsEmpty(q: Lanes)
    requires |q.Whole()| == 0
    ensures Empty(q)
  {
  }

  lemma OnlyPopped(q: Lanes, e: Entry)
    requires Single(q.Whole(), e)
    ensures Single(Popped(q, 1), e) && Empty(Dropped(q, 1))
  {
    DroppedIsTheRest(q, 1);
    SingleIsTaken(q.Whole(), e);
    NoneIsEmpty(Dropped(q, 1));
  }

  lemma OneWaits(q: Lanes, task: Task, priority: real)
    requires Empty(q)
    ensures var q' := Enqueued(q, task, priority); Single(Popped(q', 1), Entry(task, -priority)) && Empty(Dropped(q', 1))
  {
    var lane := LaneOf(priority);
    OnlyEntry(q.Get(lane), task, -priority);
    OnlyLane(q, lane, ZAdd(q.Get(lane), task, -priority), Entry(task, -priority));
    OnlyPopped(Enqueued(q, task, priority), Entry(task, -priority));
  }

  lemma DispatchOfOne(st: Store, e: Entry, weather: Weather, stop: Stop)
    requires (stop.Never? || stop.task == 0) && Single(Popped(st.lanes, 1), e)
    ensures var left := st.(lanes := Dropped(st.lanes, 1));
      Dispatched(st, 1, weather, stop) ==
        if stop.Never? then Delivered(left, e, weather, 0) else CutShort(left, e, weather, 0, stop.point)
  {
    LoopOfOne(st.(lanes := Dropped(st.lanes, 1)), Popped(st.lanes, 1), e, weather, stop);
  }

  // The run pushes the task on the empty queue and dispatches once.
  predicate PushesAndDispatches(ops: seq<Operation>, task: Task, stop: Stop) {
    && |ops| == 2 && ops[0].Push? && ops[0].task == task
    && ops[1].Dispatch? && ops[1].concurrency == 1 && ops[1].stop == stop && (stop.Never? || stop.task == 0)
  }

  lemma TwoOperations(ops: seq<Operation>, limit: nat, tavily: Task -> bool)
    requires |ops| == 2
    ensures After(ops, limit, tavily) ==
      Performed(Performed(History(Store(EMPTY, limit, []), [], [], 0), ops[0], tavily), ops[1], tavily)
  {
    assert ops[..1][..0] == [];
    assert After(ops[..1], limit, tavily) == Performed(After(ops[..1][..0], limit, tavily), ops[0], tavily);
  }

  // What a dispatch of one task makes of a history in which nothing was lost yet.
  predicate Turned(h: History, st: Store, e: Entry, weather: Weather, stop: Stop) {
    var l := if stop.Never? then Turn(st.budget, e.task, weather, 0) else CutTurn(st.budget, e.task, weather, 0, stop.point);
    && h.store == (if stop.Never? then Delivered(st, e, weather, 0) else CutShort(st, e, weather, 0, stop.point))
    && h.lost == l.lost && h.doubled == l.doubled && h.wasted == l.wasted
  }

  predicate Clean(h: History) {
    h.lost == [] && h.doubled == [] && h.wasted == 0
  }

  lemma CleanPlus(l: Ledger)
    ensures [] + l.lost == l.lost && [] + l.doubled == l.doubled
  {
  }

  lemma DispatchTurns(h: History, op: Operation, e: Entry, tavily: Task -> bool)
    requires Clean(h) && op.Dispatch? && op.concurrency == 1 && (op.stop.Never? || op.stop.task == 0)
    requires Single(Popped(h.store.lanes, 1), e)
    ensures Turned(Performed(h, op, tavily), h.store.(lanes := Dropped(h.store.lanes, 1)), e, Weather(tavily, op.answer), op.stop)
  {
    DispatchOfOne(h.store, e, Weather(tavily, op.answer), op.stop);
    AccountOfOne(h.store.budget, Popped(h.store.lanes, 1), e, Weather(tavily, op.answer), op.stop);
    CleanPlus(AccountOf(h.store, op, tavily));
  }

  lemma PushIsClean(h: History, op: Operation, tavily: Task -> bool)
    requires Clean(h) && op.Push?
    ensures var h' := Performed(h, op, tavily); Clean(h') && h'.store == h.store.(lanes := Enqueued(h.store.lanes, op.task, op.priority))
  {
  }

  // After the push of a task on the empty queue, it is the one entry to be popped.
  predicate HasOnly(h: History, e: Entry, budget: int, handed: seq<Task>) {
    && Clean(h) && Single(Popped(h.store.lanes, 1), e) && h.store.budget == budget && h.store.handed == handed
    && |h.store.lanes.Whole()| >= 1 && Empty(Dropped(h.store.lanes, 1))
  }

  lemma PushLeavesOne(start: History, push: Operation, tavily: Task -> bool)
    requires push.Push? && Clean(start) && Empty(start.store.lanes)
    ensures HasOnly(Performed(start, push, tavily), Entry(push.task, -push.priority), start.store.budget, start.store.handed)
  {
    PushIsClean(start, push, tavily);
    OneWaits(start.store.lanes, push.task, push.priority);
  }

  lemma PushedOn(h: History, e: Entry, budget: int, handed: seq<Task>, dispatch: Operation, tavily: Task -> bool)
    returns (st: Store)
    requires HasOnly(h, e, budget, handed)
    requires dispatch.Dispatch? && dispatch.concurrency == 1 && (dispatch.stop.Never? || dispatch.stop.task == 0)
    ensures Empty(st.lanes) && st.budget == budget && st.handed == handed
    ensures Turned(Performed(h, dispatch, tavily), st, e, Weather(tavily, dispatch.answer), dispatch.stop)
  {
    DispatchTurns(h, dispatch, e, tavily);
    st := h.store.(lanes := Dropped(h.store.lanes, 1));
  }

  lemma PushedFirst(ops: seq<Operation>, task: Task, stop: Stop, limit: nat, tavily: Task -> bool) returns (st: Store, e: Entry, weather: Weather)
    requires PushesAndDispatches(ops, task, stop)
    ensures e.task == task && weather == Weather(tavily, ops[1].answer)
    ensures Empty(st.lanes) && st.budget == limit && st.handed == []
    ensures Turned(After(ops, limit, tavily), st, e, weather, stop)
  {
    var start := History(Store(EMPTY, limit, []), [], [], 0);
    e, weather := Entry(task, -ops[0].priority), Weather(tavily, ops[1].answer);
    PushLeavesOne(start, ops[0], tavily);
    st := PushedOn(Performed(start, ops[0], tavily), e, limit, [], ops[1], tavily);
    TwoOperations(ops, limit, tavily);
  }

  lemma NobodyWaits(q: Lanes)
    requires Empty(q)
    ensures q.Ok() && TasksOf(q) == {}
  {
    assert forall lane :: q.LaneOk(lane);
    assert q.Whole() == [];
  }

  /** One task is pushed and popped, and the job ends before its turn: it neither waits nor was handed over. */
  lemma StoppedDispatchLosesTask(ops: seq<Operation>, task: Task, limit: nat, tavily: Task -> bool)
    requires PushesAndDispatches(ops, task, At(0, Untouched))
    ensures var h := After(ops, limit, tavily); h.Waiting() == {} && h.store.handed == [] && h.lost == [task]
  {
    var st, e, weather := PushedFirst(ops, task, At(0, Untouched), limit, tavily);
    NobodyWaits(st.lanes);
  }

  /** The job ends between paying for the call and handing the task over: the call is spent in vain. */
  lemma StopAfterPayingWastesCall(ops: seq<Operation>, task: Task, limit: nat, tavily: Task -> bool)
    requires PushesAndDispatches(ops, task, At(0, Paid)) && tavily(task) && limit > 0
    ensures var h := After(ops, limit, tavily); h.store.budget == limit - 1 && h.store.handed == [] && h.wasted == 1
  {
    var st, e, weather := PushedFirst(ops, task, At(0, Paid), limit, tavily);
  }

  lemma DoubledTurn(st: Store, e: Entry, weather: Weather)
    requires Empty(st.lanes) && weather.answer(0) == TakenButRaised && Payable(st.budget, e.task, weather)
    ensures var st' := Delivered(st, e, weather, 0);
      TasksOf(st'.lanes) == {e.task} && st'.handed == st.handed + [e.task] && st'.budget == st.budget
  {
    NobodyWaits(st.lanes);
    EnqueueAddsTask(st.lanes, e.task, Priority(e));
  }

  /** The hand-over takes effect but raises: the task is handed over and waits again, and its call is given back. */
  lemma LostAnswerDoublesTask(ops: seq<Operation>, task: Task, limit: nat, tavily: Task -> bool)
    requires PushesAndDispatches(ops, task, Never) && ops[1].answer(0) == TakenButRaised && (tavily(task) ==> limit > 0)
    ensures var h := After(ops, limit, tavily); h.Waiting() == {task} && h.store.handed == [task] && h.store.budget == limit
  {
    var st, e, weather := PushedFirst(ops, task, Never, limit, tavily);
    DoubledTurn(st, e, weather);
  }
}

/**
 The dispatcher (backend/app/collectors/jobs.py): it pops tasks off the queue and hands them to the
 worker queue.  A hand-over may be refused, or raise although it took effect, and the whole job may
 end early at any await, by an error or by cancellation.
 */
module Dispatcher {
  import opened TaskQueue

  datatype Store = Store(lanes: Lanes, budget: int, handed: seq<Task>)

  // What the worker queue answers: a call that raises may have taken effect all the same.
  datatype Answer = Taken | Refused | TakenButRaised

  // Which tasks cost a Tavily call, and how each hand-over is answered.
  datatype Weather = Weather(tavily: Task -> bool, answer: nat -> Answer)

  // How far the turn of a task had come when the job ended: not begun; its call paid; handed over; or
  // waiting in a lane again, before the call was given back.
  datatype Point = Untouched | Paid | Handed | Returned

  datatype Stop = Never | At(task: nat, point: Point)

  const DEFERRED_PRIORITY := 0.1

  predicate Payable(budget: int, task: Task, weather: Weather) {
    weather.tavily(task) ==> budget > 0
  }

  function Price(task: Task, weather: Weather): nat {
    if weather.tavily(task) then 1 else 0
  }

  // ----- what the job does to Redis -----

  // What becomes of the n-th popped task.
  function Delivered(st: Store, e: Entry, weather: Weather, n: nat): Store {
    if !Payable(st.budget, e.task, weather) then st.(lanes := Enqueued(st.lanes, e.task, DEFERRED_PRIORITY))
    else match weather.answer(n)
      case Taken => st.(handed := st.handed + [e.task], budget := st.budget - Price(e.task, weather))
      case Refused => st.(lanes := Enqueued(st.lanes, e.task, Priority(e)))
      case TakenButRaised => st.(handed := st.handed + [e.task], lanes := Enqueued(st.lanes, e.task, Priority(e)))
  }

  // Its turn, cut short at a point it reaches; a point it does not reach leaves it untouched.
  function CutShort(st: Store, e: Entry, weather: Weather, n: nat, point: Point): Store {
    var paid := st.(budget := st.budget - Price(e.task, weather));
    if !Payable(st.budget, e.task, weather) then
      if point.Returned? then st.(lanes := Enqueued(st.lanes, e.task, DEFERRED_PRIORITY)) else st
    else match point
      case Untouched => st
      case Paid => paid
      case Handed => if weather.answer(n).Refused? then paid else paid.(handed := st.handed + [e.task])
      case Returned =>
        match weather.answer(n)
        case Taken => paid.(handed := st.handed + [e.task])
        case Refused => paid.(lanes := Enqueued(st.lanes, e.task, Priority(e)))
        case TakenButRaised => paid.(handed := st.handed + [e.task], lanes := Enqueued(st.lanes, e.task, Priority(e)))
  }

  function AllDelivered(st: Store, popped: seq<Entry>, weather: Weather): Store {
    if popped == [] then st
    else
      var last := |popped| - 1;
      Delivered(AllDelivered(st, popped[..last], weather), popped[last], weather, last)
  }

  lemma NextDelivery(st: Store, popped: seq<Entry>, weather: Weather, n: nat)
    requires n < |popped|
    ensures AllDelivered(st, popped[..n + 1], weather) == Delivered(AllDelivered(st, popped[..n], weather), popped[n], weather, n)
  {
    assert popped[..n + 1][..n] == popped[..n];
  }

  predicate Cuts(stop: Stop, popped: seq<Entry>) {
    stop.At? && stop.task < |popped|
  }

  function Looped(st: Store, popped: seq<Entry>, weather: Weather, stop: Stop): Store {
    if Cuts(stop, popped) then
      CutShort(AllDelivered(st, popped[..stop.task], weather), popped[stop.task], weather, stop.task, stop.point)
    else AllDelivered(st, popped, weather)
  }

  // A job that ends while it is still popping has popped as if it had wanted fewer tasks; see PoppingPartway.
  function Dispatched(st: Store, concurrency: int, weather: Weather, stop: Stop): Store {
    var popped := Popped(st.lanes, concurrency);
    Looped(st.(lanes := Dropped(st.lanes, |popped|)), popped, weather, stop)
  }

  lemma FirstEntries(q: Lanes, k: nat, h: nat, m: nat, l: nat)
    requires h <= |q.high| && m <= |q.normal| && l <= |q.low| && k == h + m + l
    requires (h < |q.high| ==> m == 0) && (h < |q.high| || m < |q.normal| ==> l == 0)
    ensures k <= |q.Whole()| && Dropped(q, k) == Lanes(q.high[h..], q.normal[m..], q.low[l..])
    ensures Popped(q, k) == q.high[..h] + q.normal[..m] + q.low[..l]
  {
    TakeThree(q.high, q.normal, q.low, h, m, l);
  }

  // The first k entries, and only they, have been popped.
  predicate PopsFirst(q: Lanes, p: Popping, k: nat) {
    k <= |q.Whole()| && p == Popping(Dropped(q, k), Popped(q, k))
  }

  lemma NoneTaken(front: seq<Entry>, lane: seq<Entry>)
    ensures front + lane[..0] == front && lane[0..] == lane
  {
  }

  ghost predicate PopsSomeFirst(q: Lanes, p: Popping) {
    exists k: nat :: PopsFirst(q, p, k)
  }

  lemma FirstOfThreeLanes(q: Lanes, p: Popping, h: nat, m: nat, l: nat)
    requires h <= |q.high| && m <= |q.normal| && l <= |q.low|
    requires (h < |q.high| ==> m == 0) && (h < |q.high| || m < |q.normal| ==> l == 0)
    requires p.lanes == Lanes(q.high[h..], q.normal[m..], q.low[l..]) && p.tasks == q.high[..h] + q.normal[..m] + q.low[..l]
    ensures PopsSomeFirst(q, p)
  {
    var k := h + m + l;
    FirstEntries(q, k, h, m, l);
    assert PopsFirst(q, p, k);
  }

  lemma FirstOfTwoLanes(q: Lanes, p: Popping, h: nat, m: nat)
    requires h <= |q.high| && m <= |q.normal| && (h < |q.high| ==> m == 0)
    requires p == Popping(Lanes(q.high[h..], q.normal[m..], q.low), q.high[..h] + q.normal[..m])
    ensures PopsSomeFirst(q, p)
  {
    NoneTaken(q.high[..h] + q.normal[..m], q.low);
    FirstOfThreeLanes(q, p, h, m, 0);
  }

  lemma HighPopped(q: Lanes, n: int)
    ensures PopsSomeFirst(q, PopLanes(q, n, 1))
  {
    PopHigh(q, n);
    NoneTaken(q.high[..Available(n, |q.high|)], q.normal);
    FirstOfTwoLanes(q, PopLanes(q, n, 1), Available(n, |q.high|), 0);
  }

  lemma NormalPopped(q: Lanes, n: int)
    ensures PopsSomeFirst(q, PopLanes(q, n, 2))
  {
    PopNormal(q, n);
    var h := Available(n, |q.high|);
    FirstOfTwoLanes(q, PopLanes(q, n, 2), h, Available(n - h, |q.normal|));
  }

  /** After one or two lanes, exactly the first entries of the one queue are gone. */
  lemma PoppingPartway(q: Lanes, n: int, i: nat)
    requires 1 <= i <= 2
    ensures PopsSomeFirst(q, PopLanes(q, n, i))
  {
    if i == 1 { HighPopped(q, n); } else { NormalPopped(q, n); }
  }

  // ----- what the job owes for the tasks it popped -----

  // Handed over, waiting again, both (the answer was lost), or gone; calls spent, and of these in vain.
  datatype Ledger = Ledger(handed: seq<Task>, back: seq<Task>, doubled: seq<Task>, lost: seq<Task>, charged: nat, wasted: nat) {
    function Plus(more: Ledger): Ledger {
      Ledger(handed + more.handed, back + more.back, doubled + more.doubled, lost + more.lost,
             charged + more.charged, wasted + more.wasted)
    }
  }

  const NOTHING := Ledger([], [], [], [], 0, 0)

  function Turn(budget: int, task: Task, weather: Weather, n: nat): Ledger {
    if !Payable(budget, task, weather) then NOTHING.(back := [task])
    else match weather.answer(n)
      case Taken => NOTHING.(handed := [task], charged := Price(task, weather))
      case Refused => NOTHING.(back := [task])
      case TakenButRaised => NOTHING.(handed := [task], back := [task], doubled := [task])
  }

  function CutTurn(budget: int, task: Task, weather: Weather, n: nat, point: Point): Ledger {
    var price := Price(task, weather);
    if !Payable(budget, task, weather) then
      if point.Returned? then NOTHING.(back := [task]) else NOTHING.(lost := [task])
    else match point
      case Untouched => NOTHING.(lost := [task])
      case Paid => NOTHING.(lost := [task], charged := price, wasted := price)
      case Handed =>
        if weather.answer(n).Refused? then NOTHING.(lost := [task], charged := price, wasted := price)
        else NOTHING.(handed := [task], charged := price)
      case Returned =>
        match weather.answer(n)
        case Taken => NOTHING.(handed := [task], charged := price)
        case Refused => NOTHING.(back := [task], charged := price, wasted := price)
        case TakenButRaised => NOTHING.(handed := [task], back := [task], doubled := [task], charged := price, wasted := price)
  }

  // The turns of the tasks in order, each with the budget that the ones before have left.
  function Turns(budget: int, popped: seq<Entry>, weather: Weather): Ledger {
    if popped == [] then NOTHING
    else
      var last := |popped| - 1;
      var before := Turns(budget, popped[..last], weather);
      before.Plus(Turn(budget - before.charged, popped[last].task, weather, last))
  }

  function Names(z: seq<Entry>): (r: seq<Task>)
    ensures |r| == |z| && forall i :: 0 <= i < |z| ==> r[i] == z[i].task
  {
    seq(|z|, i requires 0 <= i < |z| => z[i].task)
  }

  // The whole loop: a stop loses whatever is popped and not yet begun.
  function Account(budget: int, popped: seq<Entry>, weather: Weather, stop: Stop): Ledger {
    if Cuts(stop, popped) then
      var before := Turns(budget, popped[..stop.task], weather);
      before.Plus(CutTurn(budget - before.charged, popped[stop.task].task, weather, stop.task, stop.point))
            .Plus(NOTHING.(lost := Names(popped[stop.task + 1..])))
    else Turns(budget, popped, weather)
  }

  function CountTavily(tasks: seq<Task>, tavily: Task -> bool): nat {
    if tasks == [] then 0 else CountTavily(tasks[..|tasks| - 1], tavily) + (if tavily(tasks[|tasks| - 1]) then 1 else 0)
  }

  lemma {:induction false} CountOfAppend(a: seq<Task>, b: seq<Task>, tavily: Task -> bool)
    ensures CountTavily(a + b, tavily) == CountTavily(a, tavily) + CountTavily(b, tavily)
  {
    if b == [] {
      assert a + b == a;
    } else {
      assert (a + b)[..|a + b| - 1] == a + b[..|b| - 1];
      CountOfAppend(a, b[..|b| - 1], tavily);
    }
  }

  lemma CountOfOne(task: Task, tavily: Task -> bool)
    ensures CountTavily([task], tavily) == (if tavily(task) then 1 else 0) && CountTavily([], tavily) == 0
  {
    assert [task][..0] == [];
  }

  // ----- the books balance -----

  // Every occurrence popped is handed over, waits again or is gone; only a doubled one counts twice.
  // Every call spent is for a task handed over or in vain; only a doubled task may be free.
  ghost predicate Balanced(l: Ledger, tasks: multiset<Task>, tavily: Task -> bool) {
    && multiset(l.handed) + multiset(l.back) + multiset(l.lost) == tasks + multiset(l.doubled)
    && CountTavily(l.handed, tavily) + l.wasted == l.charged + CountTavily(l.doubled, tavily)
    && (forall t :: t in tasks <==> t in l.handed || t in l.back || t in l.lost)
  }

  lemma SixBags(a: multiset<Task>, b: multiset<Task>, c: multiset<Task>, d: multiset<Task>, t: multiset<Task>,
                a': multiset<Task>, b': multiset<Task>, c': multiset<Task>, d': multiset<Task>, t': multiset<Task>)
    requires a + b + c == t + d && a' + b' + c' == t' + d'
    ensures (a + a') + (b + b') + (c + c') == (t + t') + (d + d')
  {
    var left, right := (a + a') + (b + b') + (c + c'), (t + t') + (d + d');
    forall x ensures left[x] == right[x] {
      assert (a + b + c)[x] == (t + d)[x] && (a' + b' + c')[x] == (t' + d')[x];
    }
    assert left == right;
  }

  lemma BalancedTogether(l: Ledger, more: Ledger, tasks: multiset<Task>, others: multiset<Task>, tavily: Task -> bool)
    requires Balanced(l, tasks, tavily) && Balanced(more, others, tavily)
    ensures Balanced(l.Plus(more), tasks + others, tavily)
  {
    CountOfAppend(l.handed, more.handed, tavily);
    CountOfAppend(l.doubled, more.doubled, tavily);
    MembersOfAppend(l.handed, more.handed);
    MembersOfAppend(l.back, more.back);
    MembersOfAppend(l.lost, more.lost);
    MembersOfAppend(l.doubled, more.doubled);
    SixBags(multiset(l.handed), multiset(l.back), multiset(l.lost), multiset(l.doubled), tasks,
            multiset(more.handed), multiset(more.back), multiset(more.lost), multiset(more.doubled), others);
  }

  function Once(yes: bool, task: Task): seq<Task> {
    if yes then [task] else []
  }

  function Number(yes: bool): nat {
    if yes then 1 else 0
  }

  lemma OnceCounts(yes: bool, task: Task, tavily: Task -> bool)
    ensures multiset(Once(yes, task)) == (if yes then multiset{task} else multiset{})
    ensures CountTavily(Once(yes, task), tavily) == (if yes && tavily(task) then 1 else 0)
  {
    CountOfOne(task, tavily);
  }

  lemma ShapeBalances(task: Task, handed: bool, back: bool, doubled: bool, lost: bool, charged: nat, wasted: nat, tavily: Task -> bool)
    requires Number(handed) + Number(back) + Number(lost) == 1 + Number(doubled)
    requires Number(handed && tavily(task)) + wasted == charged + Number(doubled && tavily(task))
    ensures Balanced(Ledger(Once(handed, task), Once(back, task), Once(doubled, task), Once(lost, task), charged, wasted), multiset{task}, tavily)
  {
    OnceCounts(handed, task, tavily);
    OnceCounts(back, task, tavily);
    OnceCounts(doubled, task, tavily);
    OnceCounts(lost, task, tavily);
  }

  lemma TurnBalances(budget: int, task: Task, weather: Weather, n: nat)
    ensures Balanced(Turn(budget, task, weather, n), multiset{task}, weather.tavily)
  {
    if !Payable(budget, task, weather) || weather.answer(n).Refused? {
      ShapeBalances(task, false, true, false, false, 0, 0, weather.tavily);
    } else if weather.answer(n).Taken? {
      ShapeBalances(task, true, false, false, false, Price(task, weather), 0, weather.tavily);
    } else {
      ShapeBalances(task, true, true, true, false, 0, 0, weather.tavily);
    }
  }

  lemma CutTurnBalances(budget: int, task: Task, weather: Weather, n: nat, point: Point)
    ensures Balanced(CutTurn(budget, task, weather, n, point), multiset{task}, weather.tavily)
  {
    var price := Price(task, weather);
    ShapeBalances(task, false, true, false, false, 0, 0, weather.tavily);
    ShapeBalances(task, false, false, false, true, 0, 0, weather.tavily);
    ShapeBalances(task, false, false, false, true, price, price, weather.tavily);
    ShapeBalances(task, true, false, false, false, price, 0, weather.tavily);
    ShapeBalances(task, false, true, false, false, price, price, weather.tavily);
    ShapeBalances(task, true, true, true, false, price, price, weather.tavily);
  }

  lemma {:induction false} TurnsBalance(budget: int, popped: seq<Entry>, weather: Weather)
    ensures Balanced(Turns(budget, popped, weather), Bag(popped), weather.tavily)
  {
    if popped == [] {
      CountOfOne("", weather.tavily);
    } else {
      var last := |popped| - 1;
      var before := Turns(budget, popped[..last], weather);
      TurnsBalance(budget, popped[..last], weather);
      TurnBalances(budget - before.charged, popped[last].task, weather, last);
      BalancedTogether(before, Turn(budget - before.charged, popped[last].task, weather, last),
                       Bag(popped[..last]), multiset{popped[last].task}, weather.tavily);
      LastEntry(popped);
    }
  }

  lemma {:induction false} NamesCount(z: seq<Entry>)
    ensures multiset(Names(z)) == Bag(z)
  {
    if z != [] {
      NamesCount(z[1..]);
      assert Names(z) == [z[0].task] + Names(z[1..]);
    }
  }

  lemma RestBalances(z: seq<Entry>, tavily: Task -> bool)
    ensures Balanced(NOTHING.(lost := Names(z)), Bag(z), tavily)
  {
    NamesCount(z);
    CountOfOne("", tavily);
  }

  lemma ThreeParts(z: seq<Entry>, k: nat)
    requires k < |z|
    ensures Bag(z) == Bag(z[..k]) + multiset{z[k].task} + Bag(z[k + 1..])
  {
    assert z == z[..k] + z[k..];
    assert z[k..][1..] == z[k + 1..];
    BagOfAppend(z[..k], z[k..]);
  }

  /** The account of a whole dispatch balances, wherever it stops. */
  lemma AccountBalances(budget: int, popped: seq<Entry>, weather: Weather, stop: Stop)
    ensures Balanced(Account(budget, popped, weather, stop), Bag(popped), weather.tavily)
  {
    if Cuts(stop, popped) {
      var k := stop.task;
      var before := Turns(budget, popped[..k], weather);
      var turn := CutTurn(budget - before.charged, popped[k].task, weather, k, stop.point);
      TurnsBalance(budget, popped[..k], weather);
      CutTurnBalances(budget - before.charged, popped[k].task, weather, k, stop.point);
      RestBalances(popped[k + 1..], weather.tavily);
      BalancedTogether(before, turn, Bag(popped[..k]), multiset{popped[k].task}, weather.tavily);
      BalancedTogether(before.Plus(turn), NOTHING.(lost := Names(popped[k + 1..])),
                       Bag(popped[..k]) + multiset{popped[k].task}, Bag(popped[k + 1..]), weather.tavily);
      ThreeParts(popped, k);
    } else {
      TurnsBalance(budget, popped, weather);
    }
  }

  // ----- Redis afterwards is what the account says -----

  ghost predicate Settles(st: Store, st': Store, l: Ledger) {
    && st'.lanes.Ok() && st'.handed == st.handed + l.handed
    && st'.budget == st.budget - l.charged && (st.budget >= 0 ==> st'.budget >= 0)
    && TasksOf(st'.lanes) == TasksOf(st.lanes) + Members(l.back)
    && BagOf(st'.lanes) <= BagOf(st.lanes) + multiset(l.back)
  }

  lemma MoreWaits(a: multiset<Task>, b: multiset<Task>, c: multiset<Task>, x: multiset<Task>, y: multiset<Task>)
    requires b <= a + x && c <= b + y
    ensures c <= a + (x + y)
  {
    forall t ensures c[t] <= (a + (x + y))[t] {
      assert b[t] <= (a + x)[t] && c[t] <= (b + y)[t];
    }
  }

  lemma SettlesThen(st: Store, mid: Store, st': Store, l: Ledger, more: Ledger)
    requires Settles(st, mid, l) && Settles(mid, st', more)
    ensures Settles(st, st', l.Plus(more))
  {
    MembersOfAppend(l.back, more.back);
    MoreWaits(BagOf(st.lanes), BagOf(mid.lanes), BagOf(st'.lanes), multiset(l.back), multiset(more.back));
    assert st.handed + l.handed + more.handed == st.handed + (l.handed + more.handed);
  }

  lemma LosingSettles(st: Store, lost: seq<Task>)
    requires st.lanes.Ok()
    ensures Settles(st, st, NOTHING.(lost := lost))
  {
    assert Members([]) == {} && st.handed + [] == st.handed;
  }

  lemma RequeueWaits(q: Lanes, task: Task, priority: real)
    requires q.Ok()
    ensures var q' := Enqueued(q, task, priority);
      && q'.Ok() && TasksOf(q') == TasksOf(q) + Members([task]) && BagOf(q') <= BagOf(q) + multiset([task])
      && Waits(q', task, priority)
  {
    EnqueueKeepsOk(q, task, priority);
    EnqueueAddsTask(q, task, priority);
    EnqueueAddsAtMostOne(q, task, priority);
    EnqueuedWaits(q, task, priority);
    assert Members([task]) == {task} && multiset([task]) == multiset{task};
  }

  lemma NoneWaitsMore(st: Store)
    ensures Members([]) == {} && TasksOf(st.lanes) + Members([]) == TasksOf(st.lanes) && st.handed + [] == st.handed
  {
  }

  /**
   One task: it is handed over exactly if its call is in the budget and the worker queue takes it.  If
   not, it waits again: in the low lane if the budget was empty, else with the priority it was popped with.
   */
  lemma OneDelivery(st: Store, e: Entry, weather: Weather, n: nat)
    requires st.lanes.Ok()
    ensures Settles(st, Delivered(st, e, weather, n), Turn(st.budget, e.task, weather, n))
    ensures var taken := (weather.tavily(e.task) ==> st.budget > 0) && weather.answer(n) != Refused;
      Delivered(st, e, weather, n).handed == if taken then st.handed + [e.task] else st.handed
    ensures var lanes := Delivered(st, e, weather, n).lanes;
      && (!Payable(st.budget, e.task, weather) ==> Entry(e.task, -0.1) in lanes.low)
      && (Payable(st.budget, e.task, weather) && !weather.answer(n).Taken? ==> Waits(lanes, e.task, Priority(e)))
  {
    RequeueWaits(st.lanes, e.task, DEFERRED_PRIORITY);
    RequeueWaits(st.lanes, e.task, Priority(e));
    NoneWaitsMore(st);
  }

  // Whatever was handed over and paid, no lane changed.
  lemma SettlesInPlace(st: Store, st': Store, l: Ledger)
    requires st.lanes.Ok() && st'.lanes == st.lanes && st'.handed == st.handed + l.handed && l.back == []
    requires st'.budget == st.budget - l.charged && (st.budget >= 0 ==> st'.budget >= 0)
    ensures Settles(st, st', l)
  {
    NoneWaitsMore(st);
  }

  lemma SettlesRequeued(st: Store, st': Store, l: Ledger, task: Task, priority: real)
    requires st.lanes.Ok() && st'.lanes == Enqueued(st.lanes, task, priority) && l.back == [task]
    requires st'.handed == st.handed + l.handed && st'.budget == st.budget - l.charged && (st.budget >= 0 ==> st'.budget >= 0)
    ensures Settles(st, st', l)
  {
    RequeueWaits(st.lanes, task, priority);
  }

  lemma NothingMore(handed: seq<Task>)
    ensures handed + [] == handed
  {
  }

  lemma CutDelivery(st: Store, e: Entry, weather: Weather, n: nat, point: Point)
    requires st.lanes.Ok()
    ensures Settles(st, CutShort(st, e, weather, n, point), CutTurn(st.budget, e.task, weather, n, point))
  {
    var st', l := CutShort(st, e, weather, n, point), CutTurn(st.budget, e.task, weather, n, point);
    NothingMore(st.handed);
    if l.back == [] {
      SettlesInPlace(st, st', l);
    } else {
      SettlesRequeued(st, st', l, e.task, if Payable(st.budget, e.task, weather) then Priority(e) else DEFERRED_PRIORITY);
    }
  }

  lemma {:induction false} LoopSettles(st: Store, popped: seq<Entry>, weather: Weather)
    requires st.lanes.Ok()
    ensures Settles(st, AllDelivered(st, popped, weather), Turns(st.budget, popped, weather))
  {
    if popped == [] {
      LosingSettles(st, []);
    } else {
      var last := |popped| - 1;
      var mid := AllDelivered(st, popped[..last], weather);
      LoopSettles(st, popped[..last], weather);
      OneDelivery(mid, popped[last], weather, last);
      SettlesThen(st, mid, AllDelivered(st, popped, weather), Turns(st.budget, popped[..last], weather),
                  Turn(mid.budget, popped[last].task, weather, last));
    }
  }

  /** The loop, wherever it stops, leaves exactly what its account says. */
  lemma AccountSettles(st: Store, popped: seq<Entry>, weather: Weather, stop: Stop)
    requires st.lanes.Ok()
    ensures Settles(st, Looped(st, popped, weather, stop), Account(st.budget, popped, weather, stop))
  {
    if Cuts(stop, popped) {
      var k := stop.task;
      var before := Turns(st.budget, popped[..k], weather);
      var mid, st' := AllDelivered(st, popped[..k], weather), Looped(st, popped, weather, stop);
      var turn := CutTurn(mid.budget, popped[k].task, weather, k, stop.point);
      LoopSettles(st, popped[..k], weather);
      CutDelivery(mid, popped[k], weather, k, stop.point);
      SettlesThen(st, mid, st', before, turn);
      LosingSettles(st', Names(popped[k + 1..]));
      SettlesThen(st, st', st', before.Plus(turn), NOTHING.(lost := Names(popped[k + 1..])));
    } else {
      LoopSettles(st, popped, weather);
    }
  }

  lemma NextTurn(budget: int, popped: seq<Entry>, weather: Weather, n: nat)
    requires n < |popped|
    ensures var before := Turns(budget, popped[..n], weather);
      Turns(budget, popped[..n + 1], weather) == before.Plus(Turn(budget - before.charged, popped[n].task, weather, n))
  {
    assert popped[..n + 1][..n] == popped[..n];
  }

  // What the loop counts: the hand-overs that returned.
  predicate CountsTaken(budget: int, popped: seq<Entry>, weather: Weather, remaining: int, enqueued: nat) {
    var l := Turns(budget, popped, weather);
    remaining == budget - l.charged && enqueued + |l.doubled| == |l.handed|
  }

  lemma OneMoreCounted(budget: int, popped: seq<Entry>, weather: Weather, n: nat, remaining: int, enqueued: nat)
    requires n < |popped| && CountsTaken(budget, popped[..n], weather, remaining, enqueued)
    ensures var task := popped[n].task; var taken := Payable(remaining, task, weather) && weather.answer(n).Taken?;
      CountsTaken(budget, popped[..n + 1], weather, remaining - Turn(remaining, task, weather, n).charged,
                  if taken then enqueued + 1 else enqueued)
  {
    NextTurn(budget, popped, weather, n);
  }

  class Redis {
    var lanes: Lanes
    var tavilyBudget: int
    var arq: seq<Task>          // jobs handed to the worker queue

    function View(): Store
      reads this
    {
      Store(lanes, tavilyBudget, arq)
    }

    constructor (monthlyLimit: nat)
      ensures View() == Store(EMPTY, monthlyLimit, [])
    {
      lanes, tavilyBudget, arq := EMPTY, monthlyLimit, [];
    }

    /** The entry joins the queue, in place of the same task's entry of the same lane. */
    method Enqueue(task: Task, priority: real)
      modifies this`lanes
      ensures lanes == Enqueued(old(lanes), task, priority)
      ensures old(lanes).Ok() ==> lanes.Ok() && forall e :: e in lanes.Whole() <==>
        e == Entry(task, -priority) || (e in old(lanes).Whole() && !(e.task == task && LaneOf(Priority(e)) == LaneOf(priority)))
    {
      ghost var q := lanes;
      var lane := LaneOf(priority);
      lanes := lanes.Put(lane, ZAdd(lanes.Get(lane), task, -priority));
      if q.Ok() {
        EnqueueKeepsOk(q, task, priority);
        forall e { EnqueueUpdatesOneEntry(q, task, priority, e); }
      }
    }

    /** Pops lane by lane; together the lanes behave as one queue. */
    method PopTopWithPriority(n: int) returns (tasks: seq<Entry>)
      modifies this`lanes
      ensures tasks == Popped(old(lanes), n) && lanes == Dropped(old(lanes), |tasks|)
    {
      ghost var q := lanes;
      tasks := [];
      for i := 0 to 3
        invariant Popping(lanes, tasks) == PopLanes(q, n, i)
      {
        var lane := lanes.Get(LaneAt(i));
        var count := Available(n - |tasks|, |lane|);
        if |tasks| >= n {
          assert lane[..count] == [] && lane[count..] == lane && tasks + [] == tasks;
          continue;
        }
        tasks := tasks + lane[..count];
        lanes := lanes.Put(LaneAt(i), lane[count..]);
      }
      LaneByLane(q, n);
    }

    /** The same tasks as a pop would return, without removing them. */
    method Peek(n: int) returns (tasks: seq<Task>)
      ensures tasks == Names(Popped(lanes, n))
    {
      ghost var w := lanes.Whole();
      ghost var ends := [0, |lanes.high|, |lanes.high| + |lanes.normal|, |w|];
      tasks := [];
      for i := 0 to 3
        invariant |tasks| == Available(n, ends[i])
        invariant forall j :: 0 <= j < |tasks| ==> tasks[j] == w[j].task
      {
        if |tasks| >= n {
          continue;
        }
        var lane := lanes.Get(LaneAt(i));
        var count := Available(n - |tasks|, |lane|);
        tasks := tasks + seq(count, j requires 0 <= j < count => lane[j].task);
      }
    }

    /** The turn of the n-th task popped, cut short at `point` if `cut`. */
    method TakeTurn(e: Entry, n: nat, weather: Weather, budgetRead: int, cut: bool, point: Point) returns (remaining: int, taken: bool)
      requires budgetRead == tavilyBudget
      modifies this
      ensures !cut ==> View() == Delivered(old(View()), e, weather, n) && remaining == tavilyBudget
      ensures !cut ==> remaining == budgetRead - Turn(budgetRead, e.task, weather, n).charged
      ensures !cut ==> taken == (Payable(budgetRead, e.task, weather) && weather.answer(n).Taken?)
      ensures cut ==> View() == CutShort(old(View()), e, weather, n, point)
    {
      var task := e.task;
      remaining, taken := budgetRead, false;
      if cut && point.Untouched? {
        return;
      }
      if weather.tavily(task) && remaining <= 0 {
        if cut && !point.Returned? {
          return;
        }
        Enqueue(task, DEFERRED_PRIORITY);
        return;
      }
      if weather.tavily(task) {
        tavilyBudget := tavilyBudget - 1;
        remaining := remaining - 1;
      }
      if cut && point.Paid? {
        return;
      }
      if !weather.answer(n).Refused? {
        arq := arq + [task];
      }
      if cut && point.Handed? {
        return;
      }
      if !weather.answer(n).Taken? {
        Enqueue(task, Priority(e));
        if !cut && weather.tavily(task) {
          tavilyBudget := tavilyBudget + 1;
          remaining := remaining + 1;
        }
        return;
      }
      taken := true;
    }

    /** The job, with the budget read once before the tasks are popped; it may end early at the stop. */
    method DispatcherJob(concurrency: int, weather: Weather, stop: Stop) returns (finished: bool, enqueued: nat)
      modifies this
      ensures View() == Dispatched(old(View()), concurrency, weather, stop)
      ensures finished == !Cuts(stop, Popped(old(lanes), concurrency))
      ensures finished ==> var l := Turns(old(tavilyBudget), Popped(old(lanes), concurrency), weather);
        enqueued + |l.doubled| == |l.handed|
    {
      var remaining := tavilyBudget;
      var tasks := PopTopWithPriority(concurrency);
      ghost var start := View();
      enqueued := 0;
      for n := 0 to |tasks|
        invariant stop.At? ==> n <= stop.task
        invariant View() == AllDelivered(start, tasks[..n], weather) && remaining == tavilyBudget
        invariant CountsTaken(start.budget, tasks[..n], weather, remaining, enqueued)
      {
        NextDelivery(start, tasks, weather, n);
        OneMoreCounted(start.budget, tasks, weather, n, remaining, enqueued);
        var cut := stop.At? && stop.task == n;
        var taken;
        remaining, taken := TakeTurn(tasks[n], n, weather, remaining, cut, if cut then stop.point else Untouched);
        if cut {
          return false, enqueued;
        }
        enqueued := if taken then enqueued + 1 else enqueued;
      }
      assert tasks[..|tasks|] == tasks;
      finished := true;
    }
  }
}

/** Three priority lanes over sorted sets, standing for one queue (backend/app/collectors/queue.py). */
module TaskQueue {
  // A task is its canonical text, which is also the sorted-set member.
  type Task = string

  datatype Lane = High | Normal | Low

  datatype Entry = Entry(task: Task, score: real)

  // ----- the sorted set: ascending score, ties by text -----

  predicate TextLess(a: Task, b: Task) {
    b != [] && (a == [] || a[0] < b[0] || (a[0] == b[0] && TextLess(a[1..], b[1..])))
  }

  lemma TextOrderIsTotal(a: Task, b: Task)
    ensures a == b || TextLess(a, b) || TextLess(b, a)
    ensures !(TextLess(a, b) && TextLess(b, a)) && !TextLess(a, a)
  {
    if a != [] && b != [] && a[0] == b[0] {
      TextOrderIsTotal(a[1..], b[1..]);
      assert a == [a[0]] + a[1..] && b == [b[0]] + b[1..];
    }
    if a != [] { TextOrderIsTotal(a[1..], a[1..]); }
  }

  lemma TextOrderIsTransitive(a: Task, b: Task, c: Task)
    requires TextLess(a, b) && TextLess(b, c)
    ensures TextLess(a, c)
  {
    if a != [] && a[0] == b[0] == c[0] {
      TextOrderIsTransitive(a[1..], b[1..], c[1..]);
    }
  }

  predicate Before(x: Entry, y: Entry) {
    x.score < y.score || (x.score == y.score && TextLess(x.task, y.task))
  }

  lemma BeforeIsTransitive(x: Entry, y: Entry, z: Entry)
    requires Before(x, y) && Before(y, z)
    ensures Before(x, z)
  {
    if x.score == y.score == z.score { TextOrderIsTransitive(x.task, y.task, z.task); }
  }

  predicate Ascending(z: seq<Entry>) {
    forall i, j :: 0 <= i < j < |z| ==> Before(z[i], z[j])
  }

  predicate DistinctMembers(z: seq<Entry>) {
    forall i, j :: 0 <= i < j < |z| ==> z[i].task != z[j].task
  }

  function Without(z: seq<Entry>, task: Task): seq<Entry> {
    if z == [] then [] else (if z[0].task == task then [] else [z[0]]) + Without(z[1..], task)
  }

  function Insert(z: seq<Entry>, e: Entry): seq<Entry> {
    if z == [] || Before(e, z[0]) then [e] + z else [z[0]] + Insert(z[1..], e)
  }

  // ZADD: one entry per member, its score updated.
  function ZAdd(z: seq<Entry>, task: Task, score: real): seq<Entry> {
    Insert(Without(z, task), Entry(task, score))
  }

  lemma WithoutMembers(z: seq<Entry>, task: Task)
    ensures forall e :: e in Without(z, task) <==> e in z && e.task != task
  {
    if z != [] {
      WithoutMembers(z[1..], task);
      assert forall e :: e in z <==> e == z[0] || e in z[1..];
    }
  }

  lemma WithoutKeepsOrder(z: seq<Entry>, task: Task)
    requires Ascending(z) && DistinctMembers(z)
    ensures Ascending(Without(z, task)) && DistinctMembers(Without(z, task))
  {
    if z != [] {
      WithoutKeepsOrder(z[1..], task);
      WithoutMembers(z[1..], task);
      forall x | x in Without(z[1..], task) ensures Before(z[0], x) && x.task != z[0].task {
        var k :| 0 <= k < |z[1..]| && z[1..][k] == x;
      }
    }
  }

  lemma InsertMembers(z: seq<Entry>, e: Entry)
    requires forall x :: x in z ==> x.task != e.task
    ensures |Insert(z, e)| == |z| + 1 && forall x :: x in Insert(z, e) <==> x == e || x in z
    ensures Ascending(z) ==> Ascending(Insert(z, e))
    ensures DistinctMembers(z) ==> DistinctMembers(Insert(z, e))
  {
    if z == [] {
    } else if Before(e, z[0]) {
      forall k | 0 <= k < |z| && Ascending(z) ensures Before(e, z[k]) {
        if k > 0 { BeforeIsTransitive(e, z[0], z[k]); }
      }
    } else {
      InsertMembers(z[1..], e);
      TextOrderIsTotal(z[0].task, e.task);
      assert forall x :: x in z <==> x == z[0] || x in z[1..];
      forall x | x in Insert(z[1..], e) ensures x.task != z[0].task || !DistinctMembers(z) {
        if x != e { var k :| 0 <= k < |z[1..]| && z[1..][k] == x; }
      }
      forall x | x in Insert(z[1..], e) && Ascending(z) ensures Before(z[0], x) {
        if x != e { var k :| 0 <= k < |z[1..]| && z[1..][k] == x; }
      }
    }
  }

  lemma ZAddMembers(z: seq<Entry>, task: Task, score: real)
    requires Ascending(z) && DistinctMembers(z)
    ensures Ascending(ZAdd(z, task, score)) && DistinctMembers(ZAdd(z, task, score))
    ensures forall e :: e in ZAdd(z, task, score) <==> e == Entry(task, score) || (e in z && e.task != task)
  {
    WithoutMembers(z, task);
    WithoutKeepsOrder(z, task);
    InsertMembers(Without(z, task), Entry(task, score));
  }

  // ----- the lanes -----

  function LaneOf(priority: real): Lane {
    if priority >= 10.0 then High else if priority >= 1.0 then Normal else Low
  }

  datatype Lanes = Lanes(high: seq<Entry>, normal: seq<Entry>, low: seq<Entry>) {
    function Get(lane: Lane): seq<Entry> {
      match lane case High => high case Normal => normal case Low => low
    }

    function Put(lane: Lane, z: seq<Entry>): Lanes {
      match lane case High => this.(high := z) case Normal => this.(normal := z) case Low => this.(low := z)
    }

    // The one queue the three lanes stand for.
    function Whole(): seq<Entry> { high + normal + low }

    predicate LaneOk(lane: Lane) {
      Ascending(Get(lane)) && DistinctMembers(Get(lane)) && forall e :: e in Get(lane) ==> LaneOf(-e.score) == lane
    }

    ghost predicate Ok() { forall lane :: LaneOk(lane) }
  }

  const EMPTY := Lanes([], [], [])

  function Enqueued(q: Lanes, task: Task, priority: real): Lanes {
    q.Put(LaneOf(priority), ZAdd(q.Get(LaneOf(priority)), task, -priority))
  }

  function Priority(e: Entry): real { -e.score }

  /** The lanes in order are one queue in priority order. */
  lemma LanesAreOneQueue(q: Lanes)
    requires q.Ok()
    ensures Ascending(q.Whole())
  {
    var w := q.Whole();
    assert q.LaneOk(High) && q.LaneOk(Normal) && q.LaneOk(Low);
    forall i, j | 0 <= i < j < |w| ensures Before(w[i], w[j]) {
      if j < |q.high| {
      } else if i < |q.high| {
        assert w[i] in q.high && w[j] in q.normal + q.low;
      } else if j < |q.high| + |q.normal| {
        assert w[i] == q.normal[i - |q.high|] && w[j] == q.normal[j - |q.high|];
      } else if i < |q.high| + |q.normal| {
        assert w[i] in q.normal && w[j] in q.low;
      } else {
        assert w[i] == q.low[i - |q.high| - |q.normal|] && w[j] == q.low[j - |q.high| - |q.normal|];
      }
    }
  }

  /** The lane of an entry is its priority: ten and more, one and more, or less. */
  lemma LanesByPriority(q: Lanes, e: Entry)
    requires q.Ok() && e in q.Whole()
    ensures e in q.high <==> Priority(e) >= 10.0
    ensures e in q.normal <==> 1.0 <= Priority(e) < 10.0
    ensures e in q.low <==> Priority(e) < 1.0
  {
    assert q.LaneOk(High) && q.LaneOk(Normal) && q.LaneOk(Low);
  }

  /** Ties are by text: the first difference decides, and a beginning comes before what it begins. */
  lemma TextOrderIsLexicographic(a: Task, b: Task, n: nat)
    requires n <= |a| && n <= |b| && a[..n] == b[..n] && (n == |a| || n == |b| || a[n] != b[n])
    ensures TextLess(a, b) <==> n < |b| && (n == |a| || a[n] < b[n])
  {
    if n > 0 {
      assert a[0] == a[..n][0] && b[0] == b[..n][0];
      assert a[1..][..n - 1] == a[..n][1..] && b[1..][..n - 1] == b[..n][1..];
      TextOrderIsLexicographic(a[1..], b[1..], n - 1);
    }
  }

  lemma EnqueueKeepsOk(q: Lanes, task: Task, priority: real)
    requires q.Ok()
    ensures Enqueued(q, task, priority).Ok()
  {
    var lane := LaneOf(priority);
    assert q.LaneOk(lane);
    ZAddMembers(q.Get(lane), task, -priority);
    forall l ensures Enqueued(q, task, priority).LaneOk(l) {
      if l != lane { assert q.LaneOk(l) && Enqueued(q, task, priority).Get(l) == q.Get(l); }
    }
  }

  predicate In(q: Lanes, e: Entry) {
    e in q.Get(LaneOf(Priority(e)))
  }

  lemma InWhole(q: Lanes, e: Entry)
    requires q.Ok()
    ensures e in q.Whole() <==> In(q, e)
  {
    assert q.LaneOk(High) && q.LaneOk(Normal) && q.LaneOk(Low);
    assert e in q.Whole() <==> e in q.high || e in q.normal || e in q.low;
  }

  /** An enqueue adds the entry and takes away at most the same task's entry of the same lane. */
  lemma EnqueueUpdatesOneEntry(q: Lanes, task: Task, priority: real, e: Entry)
    requires q.Ok()
    ensures e in Enqueued(q, task, priority).Whole() <==>
      e == Entry(task, -priority) || (e in q.Whole() && !(e.task == task && LaneOf(Priority(e)) == LaneOf(priority)))
  {
    var lane := LaneOf(priority);
    EnqueueKeepsOk(q, task, priority);
    InWhole(q, e);
    InWhole(Enqueued(q, task, priority), e);
    assert q.LaneOk(lane);
    ZAddMembers(q.Get(lane), task, -priority);
  }

  // How many of the n asked for are there.
  function Available(n: int, size: nat): nat {
    if n <= 0 then 0 else if n <= size then n else size
  }

  // The first n entries of the one queue, or all of them.
  function Popped(q: Lanes, n: int): seq<Entry> {
    q.Whole()[..Available(n, |q.Whole()|)]
  }

  // What is left once the first k entries of the queue are gone.
  function Dropped(q: Lanes, k: nat): Lanes
    requires k <= |q.Whole()|
  {
    var h := Available(k, |q.high|);
    var m := Available(k - h, |q.normal|);
    Lanes(q.high[h..], q.normal[m..], q.low[k - h - m..])
  }

  lemma TakeThree(a: seq<Entry>, b: seq<Entry>, c: seq<Entry>, h: nat, m: nat, l: nat)
    requires h <= |a| && m <= |b| && l <= |c| && (h < |a| ==> m == 0) && (h < |a| || m < |b| ==> l == 0)
    ensures a[..h] + b[..m] + c[..l] == (a + b + c)[..h + m + l]
  {
    if h < |a| {
      assert a[..h] + b[..m] + c[..l] == a[..h] == (a + b + c)[..h];
    } else {
      assert a[..h] == a && (a + b + c)[..h + m + l] == a + (b + c)[..m + l];
      if m == |b| { assert b[..m] == b && (b + c)[..m + l] == b + c[..l]; }
    }
  }

  datatype Popping = Popping(lanes: Lanes, tasks: seq<Entry>)

  // One lane of a pop: as many of its first entries as are still wanted.
  function PopLane(p: Popping, lane: Lane, n: int): Popping {
    var z := p.lanes.Get(lane);
    var count := Available(n - |p.tasks|, |z|);
    Popping(p.lanes.Put(lane, z[count..]), p.tasks + z[..count])
  }

  // The order in which lanes are looked at.
  function LaneAt(i: nat): Lane {
    if i == 0 then High else if i == 1 then Normal else Low
  }

  function PopLanes(q: Lanes, n: int, i: nat): Popping {
    if i == 0 then Popping(q, []) else PopLane(PopLanes(q, n, i - 1), LaneAt(i - 1), n)
  }

  lemma PopHigh(q: Lanes, n: int)
    ensures var h := Available(n, |q.high|); PopLanes(q, n, 1) == Popping(q.(high := q.high[h..]), q.high[..h])
  {
    assert PopLanes(q, n, 0) == Popping(q, []);
    assert [] + q.high[..Available(n, |q.high|)] == q.high[..Available(n, |q.high|)];
  }

  lemma PopNormal(q: Lanes, n: int)
    ensures var h := Available(n, |q.high|); var m := Available(n - h, |q.normal|);
      PopLanes(q, n, 2) == Popping(Lanes(q.high[h..], q.normal[m..], q.low), q.high[..h] + q.normal[..m])
  {
    PopHigh(q, n);
  }

  lemma PoppedByLanes(q: Lanes, n: int)
    ensures var h := Available(n, |q.high|); var m := Available(n - h, |q.normal|); var l := Available(n - h - m, |q.low|);
      Popped(q, n) == q.high[..h] + q.normal[..m] + q.low[..l]
  {
    var h := Available(n, |q.high|);
    var m := Available(n - h, |q.normal|);
    var l := Available(n - h - m, |q.low|);
    TakeThree(q.high, q.normal, q.low, h, m, l);
  }

  lemma PopLow(q: Lanes, n: int)
    ensures var h := Available(n, |q.high|); var m := Available(n - h, |q.normal|); var l := Available(n - h - m, |q.low|);
      PopLanes(q, n, 3) == Popping(Lanes(q.high[h..], q.normal[m..], q.low[l..]), q.high[..h] + q.normal[..m] + q.low[..l])
  {
    PopNormal(q, n);
  }

  lemma DroppedByLanes(q: Lanes, n: int)
    ensures var h := Available(n, |q.high|); var m := Available(n - h, |q.normal|); var l := Available(n - h - m, |q.low|);
      h + m + l == |Popped(q, n)| && Dropped(q, h + m + l) == Lanes(q.high[h..], q.normal[m..], q.low[l..])
  {
  }

  /** Popping lane by lane pops the first entries of the one queue. */
  lemma LaneByLane(q: Lanes, n: int)
    ensures PopLanes(q, n, 3) == Popping(Dropped(q, |Popped(q, n)|), Popped(q, n))
  {
    PopLow(q, n);
    DroppedByLanes(q, n);
    PoppedByLanes(q, n);
  }

  lemma SuffixMembers(z: seq<Entry>, h: nat)
    requires h <= |z|
    ensures Ascending(z) ==> Ascending(z[h..])
    ensures DistinctMembers(z) ==> DistinctMembers(z[h..])
    ensures forall e :: e in z[h..] ==> e in z
  {
  }

  lemma DroppedIsTheRest(q: Lanes, k: nat)
    requires k <= |q.Whole()|
    ensures Dropped(q, k).Whole() == q.Whole()[k..]
  {
    var d := Dropped(q, k);
    if k <= |q.high| {
      assert d == Lanes(q.high[k..], q.normal, q.low);
      assert q.Whole()[k..] == q.high[k..] + q.normal + q.low;
    } else if k <= |q.high| + |q.normal| {
      assert d == Lanes([], q.normal[k - |q.high|..], q.low);
      assert q.Whole()[k..] == q.normal[k - |q.high|..] + q.low;
    } else {
      assert d == Lanes([], [], q.low[k - |q.high| - |q.normal|..]);
      assert q.Whole()[k..] == q.low[k - |q.high| - |q.normal|..];
    }
  }

  lemma DroppingKeepsOk(q: Lanes, k: nat)
    requires k <= |q.Whole()| && q.Ok()
    ensures Dropped(q, k).Ok()
  {
    var h := Available(k, |q.high|);
    var m := Available(k - h, |q.normal|);
    SuffixMembers(q.high, h);
    SuffixMembers(q.normal, m);
    SuffixMembers(q.low, k - h - m);
    forall l ensures Dropped(q, k).LaneOk(l) {
      assert q.LaneOk(l);
    }
  }

  /**
   Taking the first k entries of the queue yields non-increasing priorities, and nothing left behind
   has a higher priority than anything taken.
   */
  lemma TakingIsByPriority(q: Lanes, k: nat)
    requires q.Ok() && k <= |q.Whole()|
    ensures var taken := q.Whole()[..k]; var left := Dropped(q, k).Whole();
      && (forall i, j :: 0 <= i < j < |taken| ==> Priority(taken[i]) >= Priority(taken[j]))
      && (forall i, j :: 0 <= i < |taken| && 0 <= j < |left| ==> Priority(taken[i]) >= Priority(left[j]))
      && taken + left == q.Whole()
  {
    LanesAreOneQueue(q);
    DroppedIsTheRest(q, k);
    var w := q.Whole();
    forall i, j | 0 <= i < k && 0 <= j < |w[k..]| ensures Priority(w[..k][i]) >= Priority(w[k..][j]) {
      assert Before(w[i], w[k + j]);
    }
  }

  // ----- what waits -----

  function TasksIn(z: seq<Entry>): set<Task> {
    set e | e in z :: e.task
  }

  function TasksOf(q: Lanes): set<Task> {
    TasksIn(q.Whole())
  }

  // How often each task occurs among the entries.
  function Bag(z: seq<Entry>): multiset<Task> {
    if z == [] then multiset{} else multiset{z[0].task} + Bag(z[1..])
  }

  function BagOf(q: Lanes): multiset<Task> {
    Bag(q.Whole())
  }

  lemma {:induction false} BagOfAppend(a: seq<Entry>, b: seq<Entry>)
    ensures Bag(a + b) == Bag(a) + Bag(b)
  {
    if a == [] {
      assert a + b == b;
    } else {
      assert (a + b)[1..] == a[1..] + b;
      BagOfAppend(a[1..], b);
    }
  }

  lemma {:induction false} BagOfWithout(z: seq<Entry>, task: Task)
    ensures Bag(Without(z, task)) <= Bag(z)
  {
    if z != [] {
      BagOfWithout(z[1..], task);
      if z[0].task == task {
        assert Without(z, task) == Without(z[1..], task);
      } else {
        assert Without(z, task)[1..] == Without(z[1..], task);
      }
    }
  }

  lemma {:induction false} BagOfInsert(z: seq<Entry>, e: Entry)
    ensures Bag(Insert(z, e)) == Bag(z) + multiset{e.task}
  {
    if z == [] || Before(e, z[0]) {
      assert ([e] + z)[1..] == z;
    } else {
      BagOfInsert(z[1..], e);
      assert Insert(z, e)[1..] == Insert(z[1..], e);
    }
  }

  lemma BagByLanes(q: Lanes)
    ensures BagOf(q) == Bag(q.high) + Bag(q.normal) + Bag(q.low)
  {
    BagOfAppend(q.high + q.normal, q.low);
    BagOfAppend(q.high, q.normal);
  }

  lemma OneLaneGrows(a: multiset<Task>, b: multiset<Task>, c: multiset<Task>, grown: multiset<Task>, x: multiset<Task>)
    ensures grown <= a + x ==> grown + b + c <= a + b + c + x
    ensures grown <= b + x ==> a + grown + c <= a + b + c + x
    ensures grown <= c + x ==> a + b + grown <= a + b + c + x
  {
  }

  lemma PutAddsAtMost(q: Lanes, lane: Lane, z: seq<Entry>, x: multiset<Task>)
    requires Bag(z) <= Bag(q.Get(lane)) + x
    ensures BagOf(q.Put(lane, z)) <= BagOf(q) + x
  {
    BagByLanes(q);
    BagByLanes(q.Put(lane, z));
    OneLaneGrows(Bag(q.high), Bag(q.normal), Bag(q.low), Bag(z), x);
  }

  lemma ZAddAddsAtMostOne(z: seq<Entry>, task: Task, score: real)
    ensures Bag(ZAdd(z, task, score)) <= Bag(z) + multiset{task}
  {
    BagOfWithout(z, task);
    BagOfInsert(Without(z, task), Entry(task, score));
  }

  lemma AddingInLane(q: Lanes, lane: Lane, task: Task, score: real)
    ensures BagOf(q.Put(lane, ZAdd(q.Get(lane), task, score))) <= BagOf(q) + multiset{task}
  {
    ZAddAddsAtMostOne(q.Get(lane), task, score);
    PutAddsAtMost(q, lane, ZAdd(q.Get(lane), task, score), multiset{task});
  }

  /** An enqueue adds one occurrence at most. */
  lemma EnqueueAddsAtMostOne(q: Lanes, task: Task, priority: real)
    ensures BagOf(Enqueued(q, task, priority)) <= BagOf(q) + multiset{task}
  {
    AddingInLane(q, LaneOf(priority), task, -priority);
  }

  lemma EnqueueAddsTask(q: Lanes, task: Task, priority: real)
    requires q.Ok()
    ensures TasksOf(Enqueued(q, task, priority)) == TasksOf(q) + {task}
  {
    var q' := Enqueued(q, task, priority);
    EnqueueUpdatesOneEntry(q, task, priority, Entry(task, -priority));
    forall t | t in TasksOf(q) ensures t in TasksOf(q') {
      var e :| e in q.Whole() && e.task == t;
      EnqueueUpdatesOneEntry(q, task, priority, e);
      if t == task { assert Entry(task, -priority) in q'.Whole(); }
    }
    forall t | t in TasksOf(q') ensures t in TasksOf(q) + {task} {
      var e :| e in q'.Whole() && e.task == t;
      EnqueueUpdatesOneEntry(q, task, priority, e);
    }
  }

  // The task waits with this priority, in the lane that priority names.
  predicate Waits(q: Lanes, task: Task, priority: real) {
    Entry(task, -priority) in q.Whole() && Entry(task, -priority) in q.Get(LaneOf(priority))
  }

  lemma EnqueuedWaits(q: Lanes, task: Task, priority: real)
    requires q.Ok()
    ensures Waits(Enqueued(q, task, priority), task, priority)
  {
    EnqueueUpdatesOneEntry(q, task, priority, Entry(task, -priority));
    assert q.LaneOk(LaneOf(priority));
    ZAddMembers(q.Get(LaneOf(priority)), task, -priority);
  }

  function Members(tasks: seq<Task>): set<Task> {
    set t | t in tasks
  }

  lemma MembersOfAppend(a: seq<Task>, b: seq<Task>)
    ensures Members(a + b) == Members(a) + Members(b) && multiset(a + b) == multiset(a) + multiset(b)
  {
  }

  lemma OneEntry(e: Entry)
    ensures Bag([e]) == multiset{e.task} && TasksIn([e]) == {e.task} && Members([e.task]) == {e.task}
  {
    assert e in [e];
  }

  lemma TasksInSplit(a: seq<Entry>, b: seq<Entry>)
    ensures TasksIn(a + b) == TasksIn(a) + TasksIn(b)
  {
    forall t | t in TasksIn(a) + TasksIn(b) ensures t in TasksIn(a + b) {
      var e :| (e in a || e in b) && e.task == t;
      assert e in a + b;
    }
  }

  lemma LastEntry(z: seq<Entry>)
    requires z != []
    ensures Bag(z) == Bag(z[..|z| - 1]) + multiset{z[|z| - 1].task} && TasksIn(z) == TasksIn(z[..|z| - 1]) + {z[|z| - 1].task}
  {
    var init, e := z[..|z| - 1], z[|z| - 1];
    assert z == init + [e];
    BagOfAppend(init, [e]);
    TasksInSplit(init, [e]);
    OneEntry(e);
  }
}

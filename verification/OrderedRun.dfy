/** `run_ordered` of `host_capacity.py`: a bounded window of concurrent work, yielded in order. */
module OrderedRun {
  import opened Wrappers
  import opened Basics

  datatype Ending<+E> = Finished | WorkerRaised(error: E) | IteratorRaised | Closed | BadWorkerCount
  datatype Outcome<+R, +E> = Outcome(results: seq<R>, ending: Ending<E>)

  // ---------------------------------------------------------------- specification

  /** The first item whose worker raises, or the number of items. */
  function FirstFailure<T, R, E>(items: seq<T>, worker: T -> Result<R, E>): nat {
    if items == [] || worker(items[0]).Err? then 0 else 1 + FirstFailure(items[1..], worker)
  }

  lemma {:induction false} FirstFailureIs<T, R, E>(items: seq<T>, worker: T -> Result<R, E>)
    ensures FirstFailure(items, worker) <= |items|
    ensures forall i :: 0 <= i < FirstFailure(items, worker) ==> worker(items[i]).Ok?
    ensures FirstFailure(items, worker) < |items| ==>
              worker(items[FirstFailure(items, worker)]).Err?
  {
    if items != [] && worker(items[0]).Ok? {
      var tail := items[1..];
      FirstFailureIs(tail, worker);
      forall i | 0 <= i < FirstFailure(items, worker) ensures worker(items[i]).Ok? {
        if i > 0 { assert items[i] == tail[i - 1]; }
      }
    }
  }

  /** The results of mapping the worker over the first `n` items. */
  function Mapped<T, R, E>(items: seq<T>, worker: T -> Result<R, E>, n: nat): seq<R>
    requires n <= |items| && forall i :: 0 <= i < n ==> worker(items[i]).Ok?
  {
    seq(n, i requires 0 <= i < n => worker(items[i]).value)
  }

  /** How many items are consumed before an iterator that raises at its end is asked for it. */
  function Window(count: nat, raises: bool, workers: nat): nat
    requires workers > 0
  {
    if !raises then count else if count + 1 >= workers then count + 1 - workers else 0
  }

  /** Mapping one after another, up to the first failure or the end. */
  function Each<T, R, E>(items: seq<T>, worker: T -> Result<R, E>, ending: Ending<E>): Outcome<R, E> {
    if items == [] then Outcome([], ending)
    else
      match worker(items[0])
      case Err(e) => Outcome([], WorkerRaised(e))
      case Ok(v) =>
        var rest := Each(items[1..], worker, ending);
        Outcome([v] + rest.results, rest.ending)
  }

  /** What one thread would show over the window that `workers` threads get to see. */
  function Serial<T, R, E>(items: seq<T>, raises: bool, worker: T -> Result<R, E>, workers: nat)
    : Outcome<R, E>
    requires workers > 0
  {
    Each(items[..Window(|items|, raises, workers)], worker, if raises then IteratorRaised else Finished)
  }

  lemma {:induction false} EachIs<T, R, E>(items: seq<T>, w: nat, worker: T -> Result<R, E>,
                                           ending: Ending<E>)
    requires w <= |items|
    ensures FirstFailure(items, worker) <= |items|
    ensures forall i :: 0 <= i < FirstFailure(items, worker) ==> worker(items[i]).Ok?
    ensures var m := FirstFailure(items, worker);
            if m < w
            then worker(items[m]).Err?
                 && Each(items[..w], worker, ending)
                    == Outcome(Mapped(items, worker, m), WorkerRaised(worker(items[m]).error))
            else Each(items[..w], worker, ending) == Outcome(Mapped(items, worker, w), ending)
  {
    FirstFailureIs(items, worker);
    if w > 0 && worker(items[0]).Ok? {
      var tail := items[1..];
      EachIs(tail, w - 1, worker, ending);
      assert items[..w][1..] == tail[..w - 1];
      var k := Min(w, FirstFailure(items, worker));
      assert Mapped(items, worker, k) == [worker(items[0]).value] + Mapped(tail, worker, k - 1);
    }
  }

  lemma SerialIs<T, R, E>(items: seq<T>, raises: bool, worker: T -> Result<R, E>, workers: nat)
    requires workers > 0
    ensures FirstFailure(items, worker) <= |items|
    ensures forall i :: 0 <= i < FirstFailure(items, worker) ==> worker(items[i]).Ok?
    ensures var m, w := FirstFailure(items, worker), Window(|items|, raises, workers);
            if m < w
            then worker(items[m]).Err?
                 && Serial(items, raises, worker, workers)
                    == Outcome(Mapped(items, worker, m), WorkerRaised(worker(items[m]).error))
            else Serial(items, raises, worker, workers)
                 == Outcome(Mapped(items, worker, w), if raises then IteratorRaised else Finished)
  {
    EachIs(items, Window(|items|, raises, workers), worker,
           if raises then IteratorRaised else Finished);
  }

  /** A consumer that closes the iterator at its `wanted`-th result sees no more. */
  function Taken<R, E>(whole: Outcome<R, E>, wanted: nat): Outcome<R, E> {
    if wanted <= |whole.results| then Outcome(whole.results[..wanted], Closed) else whole
  }

  // ---------------------------------------------------------------- the thread pool

  datatype Task<+R, +E> = Queued | Running | Done(result: Result<R, E>) | Cancelled

  /** The executor and the deque of tasks whose result has not been asked for. */
  class Pool<T, R, E> {
    const items: seq<T>
    const worker: T -> Result<R, E>
    const workers: nat
    var tasks: map<nat, Task<R, E>>
    var pending: seq<nat>
    // The most tasks that were ever outstanding: submitted and not yet asked for.
    var highest: nat

    ghost predicate Valid()
      reads this
    {
      && |pending| <= highest <= workers
      && (forall k :: 0 <= k < |pending| ==> pending[k] in tasks)
      && (forall i :: i in tasks ==> i < |items| && Sound(i, tasks[i]))
      && (forall i :: i in tasks && (tasks[i].Queued? || tasks[i].Running?) ==> i in pending)
    }

    ghost predicate Sound(i: nat, task: Task<R, E>)
      requires i < |items|
    {
      task.Done? ==> task.result == worker(items[i])
    }

    constructor (items: seq<T>, worker: T -> Result<R, E>, workers: nat)
      ensures Valid() && this.items == items && this.worker == worker && this.workers == workers
      ensures tasks == map[] && pending == [] && highest == 0
    {
      this.items, this.worker, this.workers := items, worker, workers;
      tasks, pending, highest := map[], [], 0;
    }

    /** A submission must find fewer than `workers` tasks outstanding. */
    method Submit(i: nat)
      requires Valid() && i < |items| && i !in tasks && |pending| < workers
      modifies this
      ensures Valid() && tasks == old(tasks)[i := Queued] && pending == old(pending) + [i]
      ensures old(highest) <= highest && |pending| <= highest
    {
      tasks := tasks[i := Queued];
      pending := pending + [i];
      if highest < |pending| { highest := |pending|; }
    }

    /** What threads may make of a task meanwhile: start it, finish it, leave it. */
    ghost predicate Advances(before: Task<R, E>, after: Task<R, E>) {
      && (before.Done? || before.Cancelled? ==> after == before)
      && (before.Running? ==> !after.Queued? && !after.Cancelled?)
      && (before.Queued? ==> !after.Cancelled?)
    }

    ghost predicate Advanced(before: map<nat, Task<R, E>>)
      reads this
    {
      && (forall i :: i in tasks <==> i in before)
      && (forall i :: i in before ==> Advances(before[i], tasks[i]))
    }

    method Progress()
      requires Valid()
      modifies this`tasks
      ensures Valid() && Advanced(old(tasks))
    {
      var start: set<nat>, finish: set<nat> := *, *;
      tasks := map i | i in tasks ::
        if tasks[i].Queued? && i in start then Running
        else if tasks[i].Running? && i in finish then Done(worker(items[i]))
        else tasks[i];
    }

    /** Takes the oldest task and blocks until it is done, while the others may do anything. */
    method PopResult() returns (r: Result<R, E>)
      requires Valid() && pending != [] && !tasks[pending[0]].Cancelled?
      modifies this
      ensures Valid() && Advanced(old(tasks)) && pending == old(pending)[1..]
      ensures highest == old(highest)
      ensures r == worker(items[old(pending)[0]])
    {
      Progress();
      var i := pending[0];
      tasks := tasks[i := Done(worker(items[i]))];
      pending := pending[1..];
      r := tasks[i].result;
    }

    /** Cancels what has not started and waits for what has. */
    method Shutdown()
      requires Valid()
      modifies this
      ensures Valid() && forall i :: i in tasks ==> tasks[i].Done? || tasks[i].Cancelled?
      ensures highest == old(highest) && forall i :: i in tasks <==> i in old(tasks)
      ensures forall i :: i in tasks && !old(tasks)[i].Queued? && !old(tasks)[i].Cancelled? ==> tasks[i].Done?
    {
      Progress();
      tasks := map i | i in tasks ::
        match tasks[i]
        case Queued => Cancelled
        case Running => Done(worker(items[i]))
        case _ => tasks[i];
    }
  }

  // ---------------------------------------------------------------- the program

  /** Having consumed `n` results, the run has met no failure and not left the window. */
  ghost predicate Undecided<T, R, E>(items: seq<T>, raises: bool, worker: T -> Result<R, E>,
                                     workers: nat, results: seq<R>, n: nat)
    requires workers > 0
  {
    && n <= Window(|items|, raises, workers) && n <= |items|
    && (forall i :: 0 <= i < n ==> worker(items[i]).Ok?)
    && results == Mapped(items, worker, n)
  }

  lemma ClosedHere<T, R, E>(items: seq<T>, raises: bool, worker: T -> Result<R, E>,
                            workers: nat, results: seq<R>, n: nat)
    requires workers > 0 && Undecided(items, raises, worker, workers, results, n)
    ensures Taken(Serial(items, raises, worker, workers), n) == Outcome(results, Closed)
  {
    SerialIs(items, raises, worker, workers);
  }

  lemma RaisedHere<T, R, E>(items: seq<T>, raises: bool, worker: T -> Result<R, E>,
                            workers: nat, results: seq<R>, n: nat, wanted: nat)
    requires workers > 0 && Undecided(items, raises, worker, workers, results, n) && n < wanted
    requires n < Window(|items|, raises, workers) && n < |items| && worker(items[n]).Err?
    ensures Taken(Serial(items, raises, worker, workers), wanted)
         == Outcome(results, WorkerRaised(worker(items[n]).error))
  {
    SerialIs(items, raises, worker, workers);
  }

  lemma EndedHere<T, R, E>(items: seq<T>, raises: bool, worker: T -> Result<R, E>,
                           workers: nat, results: seq<R>, n: nat, wanted: nat)
    requires workers > 0 && Undecided(items, raises, worker, workers, results, n) && n < wanted
    requires n == Window(|items|, raises, workers)
    ensures Taken(Serial(items, raises, worker, workers), wanted)
         == Outcome(results, if raises then IteratorRaised else Finished)
  {
    SerialIs(items, raises, worker, workers);
  }

  method OneByOne<T, R, E>(items: seq<T>, raises: bool, worker: T -> Result<R, E>, wanted: nat)
    returns (o: Outcome<R, E>)
    requires wanted > 0
    ensures o == Taken(Serial(items, raises, worker, 1), wanted)
  {
    var results := [];
    for n := 0 to |items|
      invariant Undecided(items, raises, worker, 1, results, n) && n < wanted
    {
      var r := worker(items[n]);
      if r.Err? {
        RaisedHere(items, raises, worker, 1, results, n, wanted);
        return Outcome(results, WorkerRaised(r.error));
      }
      results := results + [r.value];
      if |results| == wanted {
        ClosedHere(items, raises, worker, 1, results, wanted);
        return Outcome(results, Closed);
      }
    }
    EndedHere(items, raises, worker, 1, results, |items|, wanted);
    o := Outcome(results, if raises then IteratorRaised else Finished);
  }

  /** The window holds the tasks from `lo` up to `hi`; all before `hi` are submitted, none cancelled. */
  ghost predicate Holds<T, R, E>(pool: Pool<T, R, E>, lo: nat, hi: nat)
    reads pool
  {
    && pool.Valid() && lo <= hi && |pool.pending| == hi - lo
    && (forall k :: 0 <= k < hi - lo ==> pool.pending[k] == lo + k)
    && (forall i :: i in pool.tasks <==> 0 <= i < hi)
    && (forall i :: i in pool.tasks ==> !pool.tasks[i].Cancelled?)
  }

  method Fill<T, R, E>(pool: Pool<T, R, E>, raises: bool) returns (failed: bool)
    requires Holds(pool, 0, 0)
    modifies pool
    ensures Holds(pool, 0, Min(pool.workers, |pool.items|))
    ensures failed <==> raises && |pool.items| < pool.workers
  {
    for n := 0 to pool.workers
      invariant n <= |pool.items| && Holds(pool, 0, n)
    {
      if n == |pool.items| { return raises; }
      pool.Submit(n);
    }
    failed := false;
  }

  method TakeOldest<T, R, E>(pool: Pool<T, R, E>, ghost lo: nat, ghost hi: nat)
    returns (r: Result<R, E>)
    requires Holds(pool, lo, hi) && lo < hi <= |pool.items|
    modifies pool
    ensures Holds(pool, lo + 1, hi) && r == pool.worker(pool.items[lo])
  {
    r := pool.PopResult();
  }

  method SubmitNext<T, R, E>(pool: Pool<T, R, E>, ghost lo: nat, hi: nat)
    requires Holds(pool, lo, hi) && hi < |pool.items| && hi - lo < pool.workers
    modifies pool
    ensures Holds(pool, lo, hi + 1)
  {
    pool.Submit(hi);
  }

  /** Keeps `workers` tasks in flight and yields the results in the order of the items. */
  method Drain<T, R, E>(pool: Pool<T, R, E>, raises: bool, wanted: nat) returns (o: Outcome<R, E>)
    requires wanted > 0 && pool.workers > 1 && (raises ==> pool.workers <= |pool.items|)
    requires Holds(pool, 0, Min(pool.workers, |pool.items|))
    modifies pool
    ensures pool.Valid()
    ensures o == Taken(Serial(pool.items, raises, pool.worker, pool.workers), wanted)
  {
    var items, worker, workers := pool.items, pool.worker, pool.workers;
    var results := [];
    ghost var n := 0;
    var next: nat := Min(workers, |items|);
    while pool.pending != []
      invariant n < wanted && Undecided(items, raises, worker, workers, results, n)
      invariant Holds(pool, n, next) && next == Min(n + workers, |items|)
      invariant raises ==> n + workers <= |items|
      decreases |items| - n
    {
      var r := TakeOldest(pool, n, next);
      if r.Err? {
        RaisedHere(items, raises, worker, workers, results, n, wanted);
        return Outcome(results, WorkerRaised(r.error));
      }
      results := results + [r.value];
      n := n + 1;
      if |results| == wanted {
        ClosedHere(items, raises, worker, workers, results, n);
        return Outcome(results, Closed);
      }
      if next == |items| {
        if raises {
          EndedHere(items, raises, worker, workers, results, n, wanted);
          return Outcome(results, IteratorRaised);
        }
        continue;
      }
      SubmitNext(pool, n, next);
      next := next + 1;
    }
    EndedHere(items, raises, worker, workers, results, n, wanted);
    o := Outcome(results, Finished);
  }

  /**
    Whatever the threads do, the consumer sees what mapping one after another would show it, at
    most `workers` tasks are ever outstanding, and no thread outlives the run. A consumer that
    wants nothing never starts the generator.
   */
  method RunOrdered<T, R, E>(items: seq<T>, raises: bool, worker: T -> Result<R, E>, workers: int,
                             wanted: nat)
    returns (o: Outcome<R, E>, pool: Pool<T, R, E>)
    requires wanted > 0
    ensures workers < 1 ==> o == Outcome([], BadWorkerCount)
    ensures workers >= 1 ==> o == Taken(Serial(items, raises, worker, workers), wanted)
    ensures pool.Valid() && pool.highest <= Max(workers, 0)
    ensures forall i :: i in pool.tasks ==> pool.tasks[i].Done? || pool.tasks[i].Cancelled?
  {
    pool := new Pool(items, worker, Max(workers, 0));
    if workers < 1 { return Outcome([], BadWorkerCount), pool; }
    if workers == 1 {
      o := OneByOne(items, raises, worker, wanted);
      return;
    }
    var failed := Fill(pool, raises);
    if failed {
      EndedHere(items, raises, worker, workers, [], 0, wanted);
      o := Outcome([], IteratorRaised);
    } else {
      o := Drain(pool, raises, wanted);
    }
    pool.Shutdown();
  }

  // Where the smaller window ends the run, only a consumer that stops inside it cannot tell.
  lemma SmallerWindowShows<T, R, E>(items: seq<T>, raises: bool, worker: T -> Result<R, E>,
                                    a: nat, b: nat, wanted: nat)
    requires a > 0 && b > 0
    requires Window(|items|, raises, a) < Window(|items|, raises, b)
    requires Window(|items|, raises, a) <= FirstFailure(items, worker)
    ensures Taken(Serial(items, raises, worker, a), wanted)
            == Taken(Serial(items, raises, worker, b), wanted)
            <==> wanted <= Window(|items|, raises, a)
  {
    SerialIs(items, raises, worker, a);
    SerialIs(items, raises, worker, b);
    var x, y := Serial(items, raises, worker, a), Serial(items, raises, worker, b);
    assert x.results == y.results[..|x.results|];
    if wanted <= |x.results| { assert x.results[..wanted] == y.results[..wanted]; }
  }

  /**
    A consumer can tell `a` workers from `b` exactly if the iterator raises, the counts differ even
    when cut at one past the number of items, and neither its own close nor a failing worker comes
    inside the smaller window.
   */
  lemma WorkersShowExactly<T, R, E>(items: seq<T>, raises: bool, worker: T -> Result<R, E>,
                                    a: nat, b: nat, wanted: nat)
    requires a > 0 && b > 0
    ensures var few := Min(Window(|items|, raises, a), Window(|items|, raises, b));
            Taken(Serial(items, raises, worker, a), wanted)
            == Taken(Serial(items, raises, worker, b), wanted)
            <==> !raises || Min(a, |items| + 1) == Min(b, |items| + 1)
                 || FirstFailure(items, worker) < few || wanted <= few
  {
    SerialIs(items, raises, worker, a);
    SerialIs(items, raises, worker, b);
    var m, wa, wb := FirstFailure(items, worker), Window(|items|, raises, a), Window(|items|, raises, b);
    if wa < wb && wa <= m {
      SmallerWindowShows(items, raises, worker, a, b, wanted);
    } else if wb < wa && wb <= m {
      SmallerWindowShows(items, raises, worker, b, a, wanted);
    }
  }
}

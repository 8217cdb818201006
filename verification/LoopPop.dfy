/** Steal requests that `RT_pop` serves after it has popped a loop task (src/runtime.c). The
    popped task is not current yet, but `split_loop` records the future of a split-off piece on
    the current task. So the reduction of the popped task misses the piece, and that of the
    current task picks it up; and where no task is current there is nothing to record it on.
    A piece is itself current while its thief runs it, so this happens at every level. */
module LoopPop {
  import opened Common
  import opened Loop

  // Scripts of what happens while a task is current

  /** A request that splits the current task, if it can be split; or RT_pop of another task. Step
      marks where the current task goes on to its next iteration or awaits its next future. The
      thief runs the piece that it gets with a script of its own. */
  datatype Action = Step | Split(strategy: Strategy, script: seq<Action>) | Pop(event: PopEvent)

  /** RT_pop of a loop task [lo, hi) with `deque` tasks left in the deque and these requests arriving */
  datatype PopEvent = PopEvent(loop: nat, lo: int, hi: int, hasFuture: bool, deque: nat, requests: seq<PopRequest>)

  /** The worker's own request, come back, or that of another worker, which may ask for half of
      the deque and will get a loop split by the given strategy */
  datatype PopRequest = Own | Foreign(half: bool, strategy: Strategy, script: seq<Action>)

  // The requests that arrive with a pop

  /** How many tasks are left in a deque of `d` tasks when the request has been served */
  function Left(d: nat, r: PopRequest): nat
  {
    if r.Own? || d == 0 then d else d - LootSize(d, r.half)
  }

  /** A foreign request takes one task, or half of them, rounded down, if it asks for half and there are
      two. */
  lemma LeftIs(d: nat, r: PopRequest)
    ensures var taken := d - Left(d, r);
            if r.Own? || d == 0 then taken == 0
            else if r.half && d >= 2 then 2 * taken <= d <= 2 * taken + 1
            else taken == 1
  {
  }

  function LeftAfter(d: nat, requests: seq<PopRequest>): nat
  {
    if requests == [] then d else LeftAfter(Left(d, requests[0]), requests[1..])
  }

  /** Some foreign request is received when the deque is empty. */
  predicate Cuts(d: nat, requests: seq<PopRequest>)
  {
    requests != [] && ((d == 0 && requests[0].Foreign?) || Cuts(Left(d, requests[0]), requests[1..]))
  }

  lemma {:induction false} CutsMeans(d: nat, requests: seq<PopRequest>)
    ensures Cuts(d, requests) <==>
              exists k :: 0 <= k < |requests| && requests[k].Foreign? && LeftAfter(d, requests[..k]) == 0
  {
    if requests != [] {
      var d1, rest := Left(d, requests[0]), requests[1..];
      CutsMeans(d1, rest);
      assert requests[..0] == [];
      forall k | 0 <= k < |rest|
        ensures LeftAfter(d, requests[..k + 1]) == LeftAfter(d1, rest[..k]) && requests[k + 1] == rest[k]
      {
        assert requests[..k + 1][1..] == rest[..k];
      }
      if k :| 0 <= k < |requests| && requests[k].Foreign? && LeftAfter(d, requests[..k]) == 0 {
        if k > 0 {
          assert rest[k - 1].Foreign? && LeftAfter(d1, rest[..k - 1]) == 0;
        }
      }
      if Cuts(d1, rest) {
        var k :| 0 <= k < |rest| && rest[k].Foreign? && LeftAfter(d1, rest[..k]) == 0;
        assert requests[k + 1].Foreign? && LeftAfter(d, requests[..k + 1]) == 0;
      }
    }
  }

  function ForeignCount(requests: seq<PopRequest>): nat
  {
    if requests == [] then 0 else (if requests[0].Foreign? then 1 else 0) + ForeignCount(requests[1..])
  }

  /** When every thief gets one task, that is when there are more thieves than tasks. */
  lemma {:induction false} CutsByCounting(d: nat, requests: seq<PopRequest>)
    requires forall r :: r in requests && r.Foreign? ==> !r.half
    ensures Cuts(d, requests) <==> ForeignCount(requests) > d
  {
    if requests != [] {
      assert requests[0] in requests;
      CutsByCounting(Left(d, requests[0]), requests[1..]);
    }
  }

  /** The popped loop is split: it has two iterations or more, and some foreign request finds the
      deque empty. */
  predicate SplitWhenPopped(left: int, deque: nat, requests: seq<PopRequest>)
  {
    left > 1 && Cuts(deque, requests)
  }

  /** The end of what the popped loop [start, end) keeps, when it serves these requests: each
      foreign one that finds the deque empty and the loop splittable takes a piece off. */
  function KeptEnd(start: int, end: int, deque: nat, requests: seq<PopRequest>): int
    decreases |requests|
  {
    if requests == [] then end
    else if deque > 0 || end - start <= 1 then KeptEnd(start, end, Left(deque, requests[0]), requests[1..])
    else if requests[0].Own? then KeptEnd(start, end, deque, requests[1..])
    else KeptEnd(start, SplitPoint(requests[0].strategy, start, start, end), deque, requests[1..])
  }

  /** It keeps an iteration if it had one, and everything if and only if it is not split. */
  lemma {:induction false} KeptAll(start: int, end: int, deque: nat, requests: seq<PopRequest>)
    requires start <= end
    ensures start <= KeptEnd(start, end, deque, requests) <= end
    ensures start < end ==> start < KeptEnd(start, end, deque, requests)
    ensures KeptEnd(start, end, deque, requests) == end <==> !SplitWhenPopped(end - start, deque, requests)
    decreases |requests|
  {
    if requests != [] {
      var r, rest := requests[0], requests[1..];
      if deque > 0 || end - start <= 1 || r.Own? {
        KeptAll(start, end, Left(deque, r), rest);
      } else {
        SplitsInside(r.strategy, start, start, end);
        KeptAll(start, SplitPoint(r.strategy, start, start, end), deque, rest);
      }
    }
  }

  /** A piece that a thief got, with what happens while the thief runs it */
  datatype Job = Job(loop: nat, lo: int, hi: int, script: seq<Action>)

  /** The pieces cut off the popped loop, the latest first */
  function CutJobs(loop: nat, start: int, end: int, deque: nat, requests: seq<PopRequest>): seq<Job>
    decreases |requests|
  {
    if requests == [] then []
    else if deque > 0 || end - start <= 1 then CutJobs(loop, start, end, Left(deque, requests[0]), requests[1..])
    else if requests[0].Own? then CutJobs(loop, start, end, deque, requests[1..])
    else
      var split := SplitPoint(requests[0].strategy, start, start, end);
      CutJobs(loop, start, split, deque, requests[1..]) + [Job(loop, split, end, requests[0].script)]
  }

  function JobVisits(jobs: seq<Job>): seq<Iteration>
  {
    if jobs == [] then [] else Range(jobs[0].loop, jobs[0].lo, jobs[0].hi) + JobVisits(jobs[1..])
  }

  lemma JoinsAssociate(a: seq<Iteration>, b: seq<Iteration>, c: seq<Iteration>)
    ensures a + (b + c) == a + b + c
  {
  }

  lemma {:induction false} JobVisitsJoin(a: seq<Job>, b: seq<Job>)
    ensures JobVisits(a + b) == JobVisits(a) + JobVisits(b)
  {
    if a == [] {
      assert a + b == b;
    } else {
      JobVisitsJoin(a[1..], b);
      assert (a + b)[1..] == a[1..] + b && (a + b)[0] == a[0];
      JoinsAssociate(Range(a[0].loop, a[0].lo, a[0].hi), JobVisits(a[1..]), JobVisits(b));
    }
  }

  /** The pieces continue what is kept, in order and up to the end. */
  lemma {:induction false} CutIsTheRest(loop: nat, start: int, end: int, deque: nat, requests: seq<PopRequest>)
    requires start <= end
    ensures JobVisits(CutJobs(loop, start, end, deque, requests))
            == Range(loop, KeptEnd(start, end, deque, requests), end)
    decreases |requests|
  {
    if requests != [] {
      var r, rest := requests[0], requests[1..];
      if deque > 0 || end - start <= 1 || r.Own? {
        CutIsTheRest(loop, start, end, Left(deque, r), rest);
      } else {
        SplitsInside(r.strategy, start, start, end);
        var split := SplitPoint(r.strategy, start, start, end);
        CutIsTheRest(loop, start, split, deque, rest);
        KeptAll(start, split, deque, rest);
        var last := Job(loop, split, end, r.script);
        JobVisitsJoin(CutJobs(loop, start, split, deque, rest), [last]);
        assert JobVisits([last]) == Range(loop, split, end);
        RangeJoins(loop, KeptEnd(start, split, deque, rest), split, end);
      }
    }
  }

  /** One request of the list, seen from the loop that serves it */
  lemma ServeStep(loop: nat, start: int, end: int, left: nat, requests: seq<PopRequest>, k: nat)
    requires start <= end && k < |requests|
    ensures var r := requests[k];
            if left == 0 && end - start > 1 && r.Foreign? then
              var split := SplitPoint(r.strategy, start, start, end);
              && start < split < end
              && KeptEnd(start, end, left, requests[k..]) == KeptEnd(start, split, left, requests[k + 1..])
              && CutJobs(loop, start, end, left, requests[k..])
                 == CutJobs(loop, start, split, left, requests[k + 1..]) + [Job(loop, split, end, r.script)]
            else
              && KeptEnd(start, end, left, requests[k..]) == KeptEnd(start, end, Left(left, r), requests[k + 1..])
              && CutJobs(loop, start, end, left, requests[k..])
                 == CutJobs(loop, start, end, Left(left, r), requests[k + 1..])
  {
    assert requests[k..][0] == requests[k] && requests[k..][1..] == requests[k + 1..];
    if end - start > 1 && requests[k].Foreign? {
      SplitsInside(requests[k].strategy, start, start, end);
    }
  }

  // The loop of RT_pop

  /** The futures on the task's list are those of the jobs, all different and none of them the task. */
  ghost predicate Carries(c: LoopTask, jobs: seq<Job>)
    reads c, c.futures
  {
    && |c.futures| == |jobs| && c !in c.futures
    && (forall i :: 0 <= i < |jobs| ==> c.futures[i].Is(Piece(jobs[i].loop, jobs[i].lo, jobs[i].hi)))
    && (forall i, j :: 0 <= i < j < |jobs| ==> c.futures[i] != c.futures[j])
  }

  /** The list of the current task with one future more */
  method Record(current: LoopTask, dup: LoopTask, job: Job, jobs: seq<Job>)
    requires Carries(current, jobs) && dup.Is(Piece(job.loop, job.lo, job.hi))
    requires dup != current && dup !in current.futures
    modifies current`futures
    ensures current.futures == [dup] + old(current.futures) && Carries(current, [job] + jobs)
  {
    current.futures := [dup] + current.futures;
  }

  /** The current task is as it was but for new futures on its list. */
  twostate predicate OnlyListed(current: LoopTask, jobs: seq<Job>)
    reads current, current.futures
  {
    && Carries(current, jobs)
    && current.start == old(current.start) && current.cur == old(current.cur) && current.end == old(current.end)
    && forall p :: p in current.futures ==> p in old(current.futures) || fresh(p)
  }

  /** split_loop of a popped task */
  method CutOne(t: LoopTask, current: LoopTask?, hasFuture: bool, r: PopRequest, jobs: seq<Job>)
    returns (job: Job, listed: seq<Job>)
    requires t != current && t.start == t.cur <= t.end && t.Splittable() && r.Foreign?
    requires if current == null then !hasFuture else Carries(current, jobs) && t !in current.futures
    modifies t`end, current
    ensures t.end == SplitPoint(r.strategy, t.start, t.start, old(t.end))
    ensures job == Job(t.loop, t.end, old(t.end), r.script) && listed == (if hasFuture then [job] else []) + jobs
    ensures current != null ==> OnlyListed(current, listed)
  {
    var end := t.end;
    SplitsInside(r.strategy, t.start, t.cur, t.end);
    var dup := t.SplitLoop(r.strategy);
    job, listed := Job(t.loop, t.end, end, r.script), jobs;
    if hasFuture {
      Record(current, dup, job, jobs);
      listed := [job] + jobs;
    }
  }

  lemma CutMore(cut: seq<Job>, last: Job, done: seq<Job>, jobs: seq<Job>)
    ensures cut + [last] + done == cut + ([last] + done) && [last] + (done + jobs) == [last] + done + jobs
  {
  }

  /** The loop of RT_pop over the requests that arrive. It crashes exactly when the popped task
      has a future, is split, and no task is current, as in a worker's outermost loop.
      Otherwise the futures of the pieces cut off, if the task has one, are put on the current
      task's list. */
  method ServeWhenPopped(t: LoopTask, current: LoopTask?, hasFuture: bool, deque: nat, requests: seq<PopRequest>,
                         jobs: seq<Job>)
    returns (crashed: bool, listed: seq<Job>)
    requires t != current && t.start == t.cur <= t.end && t.futures == []
    requires current != null ==> Carries(current, jobs) && t !in current.futures
    modifies t`end, current
    ensures crashed <==> current == null && hasFuture && SplitWhenPopped(old(t.end - t.start), deque, requests)
    ensures !crashed ==> t.end == KeptEnd(t.start, old(t.end), deque, requests)
    ensures !crashed ==>
              listed == (if hasFuture then CutJobs(t.loop, t.start, old(t.end), deque, requests) else []) + jobs
    ensures current != null ==> OnlyListed(current, listed)
  {
    crashed, listed := false, jobs;
    ghost var done: seq<Job> := [];
    var k, left := 0, deque;
    assert [] + jobs == jobs;
    assert requests[0..] == requests;
    ghost var cut := CutJobs(t.loop, t.start, t.end, deque, requests);
    assert cut + done == cut;
    KeptAll(t.start, t.end, deque, requests);
    while k < |requests|
      invariant 0 <= k <= |requests| && t.start <= t.end
      invariant KeptEnd(t.start, t.end, left, requests[k..]) == KeptEnd(t.start, old(t.end), deque, requests)
      invariant CutJobs(t.loop, t.start, t.end, left, requests[k..]) + done == cut
      invariant current == null && hasFuture ==> t.end == old(t.end)
      invariant listed == (if hasFuture then done else []) + jobs
      invariant current != null ==> OnlyListed(current, listed)
    {
      var r := requests[k];
      ServeStep(t.loop, t.start, t.end, left, requests, k);
      if left == 0 && t.Splittable() {
        if r.Foreign? {
          if hasFuture && current == null {
            KeptAll(t.start, t.end, left, requests[k..]);
            crashed := true;
            return;
          }
          var job;
          job, listed := CutOne(t, current, hasFuture, r, listed);
          CutMore(CutJobs(t.loop, t.start, t.end, left, requests[k + 1..]), job, done, jobs);
          done := [job] + done;
        }
      } else {
        left := Left(left, r);
      }
      k := k + 1;
    }
    assert requests[k..] == [] && [] + done == done;
  }

  /** One foreign request while the deque is empty takes one of two iterations. */
  lemma TwoIterationsSplit()
    ensures SplitWhenPopped(2, 0, [Foreign(false, Half, [])]) && KeptEnd(0, 2, 0, [Foreign(false, Half, [])]) == 1
  {
    assert [Foreign(false, Half, [])][1..] == [];
  }

  /** In a worker's outermost loop, where no task is current, popping such a loop is fatal. */
  method PoppedWithoutCurrentCrashes() returns (crashed: bool)
    ensures crashed
  {
    TwoIterationsSplit();
    var t := new LoopTask(1, 0, 2);
    var listed;
    crashed, listed := ServeWhenPopped(t, null, true, 0, [Foreign(false, Half, [])], []);
  }

  // What a script makes stray

  /** The task that is current goes on by one iteration, if it has one left. */
  function Next(cur: int, end: int): int
  {
    if cur <= end then cur + 1 else cur
  }

  /** The end of the range that a task keeps for itself after its script */
  function EndAfter(start: int, cur: int, end: int, script: seq<Action>): int
    decreases |script|
  {
    if script == [] then end
    else
      match script[0]
      case Step => EndAfter(start, Next(cur, end), end, script[1..])
      case Split(strategy, _) =>
        EndAfter(start, cur, if Abs(end - cur) > 1 then SplitPoint(strategy, start, cur, end) else end, script[1..])
      case Pop(_) => EndAfter(start, cur, end, script[1..])
  }

  /** The pops that happen above a task with this script, and above all pieces that are reduced
      under it, at every level. A request finds the task as the script before it has left it. */
  function Pops(start: int, cur: int, end: int, script: seq<Action>): seq<PopEvent>
    decreases script
  {
    if script == [] then []
    else
      match script[0]
      case Step => Pops(start, Next(cur, end), end, script[1..])
      case Split(strategy, piece) =>
        if Abs(end - cur) > 1 then
          var split := SplitPoint(strategy, start, cur, end);
          Pops(split, split, end, piece) + Pops(start, cur, split, script[1..])
        else Pops(start, cur, end, script[1..])
      case Pop(e) =>
        [e] + StrayPops(script[0]) + Pops(start, cur, end, script[1..])
  }

  /** Those above the pieces that stray from a popped loop */
  function StrayPops(a: Action): seq<PopEvent>
    requires a.Pop?
    decreases a
  {
    var e := a.event;
    if e.hasFuture then CutPops(e.lo, e.hi, e.deque, e.requests) else []
  }

  /** Those above the pieces cut off a popped loop */
  function CutPops(start: int, end: int, deque: nat, requests: seq<PopRequest>): seq<PopEvent>
    decreases requests
  {
    if requests == [] then []
    else if deque > 0 || end - start <= 1 then CutPops(start, end, Left(deque, requests[0]), requests[1..])
    else if requests[0].Own? then CutPops(start, end, deque, requests[1..])
    else
      var split := SplitPoint(requests[0].strategy, start, start, end);
      CutPops(start, split, deque, requests[1..]) + Pops(split, split, end, requests[0].script)
  }

  /** Those above the given pieces */
  function JobPops(jobs: seq<Job>): seq<PopEvent>
  {
    if jobs == [] then [] else Pops(jobs[0].lo, jobs[0].lo, jobs[0].hi, jobs[0].script) + JobPops(jobs[1..])
  }

  /** What strays to the list of the current task when a loop is popped above it: without a future
      the pieces are recorded nowhere. */
  function Stray(e: PopEvent): seq<Iteration>
  {
    if e.hasFuture then Range(e.loop, KeptEnd(e.lo, e.hi, e.deque, e.requests), e.hi) else []
  }

  /** The popped loop has a future and is split. */
  predicate LosesPiece(e: PopEvent)
  {
    e.hasFuture && SplitWhenPopped(e.hi - e.lo, e.deque, e.requests)
  }

  lemma StrayIsEmpty(e: PopEvent)
    requires e.lo <= e.hi
    ensures Stray(e) == [] <==> !LosesPiece(e)
  {
    KeptAll(e.lo, e.hi, e.deque, e.requests);
  }

  function Sum<E>(bag: E -> multiset<Iteration>, events: seq<E>): multiset<Iteration>
  {
    if events == [] then multiset{} else bag(events[0]) + Sum(bag, events[1..])
  }

  lemma BagsAssociate(a: multiset<Iteration>, b: multiset<Iteration>, c: multiset<Iteration>)
    ensures a + (b + c) == a + b + c
  {
  }

  lemma {:induction false} SumJoins<E>(bag: E -> multiset<Iteration>, a: seq<E>, b: seq<E>)
    ensures Sum(bag, a + b) == Sum(bag, a) + Sum(bag, b)
  {
    if a == [] {
      assert a + b == b;
    } else {
      SumJoins(bag, a[1..], b);
      assert (a + b)[0] == a[0] && (a + b)[1..] == a[1..] + b;
      BagsAssociate(bag(a[0]), Sum(bag, a[1..]), Sum(bag, b));
    }
  }

  lemma SumOfOne<E>(bag: E -> multiset<Iteration>, e: E)
    ensures Sum(bag, [e]) == bag(e)
  {
    assert [e][1..] == [];
  }

  lemma {:induction false} SumIsEmpty<E>(bag: E -> multiset<Iteration>, events: seq<E>)
    ensures Sum(bag, events) == multiset{} <==> forall e :: e in events ==> bag(e) == multiset{}
  {
    if events != [] {
      var e, rest := events[0], events[1..];
      assert events == [e] + rest;
      SumIsEmpty(bag, rest);
      assert bag(e) <= Sum(bag, events) && Sum(bag, rest) <= Sum(bag, events);
    }
  }

  function StrayBag(e: PopEvent): multiset<Iteration>
  {
    multiset(Stray(e))
  }

  /** What all popped loops together lose to current tasks */
  function Strays(events: seq<PopEvent>): multiset<Iteration>
  {
    Sum(StrayBag, events)
  }

  /** The popped loops count up, and none of them is the given one, which is running. */
  predicate Fit(events: seq<PopEvent>, loop: nat)
  {
    forall e :: e in events ==> e.lo <= e.hi && e.loop != loop
  }

  lemma FitJoin(a: seq<PopEvent>, b: seq<PopEvent>, loop: nat)
    ensures Fit(a + b, loop) <==> Fit(a, loop) && Fit(b, loop)
  {
    forall x | x in a || x in b ensures x in a + b {
    }
  }

  /** Nothing strays if and only if no loop with a future is split when it is popped. */
  lemma NoStrays(events: seq<PopEvent>, loop: nat)
    requires Fit(events, loop)
    ensures Strays(events) == multiset{} <==> forall e :: e in events ==> !LosesPiece(e)
  {
    SumIsEmpty(StrayBag, events);
    forall e | e in events ensures StrayBag(e) == multiset{} <==> !LosesPiece(e) {
      StrayIsEmpty(e);
      assert Stray(e) != [] ==> Stray(e)[0] in StrayBag(e);
    }
  }

  lemma EventsAssociate(a: seq<PopEvent>, b: seq<PopEvent>, c: seq<PopEvent>)
    ensures a + (b + c) == a + b + c
  {
  }

  lemma {:induction false} JobPopsJoin(a: seq<Job>, b: seq<Job>)
    ensures JobPops(a + b) == JobPops(a) + JobPops(b)
  {
    if a == [] {
      assert a + b == b;
    } else {
      JobPopsJoin(a[1..], b);
      assert (a + b)[1..] == a[1..] + b && (a + b)[0] == a[0];
      EventsAssociate(Pops(a[0].lo, a[0].lo, a[0].hi, a[0].script), JobPops(a[1..]), JobPops(b));
    }
  }

  lemma PopsOfOne(job: Job)
    ensures JobPops([job]) == Pops(job.lo, job.lo, job.hi, job.script)
  {
    assert [job][1..] == [];
  }

  lemma {:induction false} PopsAboveCut(loop: nat, start: int, end: int, deque: nat, requests: seq<PopRequest>)
    ensures JobPops(CutJobs(loop, start, end, deque, requests)) == CutPops(start, end, deque, requests)
    decreases |requests|
  {
    if requests != [] {
      var r, rest := requests[0], requests[1..];
      if deque > 0 || end - start <= 1 || r.Own? {
        PopsAboveCut(loop, start, end, Left(deque, r), rest);
      } else {
        var split := SplitPoint(r.strategy, start, start, end);
        PopsAboveCut(loop, start, split, deque, rest);
        JobPopsJoin(CutJobs(loop, start, split, deque, rest), [Job(loop, split, end, r.script)]);
        PopsOfOne(Job(loop, split, end, r.script));
      }
    }
  }

  // The size of a script, which is more than that of the scripts in it

  function Size(script: seq<Action>): nat
    decreases script
  {
    if script == [] then 0 else ActionSize(script[0]) + Size(script[1..])
  }

  function ActionSize(a: Action): nat
    decreases a
  {
    match a
    case Step => 1
    case Split(_, script) => 1 + Size(script)
    case Pop(e) => 1 + RequestsSize(e.requests)
  }

  function RequestsSize(requests: seq<PopRequest>): nat
    decreases requests
  {
    if requests == [] then 0
    else 1 + (if requests[0].Own? then 0 else Size(requests[0].script)) + RequestsSize(requests[1..])
  }

  lemma {:induction false} ActionIsPart(script: seq<Action>, t: nat)
    requires t < |script|
    ensures ActionSize(script[t]) <= Size(script)
  {
    if t > 0 {
      ActionIsPart(script[1..], t - 1);
    }
  }

  predicate Smaller(jobs: seq<Job>, size: nat)
  {
    forall i :: 0 <= i < |jobs| ==> Size(jobs[i].script) < size
  }

  lemma {:induction false} CutIsSmaller(loop: nat, start: int, end: int, deque: nat, requests: seq<PopRequest>,
                                        size: nat)
    requires RequestsSize(requests) <= size
    ensures Smaller(CutJobs(loop, start, end, deque, requests), size)
    decreases |requests|
  {
    if requests != [] {
      var r, rest := requests[0], requests[1..];
      if deque > 0 || end - start <= 1 || r.Own? {
        CutIsSmaller(loop, start, end, Left(deque, r), rest, size);
      } else {
        CutIsSmaller(loop, start, SplitPoint(r.strategy, start, start, end), deque, rest, size);
      }
    }
  }
}

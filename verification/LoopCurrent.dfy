/** The reduction of a task above which other loop tasks are popped, or above whose pieces they are:
    for every script of splits and pops, what it combines, and when that is its own fold. */
module LoopCurrent {
  import opened Common
  import opened Loop
  import opened LoopPop

  // What a reduction visits

  /** The iterations of one loop among those visited, in the order of the visit */
  function OwnPart(v: seq<Iteration>, loop: nat): seq<Iteration>
  {
    if v == [] then []
    else OwnPart(v[..|v| - 1], loop) + if v[|v| - 1].0 == loop then [v[|v| - 1]] else []
  }

  predicate NoneOwn(v: seq<Iteration>, loop: nat)
  {
    forall i :: 0 <= i < |v| ==> v[i].0 != loop
  }

  lemma {:induction false} OwnJoins(a: seq<Iteration>, b: seq<Iteration>, loop: nat)
    ensures OwnPart(a + b, loop) == OwnPart(a, loop) + OwnPart(b, loop)
  {
    if b == [] {
      assert a + b == a;
    } else {
      OwnJoins(a, b[..|b| - 1], loop);
      assert (a + b)[..|a + b| - 1] == a + b[..|b| - 1];
    }
  }

  lemma {:induction false} OwnOfStrays(v: seq<Iteration>, loop: nat)
    requires NoneOwn(v, loop)
    ensures OwnPart(v, loop) == []
  {
    if v != [] {
      OwnOfStrays(v[..|v| - 1], loop);
    }
  }

  lemma {:induction false} OwnOfOwn(v: seq<Iteration>, loop: nat)
    requires forall x :: x in v ==> x.0 == loop
    ensures OwnPart(v, loop) == v
  {
    if v != [] {
      assert v[|v| - 1] in v;
      OwnOfOwn(v[..|v| - 1], loop);
      assert v == v[..|v| - 1] + [v[|v| - 1]];
    }
  }

  /** The iterations that a reduction visits if nothing else happens: those visited already, the
      rest of the task's own range, and the pieces on its list */
  function Ahead(visited: seq<Iteration>, loop: nat, from: int, end: int, jobs: seq<Job>): seq<Iteration>
  {
    visited + (Range(loop, from, end) + JobVisits(jobs))
  }

  lemma SplitKeepsAhead(visited: seq<Iteration>, loop: nat, from: int, end: int, jobs: seq<Job>, job: Job)
    requires from <= job.lo <= job.hi == end && job.loop == loop
    ensures Ahead(visited, loop, from, job.lo, [job] + jobs) == Ahead(visited, loop, from, end, jobs)
  {
    assert ([job] + jobs)[1..] == jobs;
    RangeJoins(loop, from, job.lo, end);
    JoinsAssociate(Range(loop, from, job.lo), Range(loop, job.lo, end), JobVisits(jobs));
  }

  /** What is put into a sequence that holds none of the loop changes nothing in the loop's part. */
  lemma StraysAdd(a: seq<Iteration>, strays: seq<Iteration>, b: seq<Iteration>, loop: nat)
    requires NoneOwn(strays, loop)
    ensures OwnPart(a + (strays + b), loop) == OwnPart(a + b, loop)
    ensures multiset(a + (strays + b)) == multiset(a + b) + multiset(strays)
  {
    OwnJoins(a, strays + b, loop);
    OwnJoins(strays, b, loop);
    OwnJoins(a, b, loop);
    OwnOfStrays(strays, loop);
  }

  lemma PopAddsAhead(visited: seq<Iteration>, at: nat, from: int, end: int, jobs: seq<Job>, cut: seq<Job>, loop: nat)
    requires NoneOwn(JobVisits(cut), loop)
    ensures OwnPart(Ahead(visited, at, from, end, cut + jobs), loop)
            == OwnPart(Ahead(visited, at, from, end, jobs), loop)
    ensures multiset(Ahead(visited, at, from, end, cut + jobs))
            == multiset(Ahead(visited, at, from, end, jobs)) + multiset(JobVisits(cut))
  {
    var own, rest := Range(at, from, end), JobVisits(jobs);
    JobVisitsJoin(cut, jobs);
    JoinsAssociate(visited, own, JobVisits(cut) + rest);
    JoinsAssociate(visited, own, rest);
    StraysAdd(visited + own, JobVisits(cut), rest, loop);
  }

  /** A part replaced by one with the same own iterations */
  lemma PartReplaced(a: seq<Iteration>, part: seq<Iteration>, part1: seq<Iteration>, b: seq<Iteration>, loop: nat,
                     strays: multiset<Iteration>)
    requires OwnPart(part1, loop) == OwnPart(part, loop) && multiset(part1) == multiset(part) + strays
    ensures OwnPart(a + part1 + b, loop) == OwnPart(a + (part + b), loop)
    ensures multiset(a + part1 + b) == multiset(a + (part + b)) + strays
  {
    JoinsAssociate(a, part, b);
    OwnJoins(a + part1, b, loop);
    OwnJoins(a, part1, loop);
    OwnJoins(a + part, b, loop);
    OwnJoins(a, part, loop);
  }

  /** What is ahead once the own range has been visited, and when the head of the list is awaited */
  lemma AheadWhenReducing(visited: seq<Iteration>, loop: nat, start: int, end: int, jobs: seq<Job>)
    ensures visited == Range(loop, start, end) ==>
              Ahead([], loop, start, end, jobs) == Ahead(visited, loop, end, end, jobs)
    ensures Ahead(visited, loop, end, end, jobs) == visited + JobVisits(jobs)
  {
  }

  // The account of a run

  /** What a run is to end with: the part of one loop, all iterations together, and the end of the
      range that the task keeps */
  datatype Goal = Goal(loop: nat, own: seq<Iteration>, total: multiset<Iteration>, kept: int)

  /** With `ahead` to be visited and the pops still to come, the run will end with its goal. */
  ghost predicate OnTrack(ahead: seq<Iteration>, pops: seq<PopEvent>, g: Goal)
  {
    exists w: int :: OnTrackAt(w, ahead, pops, g)
  }

  /** The verifier looks behind this only where Unfold is mentioned. */
  ghost predicate OnTrackAt(w: int, ahead: seq<Iteration>, pops: seq<PopEvent>, g: Goal)
  {
    forall u: int {:trigger Unfold(u)} :: Unfold(u) ==>
      OwnPart(ahead, g.loop) == g.own && multiset(ahead) + Strays(pops) == g.total && Fit(pops, g.loop)
  }

  lemma OnTrackIs(ahead: seq<Iteration>, pops: seq<PopEvent>, g: Goal)
    ensures OnTrack(ahead, pops, g) <==>
              OwnPart(ahead, g.loop) == g.own && multiset(ahead) + Strays(pops) == g.total && Fit(pops, g.loop)
  {
    assert Unfold(0);
    if OwnPart(ahead, g.loop) == g.own && multiset(ahead) + Strays(pops) == g.total && Fit(pops, g.loop) {
      assert OnTrackAt(0, ahead, pops, g);
    }
  }

  /** The pops above the listed pieces, and those of the script */
  function Pending(jobs: seq<Job>, start: int, cur: int, end: int, script: seq<Action>): seq<PopEvent>
  {
    JobPops(jobs) + Pops(start, cur, end, script)
  }

  lemma SwapPops(a: seq<PopEvent>, b: seq<PopEvent>, c: seq<PopEvent>, loop: nat)
    ensures Strays(b + a + c) == Strays(a + (b + c)) && (Fit(b + a + c, loop) <==> Fit(a + (b + c), loop))
  {
    SumJoins(StrayBag, b + a, c);
    SumJoins(StrayBag, b, a);
    SumJoins(StrayBag, a, b + c);
    SumJoins(StrayBag, b, c);
    FitJoin(b + a, c, loop);
    FitJoin(b, a, loop);
    FitJoin(a, b + c, loop);
    FitJoin(b, c, loop);
  }

  /** The task is split: what the script of the piece has in store is to come with the piece. */
  lemma TrackSplit(visited: seq<Iteration>, at: nat, from: int, start: int, cur: int, end: int, jobs: seq<Job>,
                   script: seq<Action>, t: nat, job: Job, g: Goal)
    requires t < |script| && script[t].Split? && Abs(end - cur) > 1
    requires job == Job(at, SplitPoint(script[t].strategy, start, cur, end), end, script[t].script)
    requires from <= job.lo <= end
    requires OnTrack(Ahead(visited, at, from, end, jobs), Pending(jobs, start, cur, end, script[t..]), g)
    ensures OnTrack(Ahead(visited, at, from, job.lo, [job] + jobs),
                    Pending([job] + jobs, start, cur, job.lo, script[t + 1..]), g)
  {
    assert script[t..][0] == script[t] && script[t..][1..] == script[t + 1..];
    SplitKeepsAhead(visited, at, from, end, jobs, job);
    JobPopsJoin([job], jobs);
    PopsOfOne(job);
    var piece, later := Pops(job.lo, job.lo, end, job.script), Pops(start, cur, job.lo, script[t + 1..]);
    SwapPops(JobPops(jobs), piece, later, g.loop);
    OnTrackIs(Ahead(visited, at, from, end, jobs), Pending(jobs, start, cur, end, script[t..]), g);
    OnTrackIs(Ahead(visited, at, from, job.lo, [job] + jobs),
              Pending([job] + jobs, start, cur, job.lo, script[t + 1..]), g);
  }

  /** A split that finds nothing to split, and a step */
  lemma TrackNothing(ahead: seq<Iteration>, jobs: seq<Job>, start: int, cur: int, end: int,
                     script: seq<Action>, t: nat, g: Goal)
    requires t < |script| && OnTrack(ahead, Pending(jobs, start, cur, end, script[t..]), g)
    ensures script[t].Split? && Abs(end - cur) <= 1 ==>
              OnTrack(ahead, Pending(jobs, start, cur, end, script[t + 1..]), g)
    ensures script[t].Step? ==> OnTrack(ahead, Pending(jobs, start, Next(cur, end), end, script[t + 1..]), g)
  {
    assert script[t..][0] == script[t] && script[t..][1..] == script[t + 1..];
  }

  /** The pieces that a pop puts on the list */
  function StrayJobs(e: PopEvent): seq<Job>
  {
    if e.hasFuture then CutJobs(e.loop, e.lo, e.hi, e.deque, e.requests) else []
  }

  /** One pop less to come: `a` is followed by `e`, what is above the strays, and the rest. */
  lemma PopComes(a: seq<PopEvent>, e: PopEvent, b: seq<PopEvent>, c: seq<PopEvent>, loop: nat)
    ensures Strays(a + ([e] + b + c)) == StrayBag(e) + Strays(b + a + c)
    ensures Fit(a + ([e] + b + c), loop) ==> Fit(b + a + c, loop) && e.lo <= e.hi && e.loop != loop
  {
    var d := [e] + b + c;
    assert [e] + b + c == [e] + (b + c);
    SumJoins(StrayBag, a, d);
    SumJoins(StrayBag, [e], b + c);
    SumOfOne(StrayBag, e);
    SwapPops(a, b, c, loop);
    SumJoins(StrayBag, a, b + c);
    FitJoin(a, d, loop);
    FitJoin([e], b + c, loop);
    FitJoin(a, b + c, loop);
    assert e in [e];
  }

  lemma PopPending(jobs: seq<Job>, start: int, cur: int, end: int, script: seq<Action>, t: nat, loop: nat)
    requires t < |script| && script[t].Pop?
    ensures var e := script[t].event;
            var pops, pops1 := Pending(jobs, start, cur, end, script[t..]),
                               Pending(StrayJobs(e) + jobs, start, cur, end, script[t + 1..]);
            && Strays(pops) == StrayBag(e) + Strays(pops1)
            && (Fit(pops, loop) ==> Fit(pops1, loop) && e.lo <= e.hi && e.loop != loop)
  {
    var e := script[t].event;
    assert script[t..][0] == script[t] && script[t..][1..] == script[t + 1..];
    PopsAboveCut(e.loop, e.lo, e.hi, e.deque, e.requests);
    JobPopsJoin(StrayJobs(e), jobs);
    PopComes(JobPops(jobs), e, StrayPops(script[t]), Pops(start, cur, end, script[t + 1..]), loop);
  }

  lemma StrayVisits(e: PopEvent, loop: nat)
    requires e.lo <= e.hi
    ensures JobVisits(StrayJobs(e)) == Stray(e) && (e.loop != loop ==> NoneOwn(Stray(e), loop))
  {
    CutIsTheRest(e.loop, e.lo, e.hi, e.deque, e.requests);
  }

  lemma TrackPop(visited: seq<Iteration>, at: nat, from: int, start: int, cur: int, end: int, jobs: seq<Job>,
                 script: seq<Action>, t: nat, g: Goal)
    requires t < |script| && script[t].Pop?
    requires OnTrack(Ahead(visited, at, from, end, jobs), Pending(jobs, start, cur, end, script[t..]), g)
    ensures script[t].event.lo <= script[t].event.hi
    ensures OnTrack(Ahead(visited, at, from, end, StrayJobs(script[t].event) + jobs),
                    Pending(StrayJobs(script[t].event) + jobs, start, cur, end, script[t + 1..]), g)
  {
    var e := script[t].event;
    var pops := Pending(jobs, start, cur, end, script[t..]);
    OnTrackIs(Ahead(visited, at, from, end, jobs), pops, g);
    PopPending(jobs, start, cur, end, script, t, g.loop);
    StrayVisits(e, g.loop);
    PopAddsAhead(visited, at, from, end, jobs, StrayJobs(e), g.loop);
    StraysArrive(Ahead(visited, at, from, end, jobs), Ahead(visited, at, from, end, StrayJobs(e) + jobs), StrayBag(e),
                 pops, Pending(StrayJobs(e) + jobs, start, cur, end, script[t + 1..]), g);
  }

  lemma StraysArrive(ahead: seq<Iteration>, ahead1: seq<Iteration>, stray: multiset<Iteration>,
                     pops: seq<PopEvent>, pops1: seq<PopEvent>, g: Goal)
    requires OnTrack(ahead, pops, g) && Strays(pops) == stray + Strays(pops1) && Fit(pops1, g.loop)
    requires OwnPart(ahead1, g.loop) == OwnPart(ahead, g.loop) && multiset(ahead1) == multiset(ahead) + stray
    ensures OnTrack(ahead1, pops1, g)
  {
    OnTrackIs(ahead, pops, g);
    OnTrackIs(ahead1, pops1, g);
    BagsAssociate(multiset(ahead), stray, Strays(pops1));
  }

  /** The head of the list has been run, with what strayed above it. */
  lemma TrackAwait(visited: seq<Iteration>, at: nat, end: int, jobs: seq<Job>, pops: seq<PopEvent>,
                   part: seq<Iteration>, g: Goal)
    requires jobs != [] && OnTrack(Ahead(visited, at, end, end, jobs), JobPops(jobs) + pops, g)
    requires Ran(part, jobs[0], g.loop)
    ensures OnTrack(Ahead(visited + part, at, end, end, jobs[1..]), JobPops(jobs[1..]) + pops, g)
  {
    var job, rest := jobs[0], jobs[1..];
    var own, above := Range(job.loop, job.lo, job.hi), Pops(job.lo, job.lo, job.hi, job.script);
    AheadWhenReducing(visited, at, end, end, jobs);
    AheadWhenReducing(visited + part, at, end, end, rest);
    PartReplaced(visited, own, part, JobVisits(rest), g.loop, Strays(above));
    EventsAssociate(above, JobPops(rest), pops);
    SumJoins(StrayBag, above, JobPops(rest) + pops);
    FitJoin(above, JobPops(rest) + pops, g.loop);
    OnTrackIs(Ahead(visited, at, end, end, jobs), JobPops(jobs) + pops, g);
    OnTrackIs(Ahead(visited + part, at, end, end, rest), JobPops(rest) + pops, g);
  }

  lemma RanToGoal(visited: seq<Iteration>, job: Job, loop: nat)
    requires OnTrack(visited, [], GoalOf(job, loop))
    ensures Ran(visited, job, loop)
  {
    OnTrackIs(visited, [], GoalOf(job, loop));
  }

  /** `part` is what the reduction of the piece visits: as to the given loop, the piece's own range,
      and on the whole that and what strays above it. */
  ghost predicate Ran(part: seq<Iteration>, job: Job, loop: nat)
  {
    && OwnPart(part, loop) == OwnPart(Range(job.loop, job.lo, job.hi), loop)
    && multiset(part)
       == multiset(Range(job.loop, job.lo, job.hi)) + Strays(Pops(job.lo, job.lo, job.hi, job.script))
  }

  lemma FitsAwait(ahead: seq<Iteration>, jobs: seq<Job>, pops: seq<PopEvent>, g: Goal)
    requires jobs != [] && OnTrack(ahead, JobPops(jobs) + pops, g)
    ensures Fit(Pops(jobs[0].lo, jobs[0].lo, jobs[0].hi, jobs[0].script), g.loop)
  {
    OnTrackIs(ahead, JobPops(jobs) + pops, g);
    var above := Pops(jobs[0].lo, jobs[0].lo, jobs[0].hi, jobs[0].script);
    EventsAssociate(above, JobPops(jobs[1..]), pops);
    FitJoin(above, JobPops(jobs[1..]) + pops, g.loop);
  }

  // The current task

  /** `c` has gone on no further; its end has come down to `from` at the lowest, and only if it could
      be split; and its list has new futures only. */
  twostate predicate Moved(c: LoopTask, from: int)
    reads c
  {
    && c.start == old(c.start) && c.cur == old(c.cur) && from <= c.end <= old(c.end) && c.cur <= c.end + 1
    && (old(c.cur <= c.end) ==> c.cur <= c.end) && (!old(c.Splittable()) ==> c.end == old(c.end))
    && forall p :: p in c.futures ==> p in old(c.futures) || fresh(p)
  }

  /** The jobs are on the list of `c`, and `c` is on track with `t` actions of its script behind it,
      where it has still to count its own iterations from `from` on. */
  ghost predicate Underway(c: LoopTask, script: seq<Action>, t: nat, jobs: seq<Job>,
                           visited: seq<Iteration>, from: int, g: Goal)
    reads c, c.futures
  {
    && Carries(c, jobs) && c.start <= c.cur <= c.end + 1 && from <= c.end
    && t <= |script| && Smaller(jobs, Size(script))
    && OnTrack(Ahead(visited, c.loop, from, c.end, jobs), Pending(jobs, c.start, c.cur, c.end, script[t..]), g)
    && EndAfter(c.start, c.cur, c.end, script[t..]) == g.kept
  }

  lemma EndStep(start: int, cur: int, end: int, script: seq<Action>, t: nat)
    requires t < |script|
    ensures script[t].Step? ==>
              EndAfter(start, cur, end, script[t..]) == EndAfter(start, Next(cur, end), end, script[t + 1..])
    ensures script[t].Pop? || (script[t].Split? && Abs(end - cur) <= 1) ==>
              EndAfter(start, cur, end, script[t..]) == EndAfter(start, cur, end, script[t + 1..])
    ensures script[t].Split? && Abs(end - cur) > 1 ==>
              EndAfter(start, cur, end, script[t..])
              == EndAfter(start, cur, SplitPoint(script[t].strategy, start, cur, end), script[t + 1..])
  {
    assert script[t..][0] == script[t] && script[t..][1..] == script[t + 1..];
  }

  lemma SmallerJoin(a: seq<Job>, b: seq<Job>, n: nat, size: nat)
    requires Smaller(a, n) && Smaller(b, size) && n <= size
    ensures Smaller(a + b, size)
  {
  }

  lemma StraysAreSmaller(e: PopEvent)
    ensures Smaller(StrayJobs(e), RequestsSize(e.requests))
  {
    CutIsSmaller(e.loop, e.lo, e.hi, e.deque, e.requests, RequestsSize(e.requests));
  }

  /** RT_pop of another loop while `c` is current: what the loop loses comes first on the list of `c`. */
  method PopOnce(c: LoopTask, e: PopEvent, jobs: seq<Job>) returns (jobs1: seq<Job>)
    requires Carries(c, jobs) && e.lo <= e.hi
    modifies c
    ensures OnlyListed(c, jobs1) && jobs1 == StrayJobs(e) + jobs
    ensures JobVisits(jobs1) == Stray(e) + JobVisits(jobs)
  {
    var t := new LoopTask(e.loop, e.lo, e.hi);
    var crashed;
    crashed, jobs1 := ServeWhenPopped(t, c, e.hasFuture, e.deque, e.requests, jobs);
    StrayVisits(e, c.loop);
    JobVisitsJoin(StrayJobs(e), jobs);
  }

  method SplitOnce(c: LoopTask, strategy: Strategy, script: seq<Action>, jobs: seq<Job>) returns (job: Job)
    requires Carries(c, jobs) && c.start <= c.cur <= c.end && c.Splittable()
    modifies c
    ensures c.start == old(c.start) && c.cur == old(c.cur) < c.end == job.lo < old(c.end)
    ensures job == Job(c.loop, SplitPoint(strategy, c.start, c.cur, old(c.end)), old(c.end), script)
    ensures Carries(c, [job] + jobs) && forall p :: p in c.futures ==> p in old(c.futures) || fresh(p)
  {
    var end := c.end;
    var dup := c.SplitLoop(strategy);
    job := Job(c.loop, c.end, end, script);
    Record(c, dup, job, jobs);
  }

  /** One action other than a step */
  method DoAction(c: LoopTask, script: seq<Action>, t: nat, jobs: seq<Job>, ghost visited: seq<Iteration>,
                  ghost from: int, ghost g: Goal)
    returns (jobs1: seq<Job>)
    requires Underway(c, script, t, jobs, visited, from, g) && t < |script| && !script[t].Step?
    requires c.Splittable() ==> from <= c.cur
    modifies c
    ensures Underway(c, script, t + 1, jobs1, visited, from, g) && Moved(c, from)
  {
    jobs1 := jobs;
    ActionIsPart(script, t);
    EndStep(c.start, c.cur, c.end, script, t);
    if script[t].Pop? {
      TrackPop(visited, c.loop, from, c.start, c.cur, c.end, jobs, script, t, g);
      StraysAreSmaller(script[t].event);
      SmallerJoin(StrayJobs(script[t].event), jobs, RequestsSize(script[t].event.requests), Size(script));
      jobs1 := PopOnce(c, script[t].event, jobs);
    } else if c.Splittable() {
      ghost var end := c.end;
      var job := SplitOnce(c, script[t].strategy, script[t].script, jobs);
      TrackSplit(visited, c.loop, from, c.start, c.cur, end, jobs, script, t, job, g);
      SmallerJoin([job], jobs, ActionSize(script[t]), Size(script));
      jobs1 := [job] + jobs;
    } else {
      TrackNothing(Ahead(visited, c.loop, from, c.end, jobs), jobs, c.start, c.cur, c.end, script, t, g);
    }
  }

  /** The actions up to the next step; or, when the loop of `c` is over, all that are left */
  method DoActions(c: LoopTask, script: seq<Action>, t: nat, all: bool, jobs: seq<Job>,
                   ghost visited: seq<Iteration>, ghost from: int, ghost g: Goal)
    returns (t1: nat, jobs1: seq<Job>)
    requires Underway(c, script, t, jobs, visited, from, g)
    requires c.Splittable() ==> from <= c.cur
    requires all ==> c.cur == c.end + 1
    modifies c
    ensures Underway(c, script, t1, jobs1, visited, from, g) && Moved(c, from)
    ensures t <= t1 && (t1 == |script| || (!all && script[t1].Step?))
    ensures t == t1 ==> c.futures == old(c.futures)
  {
    t1, jobs1 := t, jobs;
    while t1 < |script| && (all || !script[t1].Step?)
      invariant t <= t1 && Underway(c, script, t1, jobs1, visited, from, g) && Moved(c, from)
      invariant c.Splittable() ==> from <= c.cur
      invariant t == t1 ==> c.futures == old(c.futures)
    {
      if script[t1].Step? {
        EndStep(c.start, c.cur, c.end, script, t1);
        TrackNothing(Ahead(visited, c.loop, from, c.end, jobs1), jobs1, c.start, c.cur, c.end, script, t1, g);
      } else {
        jobs1 := DoAction(c, script, t1, jobs1, visited, from, g);
      }
      t1 := t1 + 1;
    }
  }

  /** The back edge of the loop, or its entry: `c` goes on, and what happens until it goes on again,
      from the poll at the back edge to the end of the next iteration */
  method AdvanceCurrent(c: LoopTask, script: seq<Action>, t: nat, jobs: seq<Job>, ghost g: Goal)
    returns (t1: nat, jobs1: seq<Job>)
    requires Underway(c, script, t, jobs, [], c.start, g) && c.cur <= c.end && (t == |script| || script[t].Step?)
    modifies c
    ensures Underway(c, script, t1, jobs1, [], c.start, g) && (t1 == |script| || script[t1].Step?)
    ensures c.start == old(c.start) && c.cur == old(c.cur) + 1 <= c.end + 1 && c.end <= old(c.end)
    ensures forall p :: p in c.futures ==> p in old(c.futures) || fresh(p)
  {
    t1 := t;
    if t < |script| {
      EndStep(c.start, c.cur, c.end, script, t);
      TrackNothing(Ahead([], c.loop, c.start, c.end, jobs), jobs, c.start, c.cur, c.end, script, t, g);
      t1 := t + 1;
    }
    c.cur := c.cur + 1;
    t1, jobs1 := DoActions(c, script, t1, false, jobs, [], c.start, g);
  }

  ghost function GoalOf(c: Job, loop: nat): Goal
  {
    var own := Range(c.loop, c.lo, c.hi);
    Goal(loop, OwnPart(own, loop), multiset(own) + Strays(Pops(c.lo, c.lo, c.hi, c.script)),
         EndAfter(c.lo, c.lo, c.hi, c.script))
  }

  lemma StartOnTrack(c: Job, loop: nat)
    requires Fit(Pops(c.lo, c.lo, c.hi, c.script), loop)
    ensures OnTrack(Ahead([], c.loop, c.lo, c.hi, []), Pending([], c.lo, c.lo, c.hi, c.script[0..]), GoalOf(c, loop))
  {
    var pops := Pops(c.lo, c.lo, c.hi, c.script);
    assert Ahead([], c.loop, c.lo, c.hi, []) == Range(c.loop, c.lo, c.hi);
    assert c.script[0..] == c.script && [] + pops == pops;
    OnTrackIs(Range(c.loop, c.lo, c.hi), pops, GoalOf(c, loop));
  }

  /** The loop of a task that other loops are popped above */
  method RunCurrentLoop<T(!new)>(c: LoopTask, f: Iteration -> T, op: (T, T) -> T, unit: T, script: seq<Action>,
                                 ghost g: Goal)
    returns (acc: T, visited: seq<Iteration>, t: nat, jobs: seq<Job>)
    requires c.start == c.cur <= c.end && c.futures == [] && Underway(c, script, 0, [], [], c.start, g)
    modifies c
    ensures Underway(c, script, t, jobs, [], c.start, g) && c.start == old(c.start) && c.cur == c.end + 1
    ensures visited == Range(c.loop, c.start, c.end) && acc == Fold(f, op, unit, visited)
    ensures forall p :: p in c.futures ==> fresh(p)
  {
    t, jobs := DoActions(c, script, 0, false, [], [], c.start, g);
    acc, visited := unit, [];
    var i := c.start;
    t, jobs := AdvanceCurrent(c, script, t, jobs, g);
    while i < c.end
      invariant c.start == old(c.start) <= i <= c.end && c.cur == i + 1
      invariant Underway(c, script, t, jobs, [], c.start, g) && (t == |script| || script[t].Step?)
      invariant forall p :: p in c.futures ==> fresh(p)
      invariant visited == Range(c.loop, c.start, i) && acc == Fold(f, op, unit, visited)
      decreases c.end - i
    {
      VisitStep(f, op, unit, c.loop, c.start, i);
      acc := op(acc, f((c.loop, i)));
      visited := visited + [(c.loop, i)];
      i := i + 1;
      t, jobs := AdvanceCurrent(c, script, t, jobs, g);
    }
  }

  /** What happens until the next future is awaited; all that is left, if there is none */
  method UntilNext(c: LoopTask, script: seq<Action>, t: nat, jobs: seq<Job>, ghost visited: seq<Iteration>,
                   ghost g: Goal)
    returns (t1: nat, jobs1: seq<Job>)
    requires Underway(c, script, t, jobs, visited, c.end, g) && c.cur == c.end + 1
    modifies c
    ensures Underway(c, script, t1, jobs1, visited, c.end, g) && Moved(c, old(c.end))
    ensures t1 == |script| || (t < t1 && c.futures != [])
    ensures t == t1 ==> c.futures == old(c.futures)
  {
    t1, jobs1 := DoActions(c, script, t, c.futures == [], jobs, visited, c.end, g);
    if t1 < |script| {
      EndStep(c.start, c.cur, c.end, script, t1);
      TrackNothing(Ahead(visited, c.loop, c.end, c.end, jobs1), jobs1, c.start, c.cur, c.end, script, t1, g);
      t1 := t1 + 1;
      if c.futures == [] {
        t1, jobs1 := DoActions(c, script, t1, true, jobs1, visited, c.end, g);
      }
    }
  }

  /** One round of REDUCE: the head of the list is removed, and its result awaited. The thief has run
      the piece with the script that goes with it. */
  method AwaitCurrent<T(!new)>(c: LoopTask, f: Iteration -> T, op: (T, T) -> T, unit: T, script: seq<Action>,
                               t: nat, jobs: seq<Job>, ghost visited: seq<Iteration>, ghost g: Goal)
    returns (value: T, part: seq<Iteration>, count: int, t1: nat, jobs1: seq<Job>)
    requires Underway(c, script, t, jobs, visited, c.end, g) && c.cur == c.end + 1 && jobs != []
    requires Associative(op) && IsUnit(op, unit)
    modifies c, c.futures[0]
    ensures Underway(c, script, t1, jobs1, visited + part, c.end, g) && c.cur == c.end + 1
    ensures c.start == old(c.start) && c.end == old(c.end)
    ensures value == Fold(f, op, unit, part) && count == |part|
    ensures forall p :: p in c.futures ==> p in old(c.futures) || fresh(p)
    ensures t1 == |script| || c.futures != []
    ensures t < t1 || (t == t1 == |script| && |c.futures| < old(|c.futures|))
    decreases Size(script), 0
  {
    var p := c.futures[0];
    c.futures := c.futures[1..];
    FitsAwait(Ahead(visited, c.loop, c.end, c.end, jobs), jobs, Pops(c.start, c.cur, c.end, script[t..]), g);
    value, part, count := RunListed(c, p, f, op, unit, jobs[0], jobs[1..], g.loop);
    TrackAwait(visited, c.loop, c.end, jobs, Pops(c.start, c.cur, c.end, script[t..]), part, g);
    t1, jobs1 := UntilNext(c, script, t, jobs[1..], visited + part, g);
  }

  /** Running a piece that is not on the list leaves the list alone. */
  method RunListed<T(!new)>(c: LoopTask, p: LoopTask, f: Iteration -> T, op: (T, T) -> T, unit: T,
                            job: Job, jobs: seq<Job>, ghost loop: nat)
    returns (value: T, part: seq<Iteration>, count: int)
    requires Carries(c, jobs) && p != c && p !in c.futures && p.Is(Piece(job.loop, job.lo, job.hi))
    requires Fit(Pops(job.lo, job.lo, job.hi, job.script), loop) && Associative(op) && IsUnit(op, unit)
    modifies p
    ensures Carries(c, jobs) && Ran(part, job, loop) && value == Fold(f, op, unit, part) && count == |part|
    decreases Size(job.script), 3
  {
    value, part, count := RunScript(p, f, op, unit, job.script, loop);
    assert forall i :: 0 <= i < |jobs| ==> c.futures[i] in c.futures;
  }

  /** REDUCE of a task that other loops are popped above while it awaits its futures */
  method ReduceCurrent<T(!new)>(c: LoopTask, f: Iteration -> T, op: (T, T) -> T, unit: T, script: seq<Action>,
                                t0: nat, jobs0: seq<Job>, acc0: T, visited0: seq<Iteration>, ghost g: Goal)
    returns (acc: T, visited: seq<Iteration>, count: int)
    requires Underway(c, script, t0, jobs0, visited0, c.end, g) && c.cur == c.end + 1
    requires acc0 == Fold(f, op, unit, visited0) && Associative(op) && IsUnit(op, unit)
    requires t0 == |script| || c.futures != []
    modifies c, c.futures
    ensures acc == Fold(f, op, unit, visited) && OnTrack(visited, [], g) && count == |visited| - |visited0|
    ensures c.start == old(c.start) && c.end == old(c.end) == g.kept
    decreases Size(script), 1
  {
    acc, visited, count := acc0, visited0, 0;
    var t, jobs := t0, jobs0;
    while c.futures != []
      invariant Underway(c, script, t, jobs, visited, c.end, g) && c.cur == c.end + 1
      invariant forall p :: p in c.futures ==> p in old(c.futures) || fresh(p)
      invariant acc == Fold(f, op, unit, visited) && count == |visited| - |visited0|
      invariant c.start == old(c.start) && c.end == old(c.end)
      invariant t == |script| || c.futures != []
      decreases |script| - t, |c.futures|
    {
      assert c.futures[0] in c.futures;
      var value, part, more;
      value, part, more, t, jobs := AwaitCurrent(c, f, op, unit, script, t, jobs, visited, g);
      FoldJoins(f, op, unit, visited, part);
      acc := op(acc, value);
      visited := visited + part;
      count := count + more;
    }
    assert Ahead(visited, c.loop, c.end, c.end, []) == visited;
    assert script[|script|..] == [];
  }

  /** The loop, what happens between it and REDUCE, and REDUCE */
  method RunScript<T(!new)>(c: LoopTask, f: Iteration -> T, op: (T, T) -> T, unit: T, script: seq<Action>,
                            ghost loop: nat)
    returns (acc: T, visited: seq<Iteration>, executed: int)
    requires c.start == c.cur <= c.end && c.futures == [] && Fit(Pops(c.start, c.start, c.end, script), loop)
    requires Associative(op) && IsUnit(op, unit)
    modifies c
    ensures acc == Fold(f, op, unit, visited) && Ran(visited, Job(c.loop, old(c.start), old(c.end), script), loop)
    ensures executed == |visited| && c.end == EndAfter(old(c.start), old(c.start), old(c.end), script)
    decreases Size(script), 2
  {
    ghost var job := Job(c.loop, c.start, c.end, script);
    ghost var g := GoalOf(job, loop);
    StartOnTrack(job, loop);
    var t, jobs;
    acc, visited, t, jobs := RunCurrentLoop(c, f, op, unit, script, g);
    t, jobs := LeaveLoop(c, script, t, jobs, visited, g);
    forall i | 0 <= i < |c.futures| ensures fresh(c.futures[i]) {
      assert c.futures[i] in c.futures;
    }
    acc, visited, executed := ReduceCurrent(c, f, op, unit, script, t, jobs, acc, visited, g);
    executed := executed + Abs(c.end - c.start);
    RanToGoal(visited, job, loop);
  }

  /** Between the loop and REDUCE */
  method LeaveLoop(c: LoopTask, script: seq<Action>, t: nat, jobs: seq<Job>, ghost visited: seq<Iteration>,
                   ghost g: Goal)
    returns (t1: nat, jobs1: seq<Job>)
    requires Underway(c, script, t, jobs, [], c.start, g) && c.cur == c.end + 1
    requires visited == Range(c.loop, c.start, c.end)
    modifies c
    ensures Underway(c, script, t1, jobs1, visited, c.end, g) && c.cur == c.end + 1
    ensures c.start == old(c.start) && c.end == old(c.end)
    ensures t1 == |script| || c.futures != []
    ensures forall p :: p in c.futures ==> p in old(c.futures) || fresh(p)
  {
    AheadWhenReducing(visited, c.loop, c.start, c.end, jobs);
    t1, jobs1 := UntilNext(c, script, t, jobs, visited, g);
  }

  lemma NotOnlyOwn(visited: seq<Iteration>, own: seq<Iteration>, strays: multiset<Iteration>)
    requires multiset(visited) == multiset(own) + strays && strays != multiset{}
    ensures visited != own
  {
    var x :| x in strays;
    assert multiset(visited)[x] > multiset(own)[x];
  }

  lemma OnlyOwn(visited: seq<Iteration>, loop: nat, lo: int, hi: int)
    requires OwnPart(visited, loop) == Range(loop, lo, hi) && multiset(visited) == multiset(Range(loop, lo, hi))
    ensures visited == Range(loop, lo, hi)
  {
    forall x | x in visited ensures x.0 == loop {
      assert x in multiset(visited) && x in multiset(Range(loop, lo, hi));
    }
    OwnOfOwn(visited, loop);
  }

  lemma Conclude(visited: seq<Iteration>, job: Job, pops: seq<PopEvent>)
    requires pops == Pops(job.lo, job.lo, job.hi, job.script) && Fit(pops, job.loop) && Ran(visited, job, job.loop)
    ensures OwnPart(visited, job.loop) == Range(job.loop, job.lo, job.hi)
    ensures visited == Range(job.loop, job.lo, job.hi) <==> forall e :: e in pops ==> !LosesPiece(e)
  {
    var own := Range(job.loop, job.lo, job.hi);
    OwnOfOwn(own, job.loop);
    NoStrays(pops, job.loop);
    if Strays(pops) == multiset{} {
      assert multiset(own) + multiset{} == multiset(own);
      OnlyOwn(visited, job.loop, job.lo, job.hi);
    } else {
      NotOnlyOwn(visited, own, Strays(pops));
    }
  }

  /** The reduction of a task that other loops are popped above, for every script: its own iterations
      are combined in order; mixed in are exactly those that loops lost when they were popped above
      the task or, at any depth, above a piece reduced under it; and it is the task's own fold if
      and only if none of those loops both has a future and is split. The task has a future, so
      that its own pieces are recorded; one that is not a loop has an empty range. */
  method RunCurrent<T(!new)>(c: LoopTask, f: Iteration -> T, op: (T, T) -> T, unit: T, script: seq<Action>)
    returns (acc: T, visited: seq<Iteration>, executed: int)
    requires c.start == c.cur <= c.end && c.futures == [] && Fit(Pops(c.start, c.start, c.end, script), c.loop)
    requires Associative(op) && IsUnit(op, unit)
    modifies c
    ensures acc == Fold(f, op, unit, visited)
    ensures OwnPart(visited, c.loop) == Range(c.loop, old(c.start), old(c.end))
    ensures multiset(visited)
            == multiset(Range(c.loop, old(c.start), old(c.end)))
             + Strays(Pops(old(c.start), old(c.start), old(c.end), script))
    ensures visited == Range(c.loop, old(c.start), old(c.end)) <==>
              forall e :: e in Pops(old(c.start), old(c.start), old(c.end), script) ==> !LosesPiece(e)
    ensures executed == |visited| && c.end == EndAfter(old(c.start), old(c.start), old(c.end), script)
  {
    ghost var job := Job(c.loop, c.start, c.end, script);
    acc, visited, executed := RunScript(c, f, op, unit, script, c.loop);
    Conclude(visited, job, Pops(job.lo, job.lo, job.hi, script));
  }

  /** A loop above which, and above whose pieces, nothing is popped: whatever splits are made before it
      starts, in its iterations, at its back edges, and of its pieces in turn, every iteration is
      executed once, the reduction is the fold over them in order, and what `run_task` counts for
      the task and all its pieces adds up to them. */
  method RunTask<T(!new)>(c: LoopTask, f: Iteration -> T, op: (T, T) -> T, unit: T, script: seq<Action>)
    returns (acc: T, visited: seq<Iteration>, executed: int)
    requires c.start == c.cur <= c.end && c.futures == [] && Pops(c.start, c.start, c.end, script) == []
    requires Associative(op) && IsUnit(op, unit)
    modifies c
    ensures visited == Range(c.loop, old(c.start), old(c.end)) && acc == Fold(f, op, unit, visited)
    ensures executed == old(c.end) - old(c.start)
    ensures c.end == EndAfter(old(c.start), old(c.start), old(c.end), script)
  {
    acc, visited, executed := RunCurrent(c, f, op, unit, script);
  }

  /** The whole range is visited if and only if all of it was kept and nothing strayed in. */
  lemma ConcludePopped(visited: seq<Iteration>, loop: nat, lo: int, kept: int, hi: int)
    requires lo <= kept <= hi && OwnPart(visited, loop) == Range(loop, lo, kept)
    ensures visited == Range(loop, lo, hi) <==> kept == hi && visited == Range(loop, lo, kept)
  {
    OwnOfOwn(Range(loop, lo, hi), loop);
    assert |Range(loop, lo, hi)| == hi - lo && |Range(loop, lo, kept)| == kept - lo;
  }

  /** Popping a loop task with a future and running it, with a script from when it is current. Of its
      own range it combines what it kept, in order. That is its whole range, with nothing else, if
      and only if neither it nor, while it runs, another loop with a future is split when popped. */
  method RunPopped<T(!new)>(t: LoopTask, current: LoopTask?, deque: nat, requests: seq<PopRequest>, jobs: seq<Job>,
                            script: seq<Action>, f: Iteration -> T, op: (T, T) -> T, unit: T)
    returns (crashed: bool, acc: T, visited: seq<Iteration>)
    requires t != current && t.start == t.cur <= t.end && t.futures == []
    requires current != null ==> Carries(current, jobs) && t !in current.futures
    requires Fit(Pops(t.start, t.start, KeptEnd(t.start, t.end, deque, requests), script), t.loop)
    requires Associative(op) && IsUnit(op, unit)
    modifies t, current
    ensures crashed <==> current == null && SplitWhenPopped(old(t.end - t.start), deque, requests)
    ensures !crashed ==> acc == Fold(f, op, unit, visited)
    ensures !crashed ==>
              var lo, hi := old(t.start), old(t.end);
              var kept := KeptEnd(lo, hi, deque, requests);
              && OwnPart(visited, t.loop) == Range(t.loop, lo, kept)
              && multiset(visited) == multiset(Range(t.loop, lo, kept)) + Strays(Pops(lo, lo, kept, script))
              && (visited == Range(t.loop, lo, hi) <==>
                    && !SplitWhenPopped(hi - lo, deque, requests)
                    && forall e :: e in Pops(lo, lo, kept, script) ==> !LosesPiece(e))
  {
    ghost var lo, hi := t.start, t.end;
    var listed;
    crashed, listed := ServeWhenPopped(t, current, true, deque, requests, jobs);
    acc, visited := unit, [];
    if !crashed {
      KeptAll(lo, hi, deque, requests);
      ghost var kept := t.end;
      var executed;
      acc, visited, executed := RunCurrent(t, f, op, unit, script);
      ConcludePopped(visited, t.loop, lo, kept, hi);
    }
  }

  // Concrete cases

  function Plus(a: int, b: int): int
  {
    a + b
  }

  lemma PlusFolds()
    ensures Associative(Plus) && IsUnit(Plus, 0)
  {
  }

  /** A loop [0, 2) of two iterations that is split when popped contributes only its first one. */
  method PoppedLoopLosesHalf(f: Iteration -> int) returns (sum: int, visited: seq<Iteration>)
    ensures visited == [(1, 0)] && sum == f((1, 0))
  {
    TwoIterationsSplit();
    PlusFolds();
    var t := new LoopTask(1, 0, 2);
    var current := new LoopTask(0, 0, 1);
    var crashed;
    crashed, sum, visited := RunPopped(t, current, 0, [Foreign(false, Half, [])], [], [], f, Plus, 0);
    OnlyOwn(visited, 1, 0, 1);
    FoldStep(f, Plus, 0, [], (1, 0));
    assert [] + [(1, 0)] == [(1, 0)];
  }

  /** That loop, popped above another task */
  const SPLIT_LOOP := PopEvent(1, 0, 2, true, 0, [Foreign(false, Half, [])])

  lemma OneStray(start: int, cur: int, end: int)
    ensures Pops(start, cur, end, [Pop(SPLIT_LOOP)]) == [SPLIT_LOOP]
    ensures Fit([SPLIT_LOOP], 0) && Strays([SPLIT_LOOP]) == multiset{(1, 1)}
  {
    TwoIterationsSplit();
    var script, requests := [Pop(SPLIT_LOOP)], [Foreign(false, Half, [])];
    assert script[1..] == [] && requests[1..] == [];
    assert CutPops(0, 2, 0, requests) == [];
    SumOfOne(StrayBag, SPLIT_LOOP);
    assert Stray(SPLIT_LOOP) == [(1, 1)];
  }

  /** What the current task visits in the cases below */
  lemma TwoVisited(visited: seq<Iteration>, loop: nat, hi: nat, x: Iteration)
    requires 1 <= hi <= 2 && multiset(visited) == multiset(Range(loop, 0, hi)) + multiset{x}
    ensures multiset(visited) == multiset{(loop, 0), x} + (if hi == 2 then multiset{(loop, 1)} else multiset{})
  {
    assert Range(loop, 0, hi) == if hi == 1 then [(loop, 0)] else [(loop, 0), (loop, 1)];
  }

  lemma SumOfTwo(f: Iteration -> int, v: seq<Iteration>, x: Iteration, y: Iteration)
    requires multiset(v) == multiset{x, y} && x != y
    ensures Fold(f, Plus, 0, v) == f(x) + f(y)
  {
    assert |v| == |multiset(v)| == 2;
    var a, b := v[0], v[1];
    assert v == [a, b] && multiset(v) == multiset{a, b};
    assert a in multiset{x, y} && b in multiset{x, y} && multiset{a, b}[a] == multiset{x, y}[a];
    assert [a, b][..1] == [a];
    assert Fold(f, Plus, 0, [a]) == Fold(f, Plus, 0, []) + f(a) == f(a);
    assert Fold(f, Plus, 0, [a, b]) == Fold(f, Plus, 0, [a]) + f(b);
  }

  /** A current task with a single iteration picks up an iteration of that loop. */
  method CurrentPicksUpStray(f: Iteration -> int) returns (sum: int, visited: seq<Iteration>)
    ensures multiset(visited) == multiset{(0, 0), (1, 1)} && sum == f((0, 0)) + f((1, 1))
  {
    OneStray(0, 0, 1);
    PlusFolds();
    var c := new LoopTask(0, 0, 1);
    var executed;
    sum, visited, executed := RunCurrent(c, f, Plus, 0, [Pop(SPLIT_LOOP)]);
    TwoVisited(visited, 0, 1, (1, 1));
    SumOfTwo(f, visited, (0, 0), (1, 1));
  }

  lemma OneStrayAbovePiece()
    ensures Pops(0, 0, 2, [Split(Half, [Pop(SPLIT_LOOP)])]) == [SPLIT_LOOP]
  {
    OneStray(1, 1, 2);
    assert [Split(Half, [Pop(SPLIT_LOOP)])][1..] == [];
  }

  /** A task of two iterations above which nothing is popped, but above the half that it gave away:
      its reduction is disturbed through the result of the piece. */
  method PieceDisturbed(f: Iteration -> int) returns (sum: int, visited: seq<Iteration>)
    ensures multiset(visited) == multiset{(0, 0), (0, 1), (1, 1)}
  {
    OneStray(0, 0, 2);
    OneStrayAbovePiece();
    PlusFolds();
    var c := new LoopTask(0, 0, 2);
    var executed;
    sum, visited, executed := RunCurrent(c, f, Plus, 0, [Split(Half, [Pop(SPLIT_LOOP)])]);
    TwoVisited(visited, 0, 2, (1, 1));
  }

  lemma NoStray(e: PopEvent)
    requires e == SPLIT_LOOP.(hasFuture := false)
    ensures Pops(0, 0, 1, [Pop(e)]) == [e] && !LosesPiece(e) && SplitWhenPopped(e.hi - e.lo, e.deque, e.requests)
  {
    TwoIterationsSplit();
    assert [Pop(e)][1..] == [];
  }

  /** Without a future, the part that the popped loop loses is nowhere reduced. */
  method NoFutureNoStray(f: Iteration -> int) returns (sum: int, visited: seq<Iteration>)
    ensures visited == [(0, 0)]
  {
    var e := SPLIT_LOOP.(hasFuture := false);
    NoStray(e);
    PlusFolds();
    var c := new LoopTask(0, 0, 1);
    var executed;
    sum, visited, executed := RunCurrent(c, f, Plus, 0, [Pop(e)]);
    assert Range(0, 0, 1) == [(0, 0)];
  }
}

/** Lazy futures of include/future_internal.h and RT_force_future, as the steps of the workers
    that deal with one future. The future lives in the frame of the task that created it, which
    worker `owner` runs. Its union holds either a channel or the result; a steal turns the
    former into use. While the owner runs the child itself, the creating frame stands still. */
module Futures {
  import opened Common
  import opened Paths

  /** Where the task is whose result the future will hold */
  datatype Place = InDeque(worker: nat) | InFlight(thief: nat) | RunningAt(worker: nat) | Finished

  /** The union in the future: a null pointer, a channel, or the bytes of the result */
  datatype Cell<V> = NoChannel | Open | Freed | Bytes(value: V)

  /** Where the creating frame is in RT_force_future: READY reads the flag, then receives from
      the channel or tests `set`. */
  datatype Await<V> = NotYet | Waiting | SawChannel | SawNoValue | Ready | Returned(value: V)

  datatype State<V> = State(
    owner: nat,
    result: V,                  // what the child's function returns
    place: Place,
    cell: Cell<V>, hasChannel: bool,
    isSet: bool, content: Option<V>,         // the one slot of the unbuffered channel
    data: Option<V>,            // where channel_receive has put the value
    await: Await<V>,
    conversions: nat,           // channels allocated
    frees: nat,                 // channels freed
    receipts: nat)              // values taken out of the channel

  datatype Step = Send(thief: nat) | Accept | Start | Finish | Force | ReadFlag | TryReceive | TestSet | Return

  /** The owner executes its own steps one after the other: it is not inside READY. */
  predicate OwnerFree<V>(s: State<V>)
  {
    s.await.NotYet? || s.await.Waiting? || s.await.Returned?
  }

  predicate MayAct<V>(s: State<V>, worker: nat)
  {
    worker == s.owner ==> OwnerFree(s)
  }

  /** The creating frame runs only while the child does not run above it. */
  predicate FrameOnTop<V>(s: State<V>)
  {
    s.place != RunningAt(s.owner)
  }

  predicate Enabled<V>(s: State<V>, step: Step)
  {
    match step
    case Send(thief) => s.place.InDeque? && MayAct(s, s.place.worker)
    case Accept => s.place.InFlight? && MayAct(s, s.place.thief)
    case Start => s.place.InDeque? && MayAct(s, s.place.worker)
    case Finish => s.place.RunningAt?
    case Force => s.await.NotYet? && FrameOnTop(s)
    case ReadFlag => s.await.Waiting? && FrameOnTop(s)
    case TryReceive => s.await.SawChannel?
    case TestSet => s.await.SawNoValue?
    case Return => s.await.Ready?
  }

  /** FUTURE_CONVERT, by the worker that sends the task away */
  function Convert<V>(s: State<V>): State<V>
  {
    if s.hasChannel then s else s.(cell := Open, hasChannel := true, conversions := s.conversions + 1)
  }

  /** FUTURE_SET, by the worker that has run the task; a send to a full channel would be lost. */
  function SetResult<V>(s: State<V>): State<V>
  {
    if !s.hasChannel then s.(cell := Bytes(s.result), isSet := true)
    else if s.content.None? then s.(content := Some(s.result))
    else s
  }

  function Apply<V>(s: State<V>, step: Step): State<V>
    requires Enabled(s, step)
  {
    match step
    case Send(thief) => Convert(s).(place := InFlight(thief))
    case Accept => s.(place := InDeque(s.place.thief))
    case Start => s.(place := RunningAt(s.place.worker))
    case Finish => SetResult(s).(place := Finished)
    case Force => s.(await := Waiting)
    case ReadFlag => s.(await := if s.hasChannel then SawChannel else SawNoValue)
    case TryReceive =>
      if s.content.Some? then s.(data := s.content, content := None, await := Ready, receipts := s.receipts + 1)
      else s.(await := SawNoValue)
    case TestSet => s.(await := if s.isSet then Ready else Waiting)
    case Return =>
      if !s.hasChannel then s.(await := if s.cell.Bytes? then Returned(s.cell.value) else s.await)
      else s.(cell := Freed, frees := s.frees + 1, await := if s.data.Some? then Returned(s.data.value) else s.await)
  }

  /** A future just created: the task is pushed on the owner's deque. */
  predicate Created<V>(s: State<V>)
  {
    && s.place == InDeque(s.owner) && s.cell == NoChannel && !s.hasChannel && s.conversions == 0
    && !s.isSet && s.content.None? && s.data.None? && s.await.NotYet? && s.frees == 0 && s.receipts == 0
  }

  /** A future for the upper part of a split loop: it has its channel from the start, and the
      task is on its way to the thief. */
  predicate CreatedBySplit<V>(s: State<V>)
  {
    && s.place.InFlight? && s.cell == Open && s.hasChannel && s.conversions == 1
    && !s.isSet && s.content.None? && s.data.None? && s.await.NotYet? && s.frees == 0 && s.receipts == 0
  }

  predicate IsRun<V(==)>(run: seq<State<V>>, steps: seq<Step>)
  {
    && |run| == |steps| + 1 && (Created(run[0]) || CreatedBySplit(run[0]))
    && forall i :: 0 <= i < |steps| ==> Enabled(run[i], steps[i]) && run[i + 1] == Apply(run[i], steps[i])
  }

  ghost predicate Inv<V>(s: State<V>)
  {
    // Without a channel the task has never left the owner, and the result goes to the union.
    && (!s.hasChannel ==>
          && s.conversions == 0 && s.frees == 0 && s.content.None? && s.data.None? && s.receipts == 0
          && (s.place == InDeque(s.owner) || s.place == RunningAt(s.owner) || s.place == Finished)
          && (s.isSet <==> s.place == Finished)
          && s.cell == (if s.isSet then Bytes(s.result) else NoChannel)
          && !s.await.SawChannel? && (s.await.Ready? ==> s.isSet))
    // With a channel the union stays a channel, through which the result passes once.
    && (s.hasChannel ==>
          && s.conversions == 1 && !s.isSet && s.frees == (if s.await.Returned? then 1 else 0)
          && s.cell == (if s.await.Returned? then Freed else Open)
          && (s.content.Some? <==> s.place == Finished && s.receipts == 0)
          && (s.data.Some? <==> s.receipts == 1) && s.receipts <= 1
          && (s.receipts == 1 <==> s.await.Ready? || s.await.Returned?))
    && (s.content.Some? ==> s.content.value == s.result)
    && (s.data.Some? ==> s.data.value == s.result)
    && (s.receipts == 1 ==> s.place == Finished)
    && (s.await.Returned? ==> s.await.value == s.result && s.place == Finished)
    && (!s.await.NotYet? && !s.await.Waiting? && !s.await.Returned? ==> FrameOnTop(s))
  }

  lemma StepKeeps<V>(s: State<V>, step: Step)
    requires Inv(s) && Enabled(s, step)
    ensures Inv(Apply(s, step))
  {
  }

  lemma {:induction false} RunKeeps<V>(run: seq<State<V>>, steps: seq<Step>, i: nat)
    requires IsRun(run, steps) && i < |run|
    ensures Inv(run[i])
  {
    if i > 0 {
      RunKeeps(run, steps, i - 1);
      StepKeeps(run[i - 1], steps[i - 1]);
    }
  }

  /** The future is converted at most once, and only before the child has finished; a value is
      sent only to an empty channel; the union is read as what was last written to it; and the
      two assertions of RT_force_future hold. */
  lemma UnionIsReadAsWritten<V>(run: seq<State<V>>, steps: seq<Step>, i: nat)
    requires IsRun(run, steps) && i < |steps|
    ensures run[i].conversions <= 1
    ensures run[i + 1].conversions > run[i].conversions ==> run[i].place != Finished && !run[i].isSet
    ensures steps[i] == Finish && !run[i].hasChannel ==> run[i].cell == NoChannel
    ensures steps[i] == Finish && run[i].hasChannel ==> run[i].cell == Open && run[i].content.None?
    ensures steps[i] == TryReceive ==> run[i].hasChannel && run[i].cell == Open
    ensures steps[i] == Return && !run[i].hasChannel ==> run[i].isSet && run[i].cell.Bytes?
    ensures steps[i] == Return && run[i].hasChannel ==> run[i].cell == Open && run[i].data.Some?
  {
    RunKeeps(run, steps, i);
  }

  /** What the awaiting task gets is what the child has returned; it gets it after the child has
      finished, takes it out of the channel at most once and frees the channel exactly once. */
  lemma AwaitGetsResult<V>(run: seq<State<V>>, steps: seq<Step>, i: nat)
    requires IsRun(run, steps) && i < |run|
    ensures run[i].await.Returned? ==>
              && run[i].await.value == run[i].result && run[i].place == Finished
              && run[i].frees == run[i].conversions == run[i].receipts && run[i].content.None?
    ensures run[i].frees <= run[i].conversions && run[i].receipts <= 1
  {
    RunKeeps(run, steps, i);
  }

  function ApplyAll<V>(s: State<V>, steps: seq<Step>): State<V>
    requires AllEnabled(s, steps)
    decreases |steps|
  {
    if steps == [] then s else ApplyAll(Apply(s, steps[0]), steps[1..])
  }

  predicate AllEnabled<V>(s: State<V>, steps: seq<Step>)
    decreases |steps|
  {
    steps == [] || (Enabled(s, steps[0]) && AllEnabled(Apply(s, steps[0]), steps[1..]))
  }

  /** Once the child has finished, the awaiting task is one look at the future away from the
      result: no result is lost, whichever way the task went. */
  lemma FinishedIsReady<V>(run: seq<State<V>>, steps: seq<Step>, i: nat)
    requires IsRun(run, steps) && i < |run|
    requires run[i].place == Finished && run[i].await.Waiting?
    ensures var look := if run[i].hasChannel then [ReadFlag, TryReceive, Return] else [ReadFlag, TestSet, Return];
            AllEnabled(run[i], look) && ApplyAll(run[i], look).await == Returned(run[i].result)
  {
    RunKeeps(run, steps, i);
    var s := run[i];
    var second := if s.hasChannel then TryReceive else TestSet;
    var s1 := Apply(s, ReadFlag);
    var s2 := Apply(s1, second);
    assert [ReadFlag, second, Return][1..] == [second, Return] && [second, Return][1..] == [Return]
           && [Return][1..] == [];
    assert ApplyAll(s2, [Return]) == Apply(s2, Return);
    assert ApplyAll(s1, [second, Return]) == ApplyAll(s2, [Return]);
  }

  // What can always happen

  /** A task in a deque can be sent to a thief, which gives its future a channel, once. */
  lemma CanBeStolen<V>(s: State<V>, thief: nat)
    requires Inv(s) && s.place.InDeque? && (s.place.worker == s.owner ==> OwnerFree(s))
    ensures Enabled(s, Send(thief))
    ensures var s1 := Apply(s, Send(thief));
            s1.place == InFlight(thief) && s1.hasChannel && s1.cell == Open && s1.conversions == 1 && !s1.isSet
  {
  }

  ghost predicate StepTo<V>(s: State<V>, step: Step, s1: State<V>)
  {
    Enabled(s, step) && s1 == Apply(s, step)
  }

  /** A way on: a look at the future is ended, the child is brought to its end, and then the creating
      task looks. */
  function NextStep<V>(s: State<V>): Step
    requires !s.await.Returned?
  {
    match s.await
    case SawChannel => TryReceive
    case SawNoValue => TestSet
    case Ready => Return
    case _ =>
      match s.place
      case InDeque(_) => Start
      case InFlight(_) => Accept
      case RunningAt(_) => Finish
      case Finished => if s.await.NotYet? then Force else ReadFlag
  }

  function ChildLeft(place: Place): nat
  {
    match place
    case InFlight(_) => 3
    case InDeque(_) => 2
    case RunningAt(_) => 1
    case Finished => 0
  }

  function AwaitLeft<V>(s: State<V>): nat
  {
    match s.await
    case NotYet => if s.place == Finished then 5 else 0
    case Waiting => if s.place == Finished then 4 else 0
    case SawChannel => 3
    case SawNoValue => if s.place == Finished && s.hasChannel then 5 else 2
    case Ready => 1
    case Returned(_) => 0
  }

  lemma WayOn<V>(s: State<V>)
    requires Inv(s) && !s.await.Returned?
    ensures Enabled(s, NextStep(s))
    ensures var s1 := Apply(s, NextStep(s));
            && Inv(s1) && s1.result == s.result
            && (ChildLeft(s1.place) < ChildLeft(s.place)
                || (s1.place == s.place && AwaitLeft(s1) < AwaitLeft(s)))
  {
    StepKeeps(s, NextStep(s));
  }

  /** Whatever has happened to the task so far, the creating task can still get its result. */
  lemma {:induction false} CanAlwaysReturn<V(!new)>(s: State<V>) returns (steps: seq<Step>, s1: State<V>)
    requires Inv(s)
    ensures Leads(StepTo, s, steps, s1) && s1.await == Returned(s.result)
    decreases ChildLeft(s.place), AwaitLeft(s)
  {
    if s.await.Returned? {
      steps, s1 := [], s;
    } else {
      WayOn(s);
      var step := NextStep(s);
      var mid := Apply(s, step);
      var rest;
      rest, s1 := CanAlwaysReturn(mid);
      assert StepTo(s, step, mid);
      FirstStep(StepTo, s, step, mid, rest, s1);
      steps := [step] + rest;
    }
  }
}

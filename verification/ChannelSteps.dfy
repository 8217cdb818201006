/** Concurrent senders and receivers of one channel. Acquiring a lock, checking for room,
    copying an item and publishing an index are separate steps, and the steps of a sender and
    of a receiver interleave freely. A single producer or consumer is one that never has to
    compete for the lock; an unbuffered channel is one with a single slot. */
module ChannelSteps {
  import opened Channel
  import opened Paths

  /** The sender that holds the tail lock and how far it has come; likewise for receivers. */
  datatype Sender<T> = NoSender | SendLocked(x: T) | SendChecked(x: T) | SendCopied(x: T)
  datatype Receiver<T> = NoReceiver | RecvLocked | RecvChecked | RecvCopied(x: T)

  /** `sent` and `received` record the items in the order in which sends were published and
      receives completed. */
  datatype State<T> = State(
    buffer: seq<T>, head: nat, tail: nat,
    sender: Sender<T>, receiver: Receiver<T>,
    sent: seq<T>, received: seq<T>)

  datatype Step<T> =
    | StartSend(x: T) | CheckFull | CopyIn | PublishTail
    | StartReceive | CheckEmpty | CopyOut | PublishHead

  predicate IndicesIn<T>(s: State<T>)
  {
    IndicesOk(|s.buffer|, s.head, s.tail)
  }

  predicate Enabled<T>(s: State<T>, step: Step<T>)
  {
    IndicesIn(s) &&
    match step
    case StartSend(x) => s.sender.NoSender?
    case CheckFull => s.sender.SendLocked?
    case CopyIn => s.sender.SendChecked?
    case PublishTail => s.sender.SendCopied?
    case StartReceive => s.receiver.NoReceiver?
    case CheckEmpty => s.receiver.RecvLocked?
    case CopyOut => s.receiver.RecvChecked?
    case PublishHead => s.receiver.RecvCopied?
  }

  function Apply<T>(s: State<T>, step: Step<T>): State<T>
    requires Enabled(s, step)
  {
    var size := |s.buffer|;
    match step
    case StartSend(x) => s.(sender := SendLocked(x))
    case CheckFull => s.(sender := if IsFull(size, s.head, s.tail) then NoSender else SendChecked(s.sender.x))
    case CopyIn => s.(buffer := s.buffer[s.tail := s.sender.x], sender := SendCopied(s.sender.x))
    case PublishTail =>
      var published := Published(size, s.head, s.tail);
      s.(head := published.0, tail := published.1, sender := NoSender, sent := s.sent + [s.sender.x])
    case StartReceive => s.(receiver := RecvLocked)
    case CheckEmpty => s.(receiver := if IsEmpty(size, s.head, s.tail) then NoReceiver else RecvChecked)
    case CopyOut => s.(receiver := RecvCopied(s.buffer[ReadSlot(size, s.head)]))
    case PublishHead =>
      s.(head := Consumed(size, s.head, s.tail).0, receiver := NoReceiver, received := s.received + [s.receiver.x])
  }

  ghost predicate Inv<T>(s: State<T>)
  {
    && IndicesIn(s)
    && s.sent == s.received + Pending(s.buffer, s.head, s.tail)
    && (s.sender.SendChecked? || s.sender.SendCopied? ==> !IsFull(|s.buffer|, s.head, s.tail))
    && (s.sender.SendCopied? ==> s.buffer[s.tail] == s.sender.x)
    && (s.receiver.RecvChecked? || s.receiver.RecvCopied? ==> !IsEmpty(|s.buffer|, s.head, s.tail))
    && (s.receiver.RecvCopied? ==> s.receiver.x == s.buffer[ReadSlot(|s.buffer|, s.head)])
  }

  lemma SenderKeeps<T>(s: State<T>, step: Step<T>)
    requires Inv(s) && Enabled(s, step) && (step.StartSend? || step.CheckFull? || step.CopyIn? || step.PublishTail?)
    ensures Inv(Apply(s, step))
  {
    var s1 := Apply(s, step);
    FullAndEmpty(s.buffer, s.head, s.tail);
    if step.CopyIn? {
      WriteAtTail(s.buffer, s.head, s.tail, s.sender.x);
    } else if step.PublishTail? {
      PublishAppends(s.buffer, s.head, s.tail);
      FullAndEmpty(s1.buffer, s1.head, s1.tail);
    }
  }

  lemma HeadKeeps<T>(s: State<T>)
    requires Inv(s) && s.receiver.RecvCopied?
    ensures Inv(Apply(s, PublishHead))
  {
    ConsumeRemoves(s.buffer, s.head, s.tail);
  }

  lemma ReceiverKeeps<T>(s: State<T>, step: Step<T>)
    requires Inv(s) && Enabled(s, step) && !(step.StartSend? || step.CheckFull? || step.CopyIn? || step.PublishTail?)
    ensures Inv(Apply(s, step))
  {
    FullAndEmpty(s.buffer, s.head, s.tail);
    match step
    case StartReceive => assert Apply(s, step) == s.(receiver := RecvLocked);
    case CheckEmpty =>
      assert Apply(s, step)
          == s.(receiver := if IsEmpty(|s.buffer|, s.head, s.tail) then NoReceiver else RecvChecked);
    case CopyOut =>
    case PublishHead => HeadKeeps(s);
  }

  lemma StepKeeps<T>(s: State<T>, step: Step<T>)
    requires Inv(s) && Enabled(s, step)
    ensures Inv(Apply(s, step))
  {
    if step.StartSend? || step.CheckFull? || step.CopyIn? || step.PublishTail? {
      SenderKeeps(s, step);
    } else {
      ReceiverKeeps(s, step);
    }
  }

  /** The refinement: seen through `Pending`, publishing the tail appends the sender's item to a
      bounded queue that has room, publishing the head removes the item that the receiver
      copied, and no other step changes anything. So no unread slot is ever overwritten. */
  lemma StepRefinesQueue<T>(s: State<T>, step: Step<T>)
    requires Inv(s) && Enabled(s, step)
    ensures var s1 := Apply(s, step);
            var q := Pending(s.buffer, s.head, s.tail);
            IndicesIn(s1) &&
            var q1 := Pending(s1.buffer, s1.head, s1.tail);
            var capacity := if |s.buffer| == 1 then 1 else |s.buffer| - 1;
            match step
            case PublishTail => |q| < capacity && q1 == q + [s.sender.x]
            case PublishHead => q == [s.receiver.x] + q1
            case _ => q1 == q
  {
    StepKeeps(s, step);
    FullAndEmpty(s.buffer, s.head, s.tail);
    match step
    case CopyIn => WriteAtTail(s.buffer, s.head, s.tail, s.sender.x);
    case PublishTail => PublishAppends(s.buffer, s.head, s.tail);
    case PublishHead => ConsumeRemoves(s.buffer, s.head, s.tail);
    case _ =>
  }

  function Capacity<T>(s: State<T>): nat
    requires |s.buffer| > 0
  {
    if |s.buffer| == 1 then 1 else |s.buffer| - 1
  }

  /** The checks let a send pass exactly if there is room, and a receive exactly if there is an item;
      otherwise the operation ends there and gives its lock back. */
  lemma ChecksDecide<T>(s: State<T>)
    requires Inv(s)
    ensures s.sender.SendLocked? ==>
              && Enabled(s, CheckFull)
              && (Apply(s, CheckFull).sender == SendChecked(s.sender.x)
                  <==> |Pending(s.buffer, s.head, s.tail)| < Capacity(s))
              && (Apply(s, CheckFull).sender.NoSender? <==> |Pending(s.buffer, s.head, s.tail)| == Capacity(s))
    ensures s.receiver.RecvLocked? ==>
              && Enabled(s, CheckEmpty)
              && (Apply(s, CheckEmpty).receiver.RecvChecked? <==> Pending(s.buffer, s.head, s.tail) != [])
              && (Apply(s, CheckEmpty).receiver.NoReceiver? <==> Pending(s.buffer, s.head, s.tail) == [])
  {
    FullAndEmpty(s.buffer, s.head, s.tail);
  }

  predicate StepTo<T(==)>(s: State<T>, step: Step<T>, s1: State<T>)
  {
    Enabled(s, step) && s1 == Apply(s, step)
  }

  lemma LeadsInFour<T(!new)>(s: State<T>, a: Step<T>, s1: State<T>, b: Step<T>, s2: State<T>, c: Step<T>, s3: State<T>,
                             d: Step<T>, s4: State<T>)
    requires StepTo(s, a, s1) && StepTo(s1, b, s2) && StepTo(s2, c, s3) && StepTo(s3, d, s4)
    ensures Leads(StepTo, s, [a, b, c, d], s4)
  {
    OneStep(StepTo, s, a, s1);
    ThenStep(StepTo, s, [a], s1, b, s2);
    ThenStep(StepTo, s, [a] + [b], s2, c, s3);
    ThenStep(StepTo, s, [a] + [b] + [c], s3, d, s4);
    assert [a] + [b] + [c] + [d] == [a, b, c, d];
  }

  /** A send into a channel with room, with no receive in between: all its steps are possible, and
      leave the item behind what was pending. */
  lemma SendSucceeds<T(!new)>(s: State<T>, x: T) returns (s4: State<T>)
    requires Inv(s) && s.sender.NoSender? && |Pending(s.buffer, s.head, s.tail)| < Capacity(s)
    ensures Leads(StepTo, s, [StartSend(x), CheckFull, CopyIn, PublishTail], s4)
    ensures Inv(s4) && s4.sender.NoSender? && s4.receiver == s.receiver
    ensures Pending(s4.buffer, s4.head, s4.tail) == Pending(s.buffer, s.head, s.tail) + [x]
    ensures s4.sent == s.sent + [x] && s4.received == s.received
  {
    var s1 := Apply(s, StartSend(x));
    StepKeeps(s, StartSend(x));
    ChecksDecide(s1);
    var s2 := Apply(s1, CheckFull);
    StepKeeps(s1, CheckFull);
    StepRefinesQueue(s2, CopyIn);
    var s3 := Apply(s2, CopyIn);
    StepKeeps(s2, CopyIn);
    StepRefinesQueue(s3, PublishTail);
    StepKeeps(s3, PublishTail);
    s4 := Apply(s3, PublishTail);
    LeadsInFour(s, StartSend(x), s1, CheckFull, s2, CopyIn, s3, PublishTail, s4);
  }

  /** A receive from a channel that is not empty, with no send in between */
  lemma ReceiveSucceeds<T(!new)>(s: State<T>) returns (s4: State<T>)
    requires Inv(s) && s.receiver.NoReceiver? && Pending(s.buffer, s.head, s.tail) != []
    ensures Leads(StepTo, s, [StartReceive, CheckEmpty, CopyOut, PublishHead], s4)
    ensures Inv(s4) && s4.receiver.NoReceiver? && s4.sender == s.sender && s4.sent == s.sent
    ensures exists x :: Pending(s.buffer, s.head, s.tail) == [x] + Pending(s4.buffer, s4.head, s4.tail)
                        && s4.received == s.received + [x]
  {
    var s1 := Apply(s, StartReceive);
    StepKeeps(s, StartReceive);
    ChecksDecide(s1);
    var s2 := Apply(s1, CheckEmpty);
    StepKeeps(s1, CheckEmpty);
    var s3 := Apply(s2, CopyOut);
    StepKeeps(s2, CopyOut);
    StepRefinesQueue(s3, PublishHead);
    StepKeeps(s3, PublishHead);
    s4 := Apply(s3, PublishHead);
    LeadsInFour(s, StartReceive, s1, CheckEmpty, s2, CopyOut, s3, PublishHead, s4);
  }

  ghost predicate IsRun<T>(states: seq<State<T>>, steps: seq<Step<T>>)
  {
    && |states| == |steps| + 1
    && |states[0].buffer| > 0 && states[0].head == 0 && states[0].tail == 0
    && states[0].sender.NoSender? && states[0].receiver.NoReceiver? && states[0].sent == [] && states[0].received == []
    && forall i :: 0 <= i < |steps| ==> Enabled(states[i], steps[i]) && states[i + 1] == Apply(states[i], steps[i])
  }

  lemma {:induction false} RunKeeps<T>(states: seq<State<T>>, steps: seq<Step<T>>, i: nat)
    requires IsRun(states, steps) && i < |states|
    ensures Inv(states[i]) && |states[i].buffer| == |states[0].buffer|
  {
    if i > 0 {
      RunKeeps(states, steps, i - 1);
      StepKeeps(states[i - 1], steps[i - 1]);
    }
  }

  /** In every state of every run the received items are a prefix of the sent ones, and what is
      under way fits the capacity. */
  lemma BoundedFifo<T>(states: seq<State<T>>, steps: seq<Step<T>>, i: nat)
    requires IsRun(states, steps) && i < |states|
    ensures states[i].received <= states[i].sent
    ensures |states[i].sent| - |states[i].received| <= if |states[0].buffer| == 1 then 1 else |states[0].buffer| - 1
  {
    RunKeeps(states, steps, i);
    FullAndEmpty(states[i].buffer, states[i].head, states[i].tail);
  }

  // Draining a channel that its producer closes

  /** Where channel_range stands: testing `closed`, testing for pending items after it has seen
      `closed`, receiving, or at the end. */
  datatype Reader = Testing | SawClosed | Receiving | Finished

  /** A producer with items still to send, which closes the channel after the last one. */
  datatype Drain<T> = Drain(chan: State<T>, todo: seq<T>, closed: bool, reader: Reader)

  datatype DrainStep<T> = Producing(step: Step<T>) | Close | TestClosed | TestPending | Consuming(step: Step<T>)

  ghost predicate DrainEnabled<T>(d: Drain<T>, step: DrainStep<T>)
  {
    IndicesIn(d.chan) &&
    match step
    case Producing(s) =>
      !d.closed && d.todo != [] && Enabled(d.chan, s)
      && (s == StartSend(d.todo[0]) || s.CheckFull? || s.CopyIn? || s.PublishTail?)
    case Close => !d.closed && d.todo == []
    case TestClosed => d.reader.Testing?
    case TestPending => d.reader.SawClosed?
    case Consuming(s) =>
      d.reader.Receiving? && Enabled(d.chan, s)
      && (s.StartReceive? || s.CheckEmpty? || s.CopyOut? || s.PublishHead?)
  }

  ghost function DrainApply<T>(d: Drain<T>, step: DrainStep<T>): Drain<T>
    requires DrainEnabled(d, step)
  {
    match step
    case Producing(s) =>
      d.(chan := Apply(d.chan, s), todo := if s.PublishTail? then d.todo[1..] else d.todo)
    case Close => d.(closed := true)
    case TestClosed => d.(reader := if d.closed then SawClosed else Receiving)
    case TestPending =>
      // channel_peek
      d.(reader := if IsEmpty(|d.chan.buffer|, d.chan.head, d.chan.tail) then Finished else Receiving)
    case Consuming(s) =>
      var c := Apply(d.chan, s);
      d.(chan := c, reader := if c.receiver.NoReceiver? then Testing else Receiving)
  }

  ghost predicate DrainInv<T>(d: Drain<T>, items: seq<T>)
  {
    && Inv(d.chan)
    && d.chan.sent + d.todo == items
    && (!d.chan.sender.NoSender? ==> d.todo != [] && d.chan.sender.x == d.todo[0])
    && (d.closed ==> d.todo == [])
    && (d.reader.SawClosed? || d.reader.Finished? ==> d.closed)
    && (d.reader.Finished? ==> d.chan.received == items)
    && (!d.reader.Receiving? ==> d.chan.receiver.NoReceiver?)
  }

  lemma DrainKeeps<T>(d: Drain<T>, step: DrainStep<T>, items: seq<T>)
    requires DrainInv(d, items) && DrainEnabled(d, step)
    ensures DrainInv(DrainApply(d, step), items)
  {
    FullAndEmpty(d.chan.buffer, d.chan.head, d.chan.tail);
    match step
    case Producing(s) =>
      StepKeeps(d.chan, s);
      if s.PublishTail? {
        assert d.todo == [d.todo[0]] + d.todo[1..];
      }
    case Consuming(s) =>
      StepKeeps(d.chan, s);
    case _ =>
  }

  ghost predicate IsDrainRun<T>(items: seq<T>, states: seq<Drain<T>>, steps: seq<DrainStep<T>>)
  {
    && |states| == |steps| + 1
    && |states[0].chan.buffer| > 0 && states[0].chan.head == 0 && states[0].chan.tail == 0
    && states[0].chan.sender.NoSender? && states[0].chan.receiver.NoReceiver?
    && states[0].chan.sent == [] && states[0].chan.received == []
    && states[0].todo == items && !states[0].closed && states[0].reader.Testing?
    && forall i :: 0 <= i < |steps| ==>
         DrainEnabled(states[i], steps[i]) && states[i + 1] == DrainApply(states[i], steps[i])
  }

  lemma {:induction false} DrainRunKeeps<T>(items: seq<T>, states: seq<Drain<T>>, steps: seq<DrainStep<T>>, i: nat)
    requires IsDrainRun(items, states, steps) && i < |states|
    ensures DrainInv(states[i], items)
  {
    if i > 0 {
      DrainRunKeeps(items, states, steps, i - 1);
      DrainKeeps(states[i - 1], steps[i - 1], items);
    }
  }

  /** When channel_range ends, it has delivered exactly the sent sequence in order; before that
      it has delivered a prefix. */
  lemma DrainDeliversAll<T>(items: seq<T>, states: seq<Drain<T>>, steps: seq<DrainStep<T>>, i: nat)
    requires IsDrainRun(items, states, steps) && i < |states|
    ensures states[i].chan.received <= items
    ensures states[i].reader.Finished? ==> states[i].chan.received == items
  {
    DrainRunKeeps(items, states, steps, i);
  }

  /** After it has seen the channel closed, the reader ends exactly if nothing is pending. */
  lemma ReaderEndsWhenDrained<T>(d: Drain<T>, items: seq<T>)
    requires DrainInv(d, items) && d.reader.SawClosed?
    ensures DrainEnabled(d, TestPending)
    ensures DrainApply(d, TestPending).reader.Finished?
            <==> Pending(d.chan.buffer, d.chan.head, d.chan.tail) == []
    ensures DrainApply(d, TestPending).reader.Receiving?
            <==> Pending(d.chan.buffer, d.chan.head, d.chan.tail) != []
  {
    FullAndEmpty(d.chan.buffer, d.chan.head, d.chan.tail);
  }

  ghost predicate DrainStepTo<T>(d: Drain<T>, step: DrainStep<T>, d1: Drain<T>)
  {
    DrainEnabled(d, step) && d1 == DrainApply(d, step)
  }

  /** A step of the reader, or of the receive that it is in */
  predicate ByReader<T>(step: DrainStep<T>)
  {
    step.TestClosed? || step.TestPending? || step.Consuming?
  }

  /** The step that the reader takes next */
  function NextByReader<T>(d: Drain<T>): DrainStep<T>
    requires !d.reader.Finished?
  {
    match d.reader
    case Testing => TestClosed
    case SawClosed => TestPending
    case _ =>
      match d.chan.receiver
      case NoReceiver => Consuming(StartReceive)
      case RecvLocked => Consuming(CheckEmpty)
      case RecvChecked => Consuming(CopyOut)
      case RecvCopied(_) => Consuming(PublishHead)
  }

  /** How many own steps the reader is from its end once the channel is closed: six for each item
      that is pending, and what is left of the round in which it is */
  function StepsLeft<T>(d: Drain<T>): int
    requires IndicesIn(d.chan)
  {
    var n := |Pending(d.chan.buffer, d.chan.head, d.chan.tail)|;
    match d.reader
    case Finished => 0
    case SawClosed => 6 * n + 1
    case Testing => 6 * n + 2
    case Receiving =>
      match d.chan.receiver
      case NoReceiver => if n == 0 then 4 else 6 * n
      case RecvLocked => if n == 0 then 3 else 6 * n - 1
      case RecvChecked => 6 * n - 2
      case RecvCopied(_) => 6 * n - 3
  }

  lemma ReaderStep<T>(d: Drain<T>, items: seq<T>)
    requires DrainInv(d, items) && d.closed && !d.reader.Finished?
    ensures DrainEnabled(d, NextByReader(d)) && ByReader(NextByReader(d))
    ensures var d1 := DrainApply(d, NextByReader(d));
            DrainInv(d1, items) && d1.closed && 0 <= StepsLeft(d1) == StepsLeft(d) - 1
  {
    var step := NextByReader(d);
    DrainKeeps(d, step, items);
    ChecksDecide(d.chan);
    FullAndEmpty(d.chan.buffer, d.chan.head, d.chan.tail);
    if step.Consuming? {
      StepRefinesQueue(d.chan, step.step);
    }
  }

  /** Once the channel is closed, the reader's own steps lead to its end, in a number that what is
      pending bounds; by then everything has been delivered. */
  lemma {:induction false} ReaderFinishes<T(!new)>(d: Drain<T>, items: seq<T>)
    returns (steps: seq<DrainStep<T>>, d1: Drain<T>)
    requires DrainInv(d, items) && d.closed
    ensures Leads(DrainStepTo, d, steps, d1) && forall i :: 0 <= i < |steps| ==> ByReader(steps[i])
    ensures d1.reader.Finished? && d1.chan.received == items
    ensures |steps| <= 6 * |Pending(d.chan.buffer, d.chan.head, d.chan.tail)| + 4
    ensures |steps| == StepsLeft(d)
    decreases StepsLeft(d)
  {
    if d.reader.Finished? {
      steps, d1 := [], d;
    } else {
      var step := NextByReader(d);
      ReaderStep(d, items);
      var rest;
      var next := DrainApply(d, step);
      rest, d1 := ReaderFinishes(next, items);
      FirstStep(DrainStepTo, d, step, next, rest, d1);
      steps := [step] + rest;
    }
  }

  predicate FullChannel<T>(s: State<T>)
    requires IndicesIn(s)
  {
    |Pending(s.buffer, s.head, s.tail)| == Capacity(s)
  }

  /** A way on before the channel is closed: the producer goes on, and where the channel is full,
      the reader */
  function NextBeforeClose<T>(d: Drain<T>): DrainStep<T>
    requires IndicesIn(d.chan) && !d.closed && !d.reader.Finished?
  {
    if d.todo == [] then Close
    else if FullChannel(d.chan) then NextByReader(d)
    else
      match d.chan.sender
      case NoSender => Producing(StartSend(d.todo[0]))
      case SendLocked(_) => Producing(CheckFull)
      case SendChecked(_) => Producing(CopyIn)
      case SendCopied(_) => Producing(PublishTail)
  }

  function SenderLeft<T>(sender: Sender<T>): nat
  {
    match sender
    case NoSender => 4
    case SendLocked(_) => 3
    case SendChecked(_) => 2
    case SendCopied(_) => 1
  }

  function ReaderLeft<T>(d: Drain<T>): nat
  {
    match d.chan.receiver
    case NoReceiver => if d.reader.Receiving? then 4 else 5
    case RecvLocked => 3
    case RecvChecked => 2
    case RecvCopied(_) => 1
  }

  /** What the way on shortens: items to send, steps of the send under way, and where the channel is
      full, steps to the end of the receive under way */
  lemma BeforeCloseStep<T>(d: Drain<T>, items: seq<T>)
    requires DrainInv(d, items) && !d.closed
    ensures DrainEnabled(d, NextBeforeClose(d))
    ensures var d1 := DrainApply(d, NextBeforeClose(d));
            && DrainInv(d1, items)
            && (d1.closed || |d1.todo| < |d.todo|
                || (|d1.todo| == |d.todo| && SenderLeft(d1.chan.sender) < SenderLeft(d.chan.sender)
                    && !FullChannel(d.chan) && !FullChannel(d1.chan))
                || (|d1.todo| == |d.todo| && d1.chan.sender == d.chan.sender && FullChannel(d.chan)
                    && (!FullChannel(d1.chan) || ReaderLeft(d1) < ReaderLeft(d))))
  {
    var step := NextBeforeClose(d);
    FullAndEmpty(d.chan.buffer, d.chan.head, d.chan.tail);
    ChecksDecide(d.chan);
    DrainKeeps(d, step, items);
    if step.Producing? || step.Consuming? {
      StepRefinesQueue(d.chan, step.step);
    }
  }

  /** Whatever has happened so far, the reader can still come to its end, and then it has got
      everything: producer and reader never block each other. */
  lemma {:induction false} DrainCanFinish<T(!new)>(d: Drain<T>, items: seq<T>)
    returns (steps: seq<DrainStep<T>>, d1: Drain<T>)
    requires DrainInv(d, items)
    ensures Leads(DrainStepTo, d, steps, d1) && d1.reader.Finished? && d1.chan.received == items
    decreases !d.closed, |d.todo|, SenderLeft(d.chan.sender), if FullChannel(d.chan) then ReaderLeft(d) else 0
  {
    if d.closed {
      steps, d1 := ReaderFinishes(d, items);
    } else {
      var step := NextBeforeClose(d);
      BeforeCloseStep(d, items);
      var rest;
      var next := DrainApply(d, step);
      rest, d1 := DrainCanFinish(next, items);
      FirstStep(DrainStepTo, d, step, next, rest, d1);
      steps := [step] + rest;
    }
  }
}

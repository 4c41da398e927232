/**
 Waiting on the task queue: interleavings of the producers' operations with the steps of one consumer
 inside Pull. Each step is what happens under one acquisition of the queue's mutex, or one select.
 */
module WakeUp {
  import opened Tasks
  import opened TaskQueues

  /** Where the consumer is in Pull's loop; the number names the channel it read from the queue. */
  datatype Consumer =
    | Outside
    | Popping
    | PoppedNothing
    | Selecting(channel: nat)
    | Woken

  /**
   Channels are numbered in the order of their creation. The queue refers to the last one; the
   earlier ones are closed, and a closed channel can always be received from.
   */
  datatype Queue = Queue(data: seq<Task>, channel: nat, tokens: nat, consumer: Consumer)

  datatype Event =
    | Push(t: Task)
    | PushIfNew(t: Task)
    | Remove(t: Task)
    | Load(newData: seq<Task>)
    | Absorb(others: seq<Task>)
    | EnterPull
    | TryPop
    | ReadChannel
    | Receive
    | Cancel

  predicate CanReceive(s: Queue) {
    s.consumer.Selecting? && (s.consumer.channel < s.channel || s.tokens > 0)
  }

  /** Asleep in the select until someone sends, closes the channel or cancels. */
  predicate Parked(s: Queue) {
    s.consumer.Selecting? && !CanReceive(s)
  }

  predicate Possible(s: Queue, ev: Event) {
    match ev
    case EnterPull => s.consumer.Outside?
    case TryPop => s.consumer.Popping? || s.consumer.Woken?
    case ReadChannel => s.consumer.PoppedNothing?
    case Receive => CanReceive(s)
    case Cancel => s.consumer.Selecting? || s.consumer.Popping?
    case _ => true
  }

  function Step(s: Queue, ev: Event): Queue
    requires Possible(s, ev)
  {
    match ev
    case Push(t) => s.(data := Pushed(s.data, t), tokens := Notified(s.tokens))
    case PushIfNew(t) => if Holds(s.data, t) then s else s.(data := s.data + [t], tokens := Notified(s.tokens))
    case Remove(t) => s.(data := Without(s.data, t))
    case Load(newData) => s.(data := newData, channel := s.channel + 1, tokens := 0)
    case Absorb(others) => s.(data := s.data + others, channel := s.channel + 1, tokens := 0)
    case EnterPull => s.(consumer := Popping)
    case TryPop =>
      if s.data != [] then s.(data := s.data[1..], consumer := Outside)
      else s.(consumer := if s.consumer.Woken? then Popping else PoppedNothing)
    case ReadChannel => s.(consumer := Selecting(s.channel))
    case Receive =>
      s.(consumer := Woken, tokens := if s.consumer.channel == s.channel then s.tokens - 1 else s.tokens)
    case Cancel => s.(consumer := Outside)
  }

  /**
   The steps do to the contents, and to the tokens in the channel, what the contracts of the queue's methods
   say; the consumer takes the first task.
   */
  lemma StepsAreQueueOperations(s: Queue, ev: Event)
    requires Possible(s, ev)
    ensures var s' := Step(s, ev);
      match ev
      case Push(t) => s'.data == Pushed(s.data, t) && s'.tokens == (if s.tokens < 4 then s.tokens + 1 else s.tokens)
      case PushIfNew(t) =>
        && s'.data == PushedIfNew(s.data, t)
        && s'.tokens == (if s'.data != s.data && s.tokens < 4 then s.tokens + 1 else s.tokens)
      case Remove(t) => s'.data == Without(s.data, t) && s'.tokens == s.tokens
      case Load(newData) => s'.data == newData && s'.tokens == 0 && s'.channel > s.channel
      case Absorb(others) => s'.data == s.data + others && s'.tokens == 0 && s'.channel > s.channel
      case TryPop => if s.data == [] then s'.data == [] else s.data == [s.data[0]] + s'.data && s'.consumer == Outside
      case Receive => s'.data == s.data && s'.tokens <= s.tokens
      case _ => s'.data == s.data && s'.tokens == s.tokens && s'.channel == s.channel
  {
  }

  /** A consumer that waits, or is about to, can be cancelled, and then takes nothing. */
  lemma CancelLeavesQueue(s: Queue)
    requires s.consumer.Selecting? || s.consumer == Popping
    ensures Possible(s, Cancel) && Step(s, Cancel) == s.(consumer := Outside)
  {
  }

  /** The channel is replaced, and tasks are left, while the consumer is between its failed pop and its read of it. */
  predicate ReplacesInGap(s: Queue, ev: Event) {
    && s.consumer.PoppedNothing?
    && match ev
       case Load(newData) => newData != []
       case Absorb(others) => s.data != [] || others != []
       case _ => false
  }

  /** A consumer that relies on the current channel finds a token in it whenever there is a task. */
  ghost predicate Inv(s: Queue) {
    && s.tokens <= WAIT_BUFFER
    && (s.consumer.Selecting? ==> s.consumer.channel <= s.channel)
    && (s.data != [] && (s.consumer.PoppedNothing? || s.consumer == Selecting(s.channel)) ==> s.tokens > 0)
  }

  lemma WithoutEmpty(t: Task)
    ensures Without([], t) == []
  {
  }

  /** A step keeps the invariant exactly when it does not replace the channel in the gap and leave tasks. */
  lemma StepKeepsInvIff(s: Queue, ev: Event)
    requires Inv(s) && Possible(s, ev)
    ensures Inv(Step(s, ev)) <==> !ReplacesInGap(s, ev)
  {
    if ev.Remove? {
      WithoutEmpty(ev.t);
    }
  }

  const START := Queue([], 0, 0, Outside)

  /** In every interleaving without such a replacement, nobody sleeps on a non-empty queue. */
  lemma {:induction false} NoLostWakeUp(states: seq<Queue>, events: seq<Event>, n: nat)
    requires |states| == |events| + 1 && n < |states| && states[0] == START
    requires forall i :: 0 <= i < |events| ==>
      Possible(states[i], events[i]) && !ReplacesInGap(states[i], events[i]) && states[i + 1] == Step(states[i], events[i])
    ensures Inv(states[n])
    ensures Parked(states[n]) ==> states[n].data == []
  {
    if n > 0 {
      NoLostWakeUp(states, events, n - 1);
      StepKeepsInvIff(states[n - 1], events[n - 1]);
    }
  }

  /** What the consumer does next when nobody else moves. */
  function Next(s: Queue): Event
    requires !s.consumer.Outside? && !Parked(s)
  {
    match s.consumer
    case PoppedNothing => ReadChannel
    case Selecting(_) => Receive
    case _ => TryPop
  }

  function Alone(s: Queue, steps: nat): Queue
    decreases steps
  {
    if steps == 0 || s.consumer.Outside? || Parked(s) then s else Alone(Step(s, Next(s)), steps - 1)
  }

  /** Left alone with a non-empty queue, a consumer inside Pull leaves with the first task within three steps. */
  lemma ConsumerIsServed(s: Queue)
    requires Inv(s) && !s.consumer.Outside? && s.data != []
    ensures Alone(s, 3).consumer == Outside && Alone(s, 3).data == s.data[1..]
  {
    if !s.consumer.Popping? && !s.consumer.Woken? {
      var s1 := Step(s, Next(s));
      assert Alone(s, 3) == Alone(s1, 2);
      if s.consumer.PoppedNothing? {
        var s2 := Step(s1, Next(s1));
        assert Alone(s1, 2) == Alone(s2, 1) && s2.consumer == Woken;
        assert Alone(s2, 1) == Alone(Step(s2, TryPop), 0);
      } else {
        assert Alone(s1, 2) == Alone(Step(s1, TryPop), 1);
      }
    } else {
      assert Alone(s, 3) == Alone(Step(s, TryPop), 2);
    }
  }

  predicate ByProducer(ev: Event) {
    ev.Push? || ev.PushIfNew? || ev.Remove? || ev.Load? || ev.Absorb?
  }

  /**
   Whatever a producer does while the consumer is in the gap, the consumer goes on to read the channel; it
   then sleeps although there are tasks exactly when the producer replaced the channel and left tasks.
   */
  lemma ReplacementInGapLosesWakeUpIff(s: Queue, ev: Event)
    requires Inv(s) && s.consumer.PoppedNothing? && ByProducer(ev)
    ensures var s' := Step(Step(s, ev), ReadChannel);
      Parked(s') && s'.data != [] <==> ReplacesInGap(s, ev)
  {
    StepKeepsInvIff(s, ev);
  }

  /** From an empty queue: the consumer finds nothing, deferred tasks are absorbed, and the consumer sleeps on them. */
  lemma LostWakeUpRun(t: Task)
    ensures var popped := Step(Step(START, EnterPull), TryPop);
      var s := Step(Step(popped, Absorb([t])), ReadChannel);
      Parked(s) && s.data == [t]
  {
  }
}

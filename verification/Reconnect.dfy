/**
 Asking the Landscape service to reconnect: a request closes the current channel, and the supervising
 loop, which waits on it, replaces it before it connects again.
 */
module Reconnects {

  class Channel {
    var closes: nat

    constructor ()
      ensures closes == 0
    {
      closes := 0;
    }
  }

  /** The request channel with the once that guards its closing; closing a channel twice would panic. */
  class RetryConnection {
    var ch: Channel
    var fired: bool

    ghost predicate Valid()
      reads this, ch
    {
      ch.closes == if fired then 1 else 0
    }

    constructor ()
      ensures Valid() && fresh(ch) && !fired
    {
      ch := new Channel();
      fired := false;
    }

    method Request()
      requires Valid()
      modifies `fired, ch
      ensures Valid() && ch.closes == 1
    {
      if !fired {
        ch.closes := ch.closes + 1;
        fired := true;
      }
    }

    method Await() returns (awaited: Channel)
      ensures awaited == ch
    {
      awaited := ch;
    }

    method Reset()
      requires Valid()
      modifies this, ch
      ensures Valid() && !fired && fresh(ch)
      ensures old(ch).closes == 1
    {
      Request();
      ch := new Channel();
      fired := false;
    }
  }

  /** Where the supervising loop is; the number names the channel it waits on. */
  datatype Loop =
    | Restless                       // about to wait before the next attempt
    | AwaitingAttempt(channel: nat)  // select: stop, request, or the cool-down (unless disabled)
    | AboutToReset
    | AboutToConnect
    | Connecting
    | Established                    // about to wait with a live connection
    | Holding(channel: nat)          // select: stop, request, or the connection drops
    | Gone

  /**
   Channels are numbered in the order of their creation. `fired` is the current channel's once,
   `closes` counts how often the current channel was closed, `past` how often each earlier one was.
   */
  datatype State = State(
    loop: Loop, stopped: bool, disabled: bool,
    fired: bool, closes: nat, past: seq<nat>,
    requested: bool)                 // a request that no attempt has followed yet

  const START := State(Restless, false, false, false, 0, [], false)

  datatype Event =
    | Request
    | Stop
    | Await
    | WakeByRequest
    | WakeByCooldown
    | WakeByStop
    | Reset
    | StartAttempt
    | AttemptFails(noConfig: bool)
    | AttemptSucceeds
    | ConnectionDrops

  function Current(s: State): nat {
    |s.past|
  }

  predicate IsClosed(s: State, channel: nat) {
    if channel < |s.past| then s.past[channel] > 0 else channel == |s.past| && s.closes > 0
  }

  predicate Possible(s: State, ev: Event) {
    match ev
    case Request => true
    case Stop => true
    case Await => s.loop.Restless? || s.loop.Established?
    case WakeByRequest =>
      (s.loop.AwaitingAttempt? || s.loop.Holding?) && IsClosed(s, s.loop.channel)
    case WakeByCooldown => s.loop.AwaitingAttempt? && !s.disabled
    case WakeByStop => s.stopped && (s.loop.AwaitingAttempt? || s.loop.Holding?)
    case Reset => s.loop.AboutToReset?
    case StartAttempt => s.loop.AboutToConnect?
    case AttemptFails(_) => s.loop.Connecting?
    case AttemptSucceeds => s.loop.Connecting?
    case ConnectionDrops => s.loop.Holding?
  }

  /** Closing goes through the channel's once, so only the first of these calls closes it. */
  function CloseOnce(s: State): State {
    if s.fired then s else s.(fired := true, closes := s.closes + 1)
  }

  /** The end of a round: the loop leaves if the service was stopped. */
  function NextRound(s: State): State {
    s.(loop := if s.stopped then Gone else Restless)
  }

  function Step(s: State, ev: Event): State
    requires Possible(s, ev)
  {
    match ev
    case Request => CloseOnce(s).(requested := true)
    case Stop => CloseOnce(s).(stopped := true)
    case Await => s.(loop := if s.loop.Restless? then AwaitingAttempt(Current(s)) else Holding(Current(s)))
    case WakeByRequest => if s.loop.AwaitingAttempt? then s.(loop := AboutToReset) else NextRound(s)
    case WakeByCooldown => s.(loop := AboutToReset)
    case WakeByStop => s.(loop := Gone)
    case Reset =>
      var c := CloseOnce(s);
      c.(past := c.past + [c.closes], fired := false, closes := 0, loop := AboutToConnect)
    case StartAttempt => s.(loop := Connecting, requested := false)
    // A stopped service leaves before it looks at the error.
    case AttemptFails(noConfig) => NextRound(s.(disabled := s.disabled || (noConfig && !s.stopped)))
    case AttemptSucceeds => s.(loop := Established, disabled := false)
    case ConnectionDrops => NextRound(s)
  }

  /** A request that no attempt has followed shows in the channel, or the attempt is the next thing to happen. */
  ghost predicate Inv(s: State) {
    && (forall g :: 0 <= g < |s.past| ==> s.past[g] == 1)
    && s.closes == (if s.fired then 1 else 0)
    && (s.loop.AwaitingAttempt? || s.loop.Holding? ==> s.loop.channel == Current(s))
    && (s.requested ==> s.fired || s.loop == AboutToConnect)
    && (s.loop.Gone? ==> s.stopped)
  }

  lemma StepKeepsInv(s: State, ev: Event)
    requires Inv(s) && Possible(s, ev)
    ensures Inv(Step(s, ev))
  {
  }

  ghost predicate IsRun(states: seq<State>, events: seq<Event>) {
    && |states| == |events| + 1
    && forall i :: 0 <= i < |events| ==> Possible(states[i], events[i]) && states[i + 1] == Step(states[i], events[i])
  }

  /** No channel is ever closed twice, and every replaced one was closed, so nobody is left waiting on it. */
  lemma {:induction false} NoChannelClosedTwice(states: seq<State>, events: seq<Event>, n: nat)
    requires IsRun(states, events) && states[0] == START && n < |states|
    ensures Inv(states[n])
    ensures states[n].closes <= 1 && forall g :: 0 <= g < |states[n].past| ==> states[n].past[g] == 1
  {
    if n > 0 {
      NoChannelClosedTwice(states, events, n - 1);
      StepKeepsInv(states[n - 1], events[n - 1]);
    }
  }

  // ---------------------------------------------------------------- no request is lost

  /** What the loop can do about an open request without waiting for time or for the connection to drop. */
  function Response(s: State): Event
    requires !s.loop.Gone?
  {
    match s.loop
    case Restless => Await
    case AwaitingAttempt(_) => WakeByRequest
    case AboutToReset => Reset
    case AboutToConnect => StartAttempt
    case Connecting => AttemptSucceeds
    case Established => Await
    case Holding(_) => WakeByRequest
  }

  /** Steps of the loop until the next attempt starts. */
  function Distance(s: State): nat {
    match s.loop
    case Connecting => 7
    case Established => 6
    case Holding(_) => 5
    case Restless => 4
    case AwaitingAttempt(_) => 3
    case AboutToReset => 2
    case AboutToConnect => 1
    case Gone => 0
  }

  function LoopSteps(events: seq<Event>): nat {
    if events == [] then 0 else (if events[0].Request? then 0 else 1) + LoopSteps(events[1..])
  }

  /**
   Unless the service stops, an open request stays open only for a bounded number of steps of the
   loop, whatever these are, and at no point is the loop blocked: the attempt must come.
   */
  lemma {:induction false} NoRequestIsLost(states: seq<State>, events: seq<Event>)
    requires IsRun(states, events) && Inv(states[0]) && states[0].requested && !states[0].stopped
    requires Stop !in events && StartAttempt !in events
    ensures var last := states[|events|];
      && last.requested && !last.loop.Gone?
      && LoopSteps(events) + Distance(last) <= Distance(states[0]) <= 7
      && Possible(last, Response(last))
    decreases |events|
  {
    if events != [] {
      StepKeepsInv(states[0], events[0]);
      assert events[0] in events && states[1].requested && !states[1].stopped;
      NoRequestIsLost(states[1..], events[1..]);
    }
  }

  /** The attempt that ends the wait starts after the request and takes it off the books. */
  lemma AttemptAnswersRequest(s: State)
    requires Inv(s) && Possible(s, StartAttempt)
    ensures !Step(s, StartAttempt).requested && Step(s, StartAttempt).loop == Connecting
    ensures Step(Step(s, StartAttempt), Request).requested && IsClosed(Step(Step(s, StartAttempt), Request), Current(s))
  {
  }

  // ---------------------------------------------------------------- when the loop tries by itself, and when it ends

  /** The service has been without configuration since some attempt: it failed for that, and none succeeded since. */
  ghost predicate WithoutConfig(states: seq<State>, events: seq<Event>, n: nat)
    requires n <= |events| < |states|
  {
    exists i :: 0 <= i < n && events[i] == AttemptFails(true) && !states[i].stopped && NoSuccess(events, i, n)
  }

  ghost predicate NoSuccess(events: seq<Event>, i: nat, n: nat)
    requires n <= |events|
  {
    forall k :: i < k < n ==> events[k] != AttemptSucceeds
  }

  /**
   The cool-down is armed, so that the loop tries again by itself, exactly when no attempt has failed for
   want of a configuration since the last success.
   */
  lemma {:induction false} CooldownArmedIff(states: seq<State>, events: seq<Event>, n: nat)
    requires IsRun(states, events) && states[0] == START && n < |states|
    ensures states[n].disabled <==> WithoutConfig(states, events, n)
    ensures states[n].loop.AwaitingAttempt? ==> (Possible(states[n], WakeByCooldown) <==> !WithoutConfig(states, events, n))
  {
    if n > 0 {
      CooldownArmedIff(states, events, n - 1);
      WithoutConfigStep(states, events, n);
    }
  }

  lemma WithoutConfigStep(states: seq<State>, events: seq<Event>, n: nat)
    requires 0 < n <= |events| < |states|
    ensures WithoutConfig(states, events, n) <==>
      || (events[n - 1] == AttemptFails(true) && !states[n - 1].stopped)
      || (WithoutConfig(states, events, n - 1) && events[n - 1] != AttemptSucceeds)
  {
    if WithoutConfig(states, events, n - 1) && events[n - 1] != AttemptSucceeds {
      var i :| 0 <= i < n - 1 && events[i] == AttemptFails(true) && !states[i].stopped && NoSuccess(events, i, n - 1);
      assert NoSuccess(events, i, n);
    }
    if WithoutConfig(states, events, n) {
      var i :| 0 <= i < n && events[i] == AttemptFails(true) && !states[i].stopped && NoSuccess(events, i, n);
      if i < n - 1 {
        assert NoSuccess(events, i, n - 1);
      }
    }
    if events[n - 1] == AttemptFails(true) && !states[n - 1].stopped {
      assert NoSuccess(events, n - 1, n);
    }
  }

  /** However an attempt or a connection ends, the loop starts over, unless the service was stopped meanwhile. */
  lemma EveryEndStartsOver(s: State, noConfig: bool)
    ensures s.loop.Connecting? ==>
      && Possible(s, AttemptFails(noConfig)) && Possible(s, AttemptSucceeds)
      && Step(s, AttemptFails(noConfig)).loop == (if s.stopped then Gone else Restless)
      && Step(s, AttemptSucceeds).loop == Established
    ensures s.loop.Holding? ==>
      && Possible(s, ConnectionDrops) && Step(s, ConnectionDrops) == s.(loop := if s.stopped then Gone else Restless)
    ensures s.loop.Holding? && IsClosed(s, s.loop.channel) ==>
      Possible(s, WakeByRequest) && Step(s, WakeByRequest) == Step(s, ConnectionDrops)
  {
  }

  /** Steps that a stopped loop can still make. */
  function StepsLeft(s: State): nat {
    match s.loop
    case Restless => 7
    case AwaitingAttempt(_) => 6
    case AboutToReset => 5
    case AboutToConnect => 4
    case Connecting => 3
    case Established => 2
    case Holding(_) => 1
    case Gone => 0
  }

  /** After a stop every step of the loop brings it closer to its end, and it is never blocked before. */
  lemma StoppedLoopEnds(s: State, ev: Event)
    requires Inv(s) && s.stopped && !s.loop.Gone?
    ensures Possible(s, ev) && ev != Request && ev != Stop ==> Step(s, ev).stopped && StepsLeft(Step(s, ev)) < StepsLeft(s)
    ensures exists next :: next != Request && next != Stop && Possible(s, next)
  {
    var next := if s.loop.AwaitingAttempt? || s.loop.Holding? then WakeByStop else Response(s);
    assert Possible(s, next);
  }
}

/**
 Stopping and restarting the daemon: callers hand a request to the serve loop through a one-slot
 channel and wait for a token that the loop publishes, in another one-slot channel, when it stops serving.
 */
module Daemons {
  import opened Options

  /** Only network watchers ask for a restart; watchers are numbered in the order of their subscription. */
  datatype Kind = QuitGraceful | QuitForce | RestartRequest(watcher: nat)

  /** The serve loop. While it publishes, `final` says that it will not serve again. */
  datatype Loop =
    | Starting
    | Serving
    | Stopping(kind: Kind)
    | Publishing(final: bool, requested: bool)
    | CleaningUp
    | Ended

  /** Who is waiting, and what was found on acceptance: how often the daemon had stopped, and an unread token or not. */
  datatype Ticket = Ticket(kind: Kind, stops: nat, unread: bool)

  /** A caller that got a token, and the number of the stop that this token announced. */
  datatype Return = Return(caller: nat, ticket: Ticket, stop: nat)

  /** Requests are numbered in the order in which they are accepted, and a caller is known by its request. */
  datatype State = State(
    quit: Option<Kind>,          // the one-slot channel of requests
    token: Option<nat>,          // the one-slot channel of stop tokens, numbered in order
    stops: nat,                  // tokens published so far
    loop: Loop,
    rpcs: nat,                   // RPCs in flight, which a graceful stop waits for
    cancelled: bool,             // the context of Serve is done
    watchers: nat,               // network watchers subscribed so far; cleaning up joins the last one only
    called: set<nat>,            // watchers whose callback has called restart, which each does at most once
    calling: set<nat>,           // those of them whose request is not accepted yet
    accepted: nat,               // requests accepted so far
    carried: nat,                // requests carried out so far, in the same order
    waiting: map<nat, Ticket>,   // callers that wait for a token
    released: seq<Return>)

  const START := State(None, None, 0, Starting, 0, false, 0, {}, {}, 0, 0, map[], [])

  datatype Event =
    | StartServing(subscribes: bool)
    | CallRestart(watcher: nat)
    | Accept(kind: Kind)
    | GiveUp(watcher: nat)
    | TakeRequest
    | RpcStarts
    | RpcEnds
    | Cancel
    | ServerEnds
    | StopServer
    | Publish
    | Receive(caller: nat)
    | CloseStopped

  /** The network watcher that cleaning up joins. */
  predicate IsJoined(s: State, watcher: nat) {
    s.watchers > 0 && watcher == s.watchers - 1
  }

  /** The watcher to be joined waits for a token. */
  predicate JoinedWaits(s: State) {
    exists c :: c in s.waiting && s.waiting[c].kind.RestartRequest? && IsJoined(s, s.waiting[c].kind.watcher)
  }

  /** The watcher to be joined tries to hand over its request. */
  predicate JoinedCalls(s: State) {
    s.watchers > 0 && s.watchers - 1 in s.calling
  }

  predicate Possible(s: State, ev: Event) {
    match ev
    case StartServing(_) => s.loop.Starting?
    case CallRestart(w) => w < s.watchers && w !in s.called && !(s.loop.Ended? && IsJoined(s, w))
    case Accept(kind) => s.quit.None? && (kind.RestartRequest? ==> kind.watcher in s.calling)
    // A restart whose request is not accepted gives up when the context is done.
    case GiveUp(w) => s.cancelled && w in s.calling
    case TakeRequest => s.loop.Serving? && s.quit.Some?
    case RpcStarts => s.loop.Serving?
    case RpcEnds => s.rpcs > 0
    case Cancel => true
    // The context is done or the gRPC server ends on its own.
    case ServerEnds => s.loop.Serving?
    case StopServer => s.loop.Stopping? && (s.loop.kind == QuitForce || s.rpcs == 0)
    case Publish => s.loop.Publishing? && s.token.None?
    case Receive(caller) => caller in s.waiting && (s.token.Some? || s.loop.Ended?)
    case CloseStopped => s.loop.CleaningUp? && !JoinedWaits(s) && !JoinedCalls(s)
  }

  function Step(s: State, ev: Event): State
    requires Possible(s, ev)
  {
    match ev
    case StartServing(subscribes) => s.(loop := Serving, watchers := s.watchers + Count(subscribes))
    case CallRestart(w) => s.(called := s.called + {w}, calling := s.calling + {w})
    case Accept(kind) =>
      s.(quit := Some(kind), accepted := s.accepted + 1,
         calling := if kind.RestartRequest? then s.calling - {kind.watcher} else s.calling,
         waiting := s.waiting[s.accepted := Ticket(kind, s.stops, s.token.Some?)])
    case GiveUp(w) => s.(calling := s.calling - {w})
    case TakeRequest => s.(quit := None, loop := Stopping(s.quit.value))
    case RpcStarts => s.(rpcs := s.rpcs + 1)
    case RpcEnds => s.(rpcs := s.rpcs - 1)
    case Cancel => s.(cancelled := true)
    case ServerEnds => s.(loop := Publishing(true, false))
    case StopServer => s.(rpcs := 0, loop := Publishing(!s.loop.kind.RestartRequest?, true))
    case Publish =>
      s.(token := Some(s.stops + 1), stops := s.stops + 1, loop := if s.loop.final then CleaningUp else Starting,
         carried := s.carried + Count(s.loop.requested))
    case Receive(caller) =>
      if s.token.Some? then
        s.(token := None, waiting := s.waiting - {caller},
           released := s.released + [Return(caller, s.waiting[caller], s.token.value)])
      else s.(waiting := s.waiting - {caller})
    case CloseStopped => s.(loop := Ended)
  }

  function Count(b: bool): nat {
    if b then 1 else 0
  }

  /** The request in the loop's hands, until its token is published. */
  predicate Held(s: State) {
    s.loop.Stopping? || (s.loop.Publishing? && s.loop.requested)
  }

  predicate Running(s: State) {
    !s.loop.CleaningUp? && !s.loop.Ended?
  }

  /** How many requests are queued, in hand, or published and unread. */
  function Open(s: State): nat {
    Count(s.token.Some?) + Count(s.quit.Some?) + Count(Held(s))
  }

  /** Every waiting caller stands for exactly one request: queued, in hand, or published and unread. */
  ghost predicate Balanced(s: State) {
    && (s.loop.Publishing? && !s.loop.requested ==> s.loop.final)
    && (Running(s) ==>
      && |s.waiting| == Open(s)
      && s.accepted == s.carried + Count(s.quit.Some?) + Count(Held(s)))
    && (s.loop.CleaningUp? ==> Count(s.token.Some?) + Count(s.quit.Some?) <= |s.waiting| + 1)
  }

  /** The token in the buffer announces the latest stop, and it is new to whoever found the buffer empty. */
  ghost predicate Numbered(s: State) {
    && (s.token.Some? ==> s.token.value == s.stops)
    && (forall c :: c in s.waiting ==> c < s.accepted && s.waiting[c].stops <= s.stops)
    && (forall c :: c in s.waiting && !s.waiting[c].unread && s.token.Some? ==> s.waiting[c].stops < s.token.value)
    && (forall i :: 0 <= i < |s.released| && !s.released[i].ticket.unread ==>
          s.released[i].ticket.stops < s.released[i].stop)
  }

  ghost predicate Inv(s: State) {
    Balanced(s) && Numbered(s)
  }

  lemma Inserted(m: map<nat, Ticket>, k: nat, t: Ticket)
    requires k !in m
    ensures |m[k := t]| == |m| + 1
  {
    assert m[k := t].Keys == m.Keys + {k};
  }

  lemma Deleted(m: map<nat, Ticket>, k: nat)
    requires k in m
    ensures |m - {k}| == |m| - 1
  {
    assert (m - {k}).Keys == m.Keys - {k};
  }

  lemma WaitingChanges(s: State, ev: Event)
    requires Possible(s, ev) && forall c :: c in s.waiting ==> c < s.accepted
    ensures |Step(s, ev).waiting| ==
      if ev.Accept? then |s.waiting| + 1 else if ev.Receive? then |s.waiting| - 1 else |s.waiting|
  {
    match ev
    case Accept(kind) => Inserted(s.waiting, s.accepted, Ticket(kind, s.stops, s.token.Some?));
    case Receive(caller) => Deleted(s.waiting, caller);
    case _ =>
  }

  lemma CallingChanges(s: State, ev: Event)
    requires Possible(s, ev) && Internal(ev)
    ensures |Step(s, ev).calling| == |s.calling| - Count(ev.GiveUp? || ev.Accept?)
  {
    if ev.GiveUp? {
      assert |s.calling - {ev.watcher}| == |s.calling| - 1;
    } else if ev.Accept? {
      assert |s.calling - {ev.kind.watcher}| == |s.calling| - 1;
    }
  }

  lemma TakenKeepsBalanced(s: State, ev: Event)
    requires Balanced(s) && Possible(s, ev) && (ev.TakeRequest? || ev.StopServer? || ev.ServerEnds?)
    ensures Balanced(Step(s, ev))
  {
  }

  lemma PublishKeepsBalanced(s: State)
    requires Balanced(s) && Possible(s, Publish)
    ensures Balanced(Step(s, Publish))
  {
  }

  // Every other step leaves the channels, the waiting callers and the counts alone.
  lemma OtherKeepsBalanced(s: State, ev: Event)
    requires Balanced(s) && Possible(s, ev) && !ev.TakeRequest? && !ev.StopServer? && !ev.ServerEnds?
    requires !ev.Publish? && !ev.Accept? && !ev.Receive?
    ensures Balanced(Step(s, ev))
  {
    var s' := Step(s, ev);
    assert s'.token == s.token && s'.quit == s.quit && s'.waiting == s.waiting;
    assert s'.accepted == s.accepted && s'.carried == s.carried;
    assert Held(s') == Held(s) && (Running(s') ==> Running(s)) && (s'.loop.CleaningUp? <==> s.loop.CleaningUp? && !ev.CloseStopped?);
  }

  lemma CallKeepsBalanced(s: State, ev: Event)
    requires Balanced(s) && Possible(s, ev) && (ev.Accept? || ev.Receive?)
    requires |Step(s, ev).waiting| == if ev.Accept? then |s.waiting| + 1 else |s.waiting| - 1
    ensures Balanced(Step(s, ev))
  {
    var s' := Step(s, ev);
    assert s'.loop == s.loop && Held(s') == Held(s);
    if ev.Receive? {
      assert Running(s) ==> s.token.Some?;
    }
  }

  lemma StepKeepsBalanced(s: State, ev: Event)
    requires Balanced(s) && Possible(s, ev) && forall c :: c in s.waiting ==> c < s.accepted
    ensures Balanced(Step(s, ev))
  {
    if ev.Accept? || ev.Receive? {
      WaitingChanges(s, ev);
      CallKeepsBalanced(s, ev);
    } else if ev.TakeRequest? || ev.StopServer? || ev.ServerEnds? {
      TakenKeepsBalanced(s, ev);
    } else if ev.Publish? {
      PublishKeepsBalanced(s);
    } else {
      OtherKeepsBalanced(s, ev);
    }
  }

  lemma StepKeepsNumbered(s: State, ev: Event)
    requires Numbered(s) && Possible(s, ev)
    ensures Numbered(Step(s, ev))
  {
  }

  lemma StepKeepsInv(s: State, ev: Event)
    requires Inv(s) && Possible(s, ev)
    ensures Inv(Step(s, ev))
  {
    StepKeepsBalanced(s, ev);
    StepKeepsNumbered(s, ev);
  }

  ghost predicate IsRunFrom(s: State, states: seq<State>, events: seq<Event>) {
    && |states| == |events| + 1 && states[0] == s
    && forall i :: 0 <= i < |events| ==> Possible(states[i], events[i]) && states[i + 1] == Step(states[i], events[i])
  }

  ghost predicate IsRun(states: seq<State>, events: seq<Event>) {
    IsRunFrom(START, states, events)
  }

  lemma {:induction false} InvOnEveryRun(s: State, states: seq<State>, events: seq<Event>, n: nat)
    requires Inv(s) && IsRunFrom(s, states, events) && n < |states|
    ensures Inv(states[n])
  {
    if n > 0 {
      InvOnEveryRun(s, states, events, n - 1);
      StepKeepsInv(states[n - 1], events[n - 1]);
    }
  }

  lemma InitialInv(s: State)
    requires s.quit.None? && s.token.None? && s.loop.Starting? && s.accepted == s.carried
    requires s.waiting == map[] && s.released == []
    ensures Inv(s)
  {
  }

  lemma StartInv()
    ensures Inv(START)
  {
    InitialInv(START);
  }

  lemma ReachableInv(states: seq<State>, events: seq<Event>, n: nat)
    requires IsRun(states, events) && n < |states|
    ensures Balanced(states[n]) && Numbered(states[n])
  {
    StartInv();
    InvOnEveryRun(START, states, events, n);
  }

  // ---------------------------------------------------------------- nobody waits for good

  lemma SomebodyWaits(s: State) returns (caller: nat)
    requires |s.waiting| > 0
    ensures caller in s.waiting
  {
    caller :| caller in s.waiting;
  }

  lemma TokenIsTaken(s: State) returns (caller: nat)
    requires Balanced(s) && s.loop.Publishing? && s.token.Some?
    ensures Possible(s, Receive(caller)) && Possible(Step(s, Receive(caller)), Publish)
  {
    caller := SomebodyWaits(s);
  }

  /** Whenever publishing blocks on a full buffer, some caller can take the unread token, and then it goes on. */
  lemma PublishingIsNeverStuck(states: seq<State>, events: seq<Event>, n: nat) returns (caller: nat)
    requires IsRun(states, events) && n < |states| && states[n].loop.Publishing? && !Possible(states[n], Publish)
    ensures Possible(states[n], Receive(caller)) && Possible(Step(states[n], Receive(caller)), Publish)
  {
    ReachableInv(states, events, n);
    caller := TokenIsTaken(states[n]);
  }

  /** What the daemon and those inside a call do by themselves. */
  predicate Internal(ev: Event) {
    || ev.StartServing? || ev.TakeRequest? || ev.StopServer? || ev.Publish? || ev.Receive? || ev.CloseStopped?
    || ev.GiveUp? || (ev.Accept? && ev.kind.RestartRequest?)
  }

  /** No watcher gets on with its call: the request channel is full and the context is not done, or none is calling. */
  predicate CallsStall(s: State) {
    s.calling == {} || (s.quit.Some? && !s.cancelled)
  }

  /** A graceful stop waits for the RPCs in flight. */
  predicate WaitsForRpcs(s: State) {
    s.loop.Stopping? && s.loop.kind != QuitForce && s.rpcs > 0 && s.token.None?
  }

  /**
   Cleaning up joins a watcher that waits for a token, which nobody will publish, or for room in the
   channel, which nobody will make.
   */
  predicate JoinStuck(s: State) {
    s.loop.CleaningUp? && s.token.None? && (JoinedWaits(s) || (JoinedCalls(s) && s.quit.Some? && !s.cancelled))
  }

  predicate Blocked(s: State) {
    CallsStall(s) && (WaitsForRpcs(s) || JoinStuck(s))
  }

  lemma BlockedMeans(s: State, ev: Event)
    requires Blocked(s) && Internal(ev)
    ensures !Possible(s, ev)
  {
    match ev
    case GiveUp(w) => assert w in s.calling ==> s.calling != {};
    case Accept(kind) => assert kind.watcher in s.calling ==> s.calling != {};
    case _ =>
  }

  lemma SomethingHappens(s: State) returns (ev: Event)
    requires Balanced(s) && (s.waiting != map[] || s.loop.CleaningUp?) && !Blocked(s)
    ensures Internal(ev) && Possible(s, ev)
  {
    if !CallsStall(s) {
      var w :| w in s.calling;
      ev := if s.quit.None? then Accept(RestartRequest(w)) else GiveUp(w);
    } else if s.waiting != map[] && (s.token.Some? || s.loop.Ended?) {
      var caller :| caller in s.waiting;
      ev := Receive(caller);
    } else {
      ev := OfTheLoop(s);
    }
  }

  // What the loop itself does next.
  lemma OfTheLoop(s: State) returns (ev: Event)
    requires Balanced(s) && CallsStall(s) && !Blocked(s) && !s.loop.Ended?
    requires if s.waiting != map[] then s.token.None? else s.loop.CleaningUp?
    ensures Internal(ev) && Possible(s, ev)
  {
    match s.loop
    case Starting => ev := StartServing(false);
    case Serving =>
      assert |s.waiting| > 0;
      ev := TakeRequest;
    case Stopping(_) => ev := StopServer;
    case Publishing(_, _) => ev := Publish;
    case CleaningUp => ev := CloseStopped;
  }

  /**
   While somebody waits, nothing can happen without outside help exactly when a graceful stop waits for
   RPCs, or cleaning up has joined a watcher that waits for the daemon.
   */
  lemma BlockedIff(states: seq<State>, events: seq<Event>, n: nat)
    requires IsRun(states, events) && n < |states| && states[n].waiting != map[]
    ensures (forall ev :: Internal(ev) ==> !Possible(states[n], ev)) <==> Blocked(states[n])
  {
    ReachableInv(states, events, n);
    if Blocked(states[n]) {
      forall ev | Internal(ev) ensures !Possible(states[n], ev) {
        BlockedMeans(states[n], ev);
      }
    } else {
      var ev := SomethingHappens(states[n]);
    }
  }

  function Rank(loop: Loop): nat {
    match loop
    case Starting => 1
    case Stopping(_) => 5
    case Publishing(_, _) => 4
    case CleaningUp => 1
    case _ => 0
  }

  /** A bound on what can still happen without a new call, a new RPC and without the server failing. */
  function Remaining(s: State): nat {
    |s.waiting| + s.rpcs + 10 * |s.calling| + 7 * Count(s.quit.Some?) + Rank(s.loop)
  }

  lemma LoopStepsRunOut(s: State, ev: Event)
    requires Possible(s, ev) && (Internal(ev) || ev == RpcEnds) && !ev.Accept? && !ev.Receive? && !ev.GiveUp?
    ensures Step(s, ev).waiting == s.waiting && Step(s, ev).calling == s.calling
    ensures Step(s, ev).rpcs + 7 * Count(Step(s, ev).quit.Some?) + Rank(Step(s, ev).loop) <
      s.rpcs + 7 * Count(s.quit.Some?) + Rank(s.loop)
  {
  }

  lemma InternalStepsRunOut(s: State, ev: Event)
    requires (Internal(ev) || ev == RpcEnds) && Possible(s, ev) && forall c :: c in s.waiting ==> c < s.accepted
    ensures Remaining(Step(s, ev)) < Remaining(s)
  {
    if ev.Accept? || ev.Receive? || ev.GiveUp? {
      WaitingChanges(s, ev);
      CallingChanges(s, ev);
      var s' := Step(s, ev);
      assert s'.rpcs == s.rpcs && s'.loop == s.loop;
      assert Count(s'.quit.Some?) == Count(s.quit.Some?) + Count(ev.Accept?);
    } else {
      LoopStepsRunOut(s, ev);
    }
  }

  /** Nothing that the daemon, its callers and the RPCs in flight could do is left. */
  ghost predicate AtRest(s: State) {
    forall ev :: Internal(ev) || ev == RpcEnds ==> !Possible(s, ev)
  }

  lemma AtRestMeans(s: State)
    requires Inv(s) && AtRest(s)
    ensures s.loop.CleaningUp? <==> JoinStuck(s)
    ensures !JoinStuck(s) ==> s.waiting == map[]
  {
    assert WaitsForRpcs(s) ==> Possible(s, RpcEnds);
    if !JoinStuck(s) && (s.waiting != map[] || s.loop.CleaningUp?) {
      var ev := SomethingHappens(s);
    }
  }

  /**
   Left to itself, with the RPCs in flight ending, the daemon makes a bounded number of steps, in whatever
   order. At the end either the loop has got stuck joining a watcher, or every accepted caller has returned;
   and the loop is caught in the middle of cleaning up in the first case only.
   */
  lemma {:induction false} EveryCallerReturnsUnlessStuck(s: State, states: seq<State>, events: seq<Event>)
    requires Inv(s) && IsRunFrom(s, states, events)
    requires forall ev :: ev in events ==> Internal(ev) || ev == RpcEnds
    ensures |events| + Remaining(states[|events|]) <= Remaining(s)
    ensures AtRest(states[|events|]) ==>
      var last := states[|events|];
      (last.loop.CleaningUp? <==> JoinStuck(last)) && (!JoinStuck(last) ==> last.waiting == map[])
    decreases |events|
  {
    if events == [] {
      if AtRest(s) {
        AtRestMeans(s);
      }
    } else {
      assert events[0] in events;
      StepKeepsInv(s, events[0]);
      InternalStepsRunOut(s, events[0]);
      EveryCallerReturnsUnlessStuck(states[1], states[1..], events[1..]);
    }
  }

  /** Cleaning up waits for the watcher that subscribed last and for no other one. */
  lemma OnlyLastWatcherIsJoined(s: State)
    requires s.loop.CleaningUp?
    ensures (forall w: nat :: w + 1 == s.watchers ==>
              w !in s.calling && forall c :: c in s.waiting ==> s.waiting[c].kind != RestartRequest(w))
            <==> Possible(s, CloseStopped)
  {
    if JoinedWaits(s) {
      var c :| c in s.waiting && s.waiting[c].kind.RestartRequest? && IsJoined(s, s.waiting[c].kind.watcher);
      assert s.waiting[c].kind == RestartRequest(s.watchers - 1);
    }
    if JoinedCalls(s) {
      assert s.watchers - 1 in s.calling;
    }
    if Possible(s, CloseStopped) {
      forall w: nat, c | w + 1 == s.watchers && c in s.waiting ensures s.waiting[c].kind != RestartRequest(w) {
        assert IsJoined(s, w);
      }
    }
  }

  /**
   Once stuck, Serve never returns, whatever is called afterwards. The end of its context helps only a
   watcher whose request was not accepted.
   */
  lemma StuckForGood(s: State, ev: Event)
    requires Inv(s) && JoinStuck(s) && Possible(s, ev) && (ev.Cancel? ==> JoinedWaits(s))
    ensures JoinStuck(Step(s, ev)) && (JoinedWaits(s) ==> JoinedWaits(Step(s, ev)))
  {
    if JoinedWaits(s) {
      var c :| c in s.waiting && s.waiting[c].kind.RestartRequest? && IsJoined(s, s.waiting[c].kind.watcher);
      assert c in Step(s, ev).waiting && Step(s, ev).waiting[c] == s.waiting[c];
    }
  }

  // ---------------------------------------------------------------- whose stop a caller returns on

  /** A caller that found the buffer empty returns only after the daemon stopped serving at least once more. */
  lemma ReturnsAfterAStop(states: seq<State>, events: seq<Event>, n: nat, i: nat)
    requires IsRun(states, events) && n < |states| && i < |states[n].released|
    ensures !states[n].released[i].ticket.unread ==> states[n].released[i].ticket.stops < states[n].released[i].stop
  {
    ReachableInv(states, events, n);
    var back := states[n].released[i];
    assert !back.ticket.unread ==> back.ticket.stops < back.stop;
  }

  /** The caller can return now although its own request has not been carried out. */
  predicate ReturnsEarly(s: State, caller: nat) {
    Possible(s, Receive(caller)) && s.carried <= caller
  }

  /** Somehow the caller gets to return early, although the server does not end by itself. */
  ghost predicate MayReturnEarly(s: State, caller: nat) {
    exists states: seq<State>, events :: IsRunFrom(s, states, events) && ServerEnds !in events &&
      ReturnsEarly(states[|events|], caller)
  }

  /** Somehow the caller gets to return early although the loop has not announced its last stop. */
  ghost predicate MayReturnWhileRunning(s: State, caller: nat) {
    exists states: seq<State>, events :: IsRunFrom(s, states, events) &&
      ReturnsEarly(states[|events|], caller) && Running(states[|events|])
  }

  lemma RunExtends(s: State, ev: Event, states: seq<State>, events: seq<Event>)
    requires Possible(s, ev) && IsRunFrom(Step(s, ev), states, events)
    ensures IsRunFrom(s, [s] + states, [ev] + events)
  {
    var all, evs := [s] + states, [ev] + events;
    forall i | 0 <= i < |evs| ensures Possible(all[i], evs[i]) && all[i + 1] == Step(all[i], evs[i]) {
      if i > 0 {
        assert all[i] == states[i - 1] && evs[i] == events[i - 1] && all[i + 1] == states[i];
      }
    }
  }

  /** What carries out the request in hand. */
  function Onward(s: State): Event
    requires Held(s)
  {
    if s.loop.Publishing? then Publish
    else if s.loop.kind != QuitForce && s.rpcs > 0 then RpcEnds
    else StopServer
  }

  // The request in hand is carried out, which publishes a token.
  lemma {:induction false} RunToToken(s: State) returns (states: seq<State>, events: seq<Event>)
    requires Held(s) && s.token.None?
    ensures IsRunFrom(s, states, events) && ServerEnds !in events
    ensures var last := states[|events|];
      && last.token.Some? && last.carried == s.carried + 1 && last.waiting == s.waiting
      && last.loop == if HoldsRestart(s) then Starting else CleaningUp
    decreases s.rpcs, s.loop.Stopping?
  {
    var s' := Step(s, Onward(s));
    if s.loop.Publishing? {
      states, events := [s'], [];
    } else {
      states, events := RunToToken(s');
    }
    RunExtends(s, Onward(s), states, events);
    states, events := [s] + states, [Onward(s)] + events;
  }

  /** The request in the loop's hands is a restart. */
  predicate HoldsRestart(s: State) {
    (s.loop.Stopping? && s.loop.kind.RestartRequest?) || s.loop == Publishing(false, true)
  }

  /** The next stop is the one for this caller. */
  predicate IsNext(s: State, caller: nat) {
    && caller < s.accepted
    && (caller in s.waiting && s.carried <= caller ==>
          s.carried == caller && s.token.None? && (s.loop.Starting? || s.loop.Serving? || Held(s)))
  }

  /** The next stop is the one for this caller, or the last one. */
  predicate IsNextOrLast(s: State, caller: nat) {
    && caller < s.accepted
    && (caller in s.waiting && s.carried <= caller && Running(s) ==>
          s.token.None? && ((s.loop.Stopping? && !s.loop.kind.RestartRequest?) || (s.loop.Publishing? && s.loop.final)
                            || s.carried == caller))
  }

  lemma StepKeepsNext(s: State, ev: Event, caller: nat)
    requires Inv(s) && Possible(s, ev)
    ensures IsNext(s, caller) && !ev.ServerEnds? ==> IsNext(Step(s, ev), caller)
    ensures IsNextOrLast(s, caller) ==> IsNextOrLast(Step(s, ev), caller)
  {
  }

  lemma {:induction false} NextOnEveryRun(s: State, states: seq<State>, events: seq<Event>, n: nat, caller: nat)
    requires Inv(s) && IsRunFrom(s, states, events) && n < |states|
    ensures IsNext(s, caller) && ServerEnds !in events ==> IsNext(states[n], caller)
    ensures IsNextOrLast(s, caller) ==> IsNextOrLast(states[n], caller)
  {
    if n > 0 {
      NextOnEveryRun(s, states, events, n - 1, caller);
      assert Inv(states[n - 1]) by {
        InvOnEveryRun(s, states, events, n - 1);
      }
      StepKeepsNext(states[n - 1], events[n - 1], caller);
    }
  }

  /** Who waits when a request can be accepted: somebody for the unread token, or for the request in hand. */
  lemma NobodyWaitsIff(s: State)
    requires Inv(s) && Running(s) && s.quit.None?
    ensures s.waiting == map[] <==> s.token.None? && !Held(s)
  {
    assert s.waiting == map[] <==> |s.waiting| == 0;
  }

  /**
   A caller whose request is accepted by a daemon that serves or stops on request can return before its own
   request is carried out exactly when somebody else is waiting at that moment.
   */
  lemma EarlyReturnIff(s: State, kind: Kind)
    requires Inv(s) && (s.loop.Starting? || s.loop.Serving? || Held(s)) && Possible(s, Accept(kind))
    ensures MayReturnEarly(Step(s, Accept(kind)), s.accepted) <==> s.waiting != map[]
  {
    var caller, s' := s.accepted, Step(s, Accept(kind));
    StepKeepsInv(s, Accept(kind));
    NobodyWaitsIff(s);
    if s.token.Some? {
      var none: seq<Event> := [];
      assert IsRunFrom(s', [s'], none) && ReturnsEarly([s'][|none|], caller);
    } else if Held(s) {
      var states, events := RunToToken(s');
      assert ReturnsEarly(states[|events|], caller);
    } else {
      forall states: seq<State>, events | IsRunFrom(s', states, events) && ServerEnds !in events
        ensures !ReturnsEarly(states[|events|], caller)
      {
        NextOnEveryRun(s', states, events, |events|, caller);
      }
    }
  }

  /**
   Of these early returns, the ones while the daemon goes on, so that even a quit leaves it serving, are
   exactly those on the token of a restart: one that is unread, or one that is in the loop's hands.
   */
  lemma ReturnWhileRunningIff(s: State, kind: Kind)
    requires Inv(s) && Running(s) && Possible(s, Accept(kind))
    ensures MayReturnWhileRunning(Step(s, Accept(kind)), s.accepted) <==> s.token.Some? || HoldsRestart(s)
    ensures ReturnsEarly(Step(s, Accept(kind)), s.accepted) <==> s.token.Some?
  {
    var caller, s' := s.accepted, Step(s, Accept(kind));
    StepKeepsInv(s, Accept(kind));
    if s.token.Some? {
      var none: seq<Event> := [];
      assert IsRunFrom(s', [s'], none) && ReturnsEarly([s'][|none|], caller);
    } else if HoldsRestart(s) {
      var states, events := RunToToken(s');
      assert ReturnsEarly(states[|events|], caller) && Running(states[|events|]);
    } else {
      forall states: seq<State>, events | IsRunFrom(s', states, events) && Running(states[|events|])
        ensures !ReturnsEarly(states[|events|], caller)
      {
        NextOnEveryRun(s', states, events, |events|, caller);
      }
    }
  }

  // ---------------------------------------------------------------- runs from the start that fail

  /** The first serve round has subscribed a watcher. */
  const WATCHED := Step(START, StartServing(true))

  /**
   A restart is taken, a quit is accepted, the restart is carried out, and the quit returns on its token:
   the daemon serves again and the quit is still queued.
   */
  lemma EarlyQuitRun()
    ensures var restarting := Step(Step(Step(WATCHED, CallRestart(0)), Accept(RestartRequest(0))), TakeRequest);
      var quitting := Step(restarting, Accept(QuitForce));
      var s := Step(Step(Step(quitting, StopServer), Publish), StartServing(false));
      && restarting.token.None? && ReturnsEarly(s, 1)
      && Step(s, Receive(1)).loop == Serving && Step(s, Receive(1)).quit == Some(QuitForce)
  {
  }

  /** The watcher called restart while a quit was being carried out. */
  const RESTART_DURING_QUIT := Step(Step(Step(WATCHED, Accept(QuitGraceful)), TakeRequest), CallRestart(0))

  /** What becomes of it when the quit is carried out and returns on its token. */
  function AfterQuit(s: State): State
    requires s.loop == Stopping(QuitGraceful) && s.rpcs == 0 && s.token.None? && 0 in s.waiting
  {
    Step(Step(Step(s, StopServer), Publish), Receive(0))
  }

  /**
   The request of the watcher is accepted, and cleaning up joins the watcher, which waits for a token:
   neither Serve nor the watcher returns, and the end of the context does not help.
   */
  lemma JoinStuckRun()
    ensures var asked := Step(RESTART_DURING_QUIT, Accept(RestartRequest(0)));
      0 in asked.waiting && 1 in AfterQuit(asked).waiting && JoinStuck(AfterQuit(asked))
      && JoinStuck(Step(AfterQuit(asked), Cancel))
  {
    var s := AfterQuit(Step(RESTART_DURING_QUIT, Accept(RestartRequest(0))));
    assert 1 in s.waiting && s.waiting[1].kind == RestartRequest(0) && IsJoined(s, 0);
  }

  /** A second quit fills the channel first: the watcher cannot even hand over its request. */
  lemma FullChannelRun()
    ensures var full := Step(RESTART_DURING_QUIT, Accept(QuitGraceful));
      0 in full.waiting && 1 in AfterQuit(full).waiting && JoinStuck(AfterQuit(full))
      && !JoinStuck(Step(AfterQuit(full), Cancel))
  {
    var full := Step(RESTART_DURING_QUIT, Accept(QuitGraceful));
    assert full.calling == {0} && full.watchers == 1;
  }

  /** When the context ends, the watcher gives up, cleaning up goes on, and the second quit returns. */
  lemma FullChannelEnds(s: State)
    requires s.loop.CleaningUp? && s.token.None? && !JoinedWaits(s) && JoinedCalls(s) && s.quit.Some?
    ensures Possible(Step(s, Cancel), GiveUp(s.watchers - 1))
    ensures var s' := Step(Step(s, Cancel), GiveUp(s.watchers - 1));
      && Possible(s', CloseStopped) && Step(s', CloseStopped).loop == Ended
      && forall c :: c in s.waiting ==> Possible(Step(s', CloseStopped), Receive(c))
  {
    SameWaiters(s, Step(Step(s, Cancel), GiveUp(s.watchers - 1)));
  }

  lemma SameWaiters(s: State, t: State)
    requires s.waiting == t.waiting && s.watchers == t.watchers
    ensures JoinedWaits(s) <==> JoinedWaits(t)
  {
  }

  /** A graceful quit waits for an RPC in flight and goes on when it ends; a forced one does not wait. */
  lemma GracefulQuitWaitsRun()
    ensures var busy := Step(WATCHED, RpcStarts);
      var graceful := Step(Step(busy, Accept(QuitGraceful)), TakeRequest);
      && Blocked(graceful) && Possible(Step(graceful, RpcEnds), StopServer)
      && Possible(Step(Step(busy, Accept(QuitForce)), TakeRequest), StopServer)
  {
  }

  /** A server that ends by itself, or because the context is done, ends the loop, whatever was asked for. */
  lemma ServerEndIsFinal(s: State)
    requires s.loop.Serving? && s.token.None?
    ensures Possible(s, ServerEnds) && Possible(Step(s, ServerEnds), Publish)
    ensures Step(Step(s, ServerEnds), Publish) == s.(loop := CleaningUp, token := Some(s.stops + 1), stops := s.stops + 1)
  {
  }
}

/**
 Unary calls in reverse: the agent sends commands down a bidirectional stream and the service in the
 distro, which opened the stream, runs them and sends each result back up. One client, two streams.
 */
module ReverseCalls {
  import opened Options

  datatype Kind = Pro | Landscape

  datatype Message = Empty | WslName(name: string) | Result(text: string)

  /** An error is its text; None is success. */
  type Error = Option<string>

  function EncodeResult(err: Error): Message {
    Result(if err.None? then "" else err.value)
  }

  /** False when the message says nothing about the command. */
  function MsgToError(message: Option<Message>): (bool, Error) {
    if message.None? then (false, Some("message is empty"))
    else if !message.value.Result? then (false, Some("message is not a result"))
    else if message.value.text != "" then (true, Some(message.value.text))
    else (true, None)
  }

  /** The reply says what the callback returned, unless that was an error without a text. */
  lemma ReplyRoundTrip(err: Error)
    ensures MsgToError(Some(EncodeResult(err))) == (true, err) <==> err != Some("")
    ensures MsgToError(Some(EncodeResult(Some("")))) == (true, None)
  {
  }

  /** Only a result says something about the command: an error exactly when it has a text. */
  lemma MsgToErrorIff(message: Option<Message>)
    ensures MsgToError(message).0 <==> exists text :: message == Some(Result(text))
    ensures forall text :: message == Some(Result(text)) ==>
      (MsgToError(message).1 == None <==> text == "") && (text != "" ==> MsgToError(message).1 == Some(text))
    ensures !MsgToError(message).0 ==> MsgToError(message).1.Some?
  {
  }

  /** One handling loop of the service: waiting for a command, holding a result to send, or gone. */
  datatype Service = Receiving | Answering(result: Error) | Stopped

  /**
   One stream. `down` and `up` are in transit; `sent` and `ran` are the histories of what the agent
   sent and what the service ran with which result; `got` counts the results the agent received.
   */
  datatype Link = Link(
    attached: bool, named: bool, broken: bool, service: Service,
    down: seq<string>, up: seq<Message>,
    sent: seq<string>, ran: seq<(string, Error)>, got: nat)

  const NEW_LINK := Link(false, false, false, Receiving, [], [], [], [], 0)

  datatype Agent = Idle | Awaiting(kind: Kind, payload: string)

  datatype Reply = Succeeded | CommandError(text: string) | NotAResult | Disconnected | Closed | NoStream

  /** A finished call; `index` is the position of the command among those whose result arrived. */
  datatype Call = Call(kind: Kind, payload: string, index: Option<nat>, reply: Reply)

  datatype State = State(closed: bool, agent: Agent, pro: Link, landscape: Link, calls: seq<Call>)

  const START := State(false, Idle, NEW_LINK, NEW_LINK, [])

  function At(s: State, k: Kind): Link {
    if k.Pro? then s.pro else s.landscape
  }

  function With(s: State, k: Kind, l: Link): State {
    if k.Pro? then s.(pro := l) else s.(landscape := l)
  }

  datatype Event =
    // The service.
    | SendName(k: Kind, name: string)
    | RunCommand(k: Kind, result: Error)
    | Answer(k: Kind, sendOk: bool)
    | StopServing(k: Kind)
    // The agent.
    | Handshake(k: Kind)
    | Send(k: Kind, payload: string, sendOk: bool, delivered: bool)
    | ReceiveReply
    | ReceiveFails
    | Close
    // The transport: what is in transit beyond these lengths is lost, and nothing follows.
    | Break(k: Kind, keptDown: nat, keptUp: nat)

  predicate Possible(s: State, ev: Event) {
    match ev
    case Send(k, _, sendOk, delivered) => s.agent == Idle && (At(s, k).broken ==> !delivered)
    case ReceiveReply => s.agent.Awaiting? && At(s, s.agent.kind).up != []
    case ReceiveFails => s.agent.Awaiting? && (s.closed || At(s, s.agent.kind).broken)
    case Close => true
    case _ => PossibleOnLink(At(s, ev.k), ev)
  }

  function Logged(s: State, k: Kind, payload: string, index: Option<nat>, reply: Reply): State {
    s.(agent := Idle, calls := s.calls + [Call(k, payload, index, reply)])
  }

  function ReplyOf(message: Message): Reply {
    var (ok, err) := MsgToError(Some(message));
    if !ok then NotAResult else if err.Some? then CommandError(err.value) else Succeeded
  }

  /** The events that touch one stream only and leave the agent where it is. */
  predicate PossibleOnLink(l: Link, ev: Event) {
    match ev
    case SendName(_, _) => !l.named && !l.broken
    case RunCommand(_, _) => l.service == Receiving && l.down != []
    case Answer(_, sendOk) => l.service.Answering? && (sendOk ==> !l.broken)
    case StopServing(_) => l.service == Receiving
    case Handshake(_) => !l.attached && l.up != []
    case Break(_, keptDown, keptUp) => keptDown <= |l.down| && keptUp <= |l.up|
    case _ => false
  }

  function LinkStep(l: Link, ev: Event): Link
    requires PossibleOnLink(l, ev)
  {
    match ev
    case SendName(_, name) => l.(named := true, up := l.up + [WslName(name)])
    case RunCommand(_, result) =>
      l.(down := l.down[1..], ran := l.ran + [(l.down[0], result)], service := Answering(result))
    case Answer(_, sendOk) =>
      if sendOk then l.(up := l.up + [EncodeResult(l.service.result)], service := Receiving) else l.(service := Stopped)
    case StopServing(_) => l.(service := Stopped)
    case Handshake(_) =>
      if l.up[0].WslName? && l.up[0].name != "" then l.(attached := true, up := l.up[1..])
      else l.(up := l.up[1..], broken := true)
    case Break(_, keptDown, keptUp) => l.(broken := true, down := l.down[..keptDown], up := l.up[..keptUp])
  }

  function Step(s: State, ev: Event): State
    requires Possible(s, ev)
  {
    match ev
    case Send(k, payload, sendOk, delivered) =>
      var l := At(s, k);
      if s.closed then Logged(s, k, payload, None, Closed)
      else if !l.attached then Logged(s, k, payload, None, NoStream)
      else
        var l' := if delivered then l.(down := l.down + [payload]) else l;
        if sendOk then
          // A send that is not delivered although it reports success happens on a broken stream only.
          With(s, k, l'.(sent := l.sent + [payload], broken := l.broken || !delivered)).(agent := Awaiting(k, payload))
        else
          var l'' := if delivered then l'.(sent := l.sent + [payload]) else l';
          Logged(With(s, k, l'').(closed := true), k, payload, None, Disconnected)
    case ReceiveReply =>
      var k := s.agent.kind;
      var l := At(s, k);
      Logged(With(s, k, l.(up := l.up[1..], got := l.got + 1)), k, s.agent.payload, Some(l.got), ReplyOf(l.up[0]))
    case ReceiveFails => Logged(s.(closed := true), s.agent.kind, s.agent.payload, None, Disconnected)
    case Close => s.(closed := true)
    case _ => With(s, ev.k, LinkStep(At(s, ev.k), ev))
  }

  // ---------------------------------------------------------------- invariants

  /** The stream carries the agent's commands down in order and the service's results up in order. */
  ghost predicate Ordered(l: Link) {
    && |l.ran| + |l.down| <= |l.sent| && (!l.broken ==> |l.ran| + |l.down| == |l.sent|)
    && (forall i :: 0 <= i < |l.ran| ==> l.ran[i].0 == l.sent[i])
    && (forall i :: 0 <= i < |l.down| ==> l.down[i] == l.sent[|l.ran| + i])
    && l.got + |l.up| <= |l.ran|
    && (forall i :: 0 <= i < |l.up| ==> l.up[i] == EncodeResult(l.ran[l.got + i].1))
  }

  /** Unless the stream broke, the service has answered everything it ran but the command in its hands. */
  ghost predicate ServiceInStep(l: Link) {
    !l.broken ==>
      && (l.service == Receiving ==> l.got + |l.up| == |l.ran|)
      && (l.service.Answering? ==> l.got + |l.up| + 1 == |l.ran| && l.service.result == l.ran[|l.ran| - 1].1)
  }

  /** Before the handshake only the name travels. */
  ghost predicate Fresh(l: Link) {
    && l.down == [] && l.sent == [] && l.ran == [] && l.got == 0
    && (if l.named then |l.up| <= 1 else l.up == [])
    && (forall i :: 0 <= i < |l.up| ==> l.up[i].WslName?)
    && !l.service.Answering?
  }

  ghost predicate LinkInv(l: Link) {
    if l.attached then l.named && Ordered(l) && ServiceInStep(l) else Fresh(l)
  }

  /** The agent is at most one command ahead of the results, and only while it awaits that one. */
  ghost predicate AgentInStep(s: State, k: Kind) {
    var l := At(s, k);
    if s.agent.Awaiting? && s.agent.kind == k then
      l.attached && |l.sent| == l.got + 1 && l.sent[l.got] == s.agent.payload
    else !s.closed ==> |l.sent| == l.got
  }

  /** What a reply claims about the command: success and error mean that the service ran exactly it. */
  ghost predicate Truthful(l: Link, c: Call) {
    match c.reply
    case Succeeded =>
      c.index.Some? && c.index.value < |l.ran| && l.ran[c.index.value] in {(c.payload, None), (c.payload, Some(""))}
    case CommandError(text) =>
      c.index.Some? && c.index.value < |l.ran| && l.ran[c.index.value] == (c.payload, Some(text))
    case NotAResult => false
    case _ => c.index.None?
  }

  predicate BothAnswered(c: Call, d: Call) {
    c.kind == d.kind && c.index.Some? && d.index.Some?
  }

  ghost predicate CallsInv(s: State) {
    && (forall i :: 0 <= i < |s.calls| ==> Truthful(At(s, s.calls[i].kind), s.calls[i]))
    && (forall i :: 0 <= i < |s.calls| && s.calls[i].index.Some? ==> s.calls[i].index.value < At(s, s.calls[i].kind).got)
    && (forall i, j :: 0 <= i < j < |s.calls| && BothAnswered(s.calls[i], s.calls[j]) ==>
          s.calls[i].index.value < s.calls[j].index.value)
  }

  ghost predicate Inv(s: State) {
    && LinkInv(s.pro) && LinkInv(s.landscape)
    && AgentInStep(s, Pro) && AgentInStep(s, Landscape)
    && CallsInv(s)
  }

  // ---------------------------------------------------------------- every step keeps them

  lemma CallsKept(s: State, s': State)
    requires CallsInv(s) && s'.calls == s.calls
    requires forall k :: At(s, k).ran <= At(s', k).ran && At(s, k).got <= At(s', k).got
    ensures CallsInv(s')
  {
  }

  lemma CallLogged(s: State, s': State, c: Call)
    requires CallsInv(s) && s'.calls == s.calls + [c]
    requires forall k :: At(s, k).ran <= At(s', k).ran && At(s, k).got <= At(s', k).got
    requires Truthful(At(s', c.kind), c)
    requires c.index.Some? ==> c.index.value == At(s, c.kind).got < At(s', c.kind).got
    ensures CallsInv(s')
  {
    CallsKept(s, s'.(calls := s.calls));
  }

  lemma RunCommandKeepsLink(l: Link, ev: Event)
    requires LinkInv(l) && ev.RunCommand? && PossibleOnLink(l, ev)
    ensures LinkInv(LinkStep(l, ev))
  {
    assert Ordered(LinkStep(l, ev));
  }

  lemma AnswerKeepsLink(l: Link, ev: Event)
    requires LinkInv(l) && ev.Answer? && PossibleOnLink(l, ev)
    ensures LinkInv(LinkStep(l, ev))
  {
  }

  lemma LinkStepKeepsLink(l: Link, ev: Event)
    requires LinkInv(l) && PossibleOnLink(l, ev)
    ensures LinkInv(LinkStep(l, ev))
  {
    if ev.RunCommand? {
      RunCommandKeepsLink(l, ev);
    } else if ev.Answer? {
      AnswerKeepsLink(l, ev);
    }
  }

  lemma SendKeepsLink(l: Link, payload: string)
    requires LinkInv(l) && l.attached
    ensures !l.broken ==> LinkInv(l.(down := l.down + [payload], sent := l.sent + [payload]))
    ensures LinkInv(l.(sent := l.sent + [payload], broken := true))
  {
  }

  lemma ReceiveKeepsLink(l: Link)
    requires LinkInv(l) && l.attached && l.up != []
    ensures LinkInv(l.(up := l.up[1..], got := l.got + 1))
  {
  }

  // Only stream k changes, and neither agent nor service forgets anything.
  lemma AgentKept(s: State, k: Kind, l: Link, other: Kind)
    requires AgentInStep(s, other)
    requires l.sent == At(s, k).sent && l.got == At(s, k).got && (At(s, k).attached ==> l.attached)
    ensures AgentInStep(With(s, k, l), other)
  {
  }

  lemma InvFromLink(s: State, k: Kind, l: Link)
    requires Inv(s) && LinkInv(l)
    requires l.sent == At(s, k).sent && l.got == At(s, k).got && At(s, k).ran <= l.ran
    requires At(s, k).attached ==> l.attached
    ensures Inv(With(s, k, l))
  {
    AgentKept(s, k, l, Pro);
    AgentKept(s, k, l, Landscape);
    assert CallsInv(With(s, k, l)) by {
      CallsKept(s, With(s, k, l));
    }
    OtherLink(s, k, l);
  }

  lemma OtherLink(s: State, k: Kind, l: Link)
    requires LinkInv(s.pro) && LinkInv(s.landscape) && LinkInv(l)
    ensures LinkInv(With(s, k, l).pro) && LinkInv(With(s, k, l).landscape)
  {
  }

  // A call that ends without a result says nothing about the service.
  lemma FailedCallKeepsInv(s: State, k: Kind, payload: string, reply: Reply)
    requires Inv(s) && reply in {Disconnected, Closed, NoStream}
    requires s.agent == Idle || s.closed
    ensures Inv(Logged(s, k, payload, None, reply))
  {
    CallLogged(s, Logged(s, k, payload, None, reply), Call(k, payload, None, reply));
  }

  lemma ClosingKeepsInv(s: State)
    requires Inv(s)
    ensures Inv(s.(closed := true))
  {
    CallsKept(s, s.(closed := true));
  }

  // The agent hands a command to an open stream and waits.
  lemma AwaitingKeepsInv(s: State, k: Kind, payload: string, l: Link)
    requires Inv(s) && s.agent == Idle && !s.closed && At(s, k).attached && l.attached && LinkInv(l)
    requires l.sent == At(s, k).sent + [payload] && l.ran == At(s, k).ran && l.got == At(s, k).got
    ensures Inv(With(s, k, l).(agent := Awaiting(k, payload)))
    ensures Inv(With(s, k, l).(closed := true))
  {
    assert AgentInStep(s, k);
    CallsKept(s, With(s, k, l).(agent := Awaiting(k, payload)));
    CallsKept(s, With(s, k, l).(closed := true));
  }

  lemma SendKeepsInv(s: State, ev: Event)
    requires Inv(s) && Possible(s, ev) && ev.Send?
    ensures Inv(Step(s, ev))
  {
    var k, l := ev.k, At(s, ev.k);
    if s.closed || !l.attached {
      FailedCallKeepsInv(s, k, ev.payload, if s.closed then Closed else NoStream);
      return;
    }
    SendKeepsLink(l, ev.payload);
    if ev.delivered {
      AwaitingKeepsInv(s, k, ev.payload, l.(down := l.down + [ev.payload], sent := l.sent + [ev.payload]));
    } else {
      AwaitingKeepsInv(s, k, ev.payload, l.(sent := l.sent + [ev.payload], broken := true));
    }
    if !ev.sendOk {
      ClosingKeepsInv(s);
      var l' := if ev.delivered then l.(down := l.down + [ev.payload], sent := l.sent + [ev.payload]) else l;
      var s' := With(s, k, l').(closed := true);
      assert !ev.delivered ==> s' == s.(closed := true);
      FailedCallKeepsInv(s', k, ev.payload, Disconnected);
    }
  }

  lemma ReplyIsTruthful(l: Link, k: Kind, payload: string)
    requires l.attached && Ordered(l) && l.up != []
    requires |l.sent| == l.got + 1 && l.sent[l.got] == payload
    ensures Truthful(l.(up := l.up[1..], got := l.got + 1), Call(k, payload, Some(l.got), ReplyOf(l.up[0])))
  {
    assert l.up[0] == EncodeResult(l.ran[l.got].1);
  }

  // The result of the awaited command arrives.
  lemma InvFromReply(s: State, k: Kind, payload: string, l: Link, c: Call)
    requires Inv(s) && s.agent == Awaiting(k, payload) && LinkInv(l) && l.attached
    requires l.sent == At(s, k).sent && l.ran == At(s, k).ran && l.got == At(s, k).got + 1
    requires c.kind == k && c.index == Some(At(s, k).got) && Truthful(l, c)
    ensures Inv(With(s, k, l).(agent := Idle, calls := s.calls + [c]))
  {
    assert AgentInStep(s, k);
    CallLogged(s, With(s, k, l).(agent := Idle, calls := s.calls + [c]), c);
  }

  lemma ReplyShape(s: State, k: Kind, payload: string)
    requires s.agent == Awaiting(k, payload) && At(s, k).up != []
    ensures var l := At(s, k);
      Step(s, ReceiveReply) ==
        With(s, k, Received(l)).(agent := Idle, calls := s.calls + [CallOf(l, k, payload)])
  {
  }

  // What the invariant says about the stream on which a reply arrives.
  lemma AwaitedLink(s: State, k: Kind, payload: string)
    requires Inv(s) && s.agent == Awaiting(k, payload)
    ensures var l := At(s, k);
      LinkInv(l) && l.attached && Ordered(l) && |l.sent| == l.got + 1 && l.sent[l.got] == payload
  {
    assert AgentInStep(s, k);
  }

  function Received(l: Link): Link
    requires l.up != []
  {
    l.(up := l.up[1..], got := l.got + 1)
  }

  function CallOf(l: Link, k: Kind, payload: string): Call
    requires l.up != []
  {
    Call(k, payload, Some(l.got), ReplyOf(l.up[0]))
  }

  lemma ReceivedLink(s: State, k: Kind, payload: string)
    requires Inv(s) && s.agent == Awaiting(k, payload) && At(s, k).up != []
    ensures At(s, k).attached && LinkInv(Received(At(s, k)))
    ensures Truthful(Received(At(s, k)), CallOf(At(s, k), k, payload))
  {
    AwaitedLink(s, k, payload);
    ReceiveKeepsLink(At(s, k));
    ReplyIsTruthful(At(s, k), k, payload);
  }

  lemma ReplyKeepsInv(s: State)
    requires Inv(s) && Possible(s, ReceiveReply)
    ensures Inv(Step(s, ReceiveReply))
  {
    var Awaiting(k, payload) := s.agent;
    ReceivedLink(s, k, payload);
    InvFromReply(s, k, payload, Received(At(s, k)), CallOf(At(s, k), k, payload));
    ReplyShape(s, k, payload);
  }

  lemma LinkEventKeepsInv(s: State, k: Kind, ev: Event)
    requires Inv(s) && PossibleOnLink(At(s, k), ev)
    ensures Inv(With(s, k, LinkStep(At(s, k), ev)))
  {
    LinkStepKeepsLink(At(s, k), ev);
    InvFromLink(s, k, LinkStep(At(s, k), ev));
  }

  lemma StepKeepsInv(s: State, ev: Event)
    requires Inv(s) && Possible(s, ev)
    ensures Inv(Step(s, ev))
  {
    match ev
    case Send(_, _, _, _) => SendKeepsInv(s, ev);
    case ReceiveReply => ReplyKeepsInv(s);
    case ReceiveFails =>
      ClosingKeepsInv(s);
      FailedCallKeepsInv(s.(closed := true), s.agent.kind, s.agent.payload, Disconnected);
    case Close => ClosingKeepsInv(s);
    case _ => LinkEventKeepsInv(s, ev.k, ev);
  }

  /** A closed client sends nothing more, so no later result can be taken for another command's. */
  lemma ClosedSendsNothing(s: State, ev: Event, k: Kind)
    requires Possible(s, ev) && s.closed
    ensures Step(s, ev).closed && At(Step(s, ev), k).sent == At(s, k).sent
  {
  }

  ghost predicate IsRun(states: seq<State>, events: seq<Event>) {
    && |states| == |events| + 1 && states[0] == START
    && forall i :: 0 <= i < |events| ==> Possible(states[i], events[i]) && states[i + 1] == Step(states[i], events[i])
  }

  lemma {:induction false} ReachableInv(states: seq<State>, events: seq<Event>, n: nat)
    requires IsRun(states, events) && n < |states|
    ensures Inv(states[n])
  {
    if n > 0 {
      ReachableInv(states, events, n - 1);
      StepKeepsInv(states[n - 1], events[n - 1]);
    }
  }

  ghost predicate RanWith(s: State, c: Call, err: Error) {
    var ran := At(s, c.kind).ran;
    c.index.Some? && c.index.value < |ran| && ran[c.index.value] == (c.payload, err)
  }

  /**
   A call that reports success, or an error of the command, did run: the service ran its callback on
   exactly this command with exactly this result, and different calls stand for different runs.
   */
  lemma RepliesArePaired(states: seq<State>, events: seq<Event>, n: nat, c: nat, d: nat)
    requires IsRun(states, events) && n < |states| && c < |states[n].calls| && d < |states[n].calls|
    ensures var call := states[n].calls[c];
      match call.reply
      case Succeeded => exists err :: err in {None, Some("")} && RanWith(states[n], call, err)
      case CommandError(text) => RanWith(states[n], call, Some(text))
      case NotAResult => false
      case _ => true
    ensures c != d && BothAnswered(states[n].calls[c], states[n].calls[d]) ==>
      states[n].calls[c].index != states[n].calls[d].index
  {
    ReachableInv(states, events, n);
    var s := states[n];
    var call := s.calls[c];
    assert Truthful(At(s, call.kind), call);
    assert call.reply == Succeeded ==> RanWith(s, call, None) || RanWith(s, call, Some(""));
  }

  // ---------------------------------------------------------------- what gets through

  /** A handshake takes the first message, and attaches the stream exactly when it is a name that is not empty. */
  lemma HandshakeIff(l: Link, k: Kind)
    requires PossibleOnLink(l, Handshake(k))
    ensures var l' := LinkStep(l, Handshake(k));
      && (l'.attached <==> exists name :: name != "" && l.up[0] == WslName(name))
      && (l'.broken <==> l.broken || !l'.attached)
      && l'.up == l.up[1..] && l'.down == l.down && l'.sent == l.sent && l'.ran == l.ran && l'.service == l.service
  {
  }

  /** A command is refused, and nothing is sent, exactly when the client is closed or the stream is not attached. */
  lemma SendRefusedIff(s: State, k: Kind, payload: string, sendOk: bool, delivered: bool)
    requires Possible(s, Send(k, payload, sendOk, delivered))
    ensures var s' := Step(s, Send(k, payload, sendOk, delivered));
      && (s.closed ==> s' == s.(calls := s.calls + [Call(k, payload, None, Closed)]))
      && (!s.closed && !At(s, k).attached ==> s' == s.(calls := s.calls + [Call(k, payload, None, NoStream)]))
      && (!s.closed && At(s, k).attached ==>
            if sendOk then s'.agent == Awaiting(k, payload) && s'.calls == s.calls && !s'.closed
            else s'.agent == Idle && s'.calls == s.calls + [Call(k, payload, None, Disconnected)] && s'.closed)
  {
  }

  /** The client is open and idle, and the stream is attached, whole and empty, with the service waiting for a command. */
  predicate Ready(s: State, k: Kind) {
    var l := At(s, k);
    && !s.closed && s.agent == Idle
    && l.attached && !l.broken && l.down == [] && l.up == [] && l.service == Receiving
  }

  /** A whole call: the command goes down, is run, and its result comes up. */
  function CallEvents(k: Kind, payload: string, result: Error): seq<Event> {
    [Send(k, payload, true, true), RunCommand(k, result), Answer(k, true), ReceiveReply]
  }

  predicate AllPossible(s: State, events: seq<Event>)
    decreases |events|
  {
    events == [] || (Possible(s, events[0]) && AllPossible(Step(s, events[0]), events[1..]))
  }

  function After(s: State, events: seq<Event>): State
    requires AllPossible(s, events)
    decreases |events|
  {
    if events == [] then s else After(Step(s, events[0]), events[1..])
  }

  lemma OneMore(s: State, ev: Event, events: seq<Event>)
    requires Possible(s, ev) && AllPossible(Step(s, ev), events)
    ensures AllPossible(s, [ev] + events) && After(s, [ev] + events) == After(Step(s, ev), events)
  {
    assert ([ev] + events)[1..] == events;
  }

  lemma FourSteps(s: State, a: Event, b: Event, c: Event, d: Event)
    requires Possible(s, a) && Possible(Step(s, a), b) && Possible(Step(Step(s, a), b), c)
    requires Possible(Step(Step(Step(s, a), b), c), d)
    ensures AllPossible(s, [a, b, c, d]) && After(s, [a, b, c, d]) == Step(Step(Step(Step(s, a), b), c), d)
  {
    TwoSteps(Step(Step(s, a), b), c, d);
    assert [b] + [c, d] == [b, c, d] && [a] + [b, c, d] == [a, b, c, d];
    OneMore(Step(s, a), b, [c, d]);
    OneMore(s, a, [b, c, d]);
  }

  lemma TwoSteps(s: State, c: Event, d: Event)
    requires Possible(s, c) && Possible(Step(s, c), d)
    ensures AllPossible(s, [c, d]) && After(s, [c, d]) == Step(Step(s, c), d)
  {
    OneMore(Step(s, c), d, []);
    assert [d] + [] == [d] && [c] + [d] == [c, d];
    OneMore(s, c, [d]);
  }

  /** The state in the middle of a call on a ready stream. */
  function Sent(s: State, k: Kind, payload: string): State {
    var l := At(s, k);
    With(s, k, l.(down := l.down + [payload], sent := l.sent + [payload])).(agent := Awaiting(k, payload))
  }

  function Ran(s: State, k: Kind, payload: string, result: Error): State {
    var l := At(s, k);
    With(s, k, l.(sent := l.sent + [payload], ran := l.ran + [(payload, result)], service := Answering(result)))
      .(agent := Awaiting(k, payload))
  }

  function Answered(s: State, k: Kind, payload: string, result: Error): State {
    var l := At(s, k);
    With(s, k, l.(sent := l.sent + [payload], ran := l.ran + [(payload, result)], up := [EncodeResult(result)]))
      .(agent := Awaiting(k, payload))
  }

  lemma SentIs(s: State, k: Kind, payload: string)
    requires Ready(s, k)
    ensures Possible(s, Send(k, payload, true, true)) && Step(s, Send(k, payload, true, true)) == Sent(s, k, payload)
  {
  }

  lemma RanIs(s: State, k: Kind, payload: string, result: Error)
    requires Ready(s, k)
    ensures Possible(Sent(s, k, payload), RunCommand(k, result))
    ensures Step(Sent(s, k, payload), RunCommand(k, result)) == Ran(s, k, payload, result)
  {
    assert At(Sent(s, k, payload), k).down == [payload] && [payload][1..] == [];
  }

  lemma AnsweredIs(s: State, k: Kind, payload: string, result: Error)
    requires Ready(s, k)
    ensures Possible(Ran(s, k, payload, result), Answer(k, true))
    ensures Step(Ran(s, k, payload, result), Answer(k, true)) == Answered(s, k, payload, result)
  {
  }

  /** The reply to a command that returned this. */
  lemma ReplyReports(s: State, k: Kind, payload: string, result: Error)
    requires Ready(s, k)
    ensures Possible(Answered(s, k, payload, result), ReceiveReply)
    ensures var s' := Step(Answered(s, k, payload, result), ReceiveReply);
      && |s'.calls| == |s.calls| + 1 && s'.calls[..|s.calls|] == s.calls
      && s'.calls[|s.calls|].kind == k && s'.calls[|s.calls|].payload == payload
      && (s'.calls[|s.calls|].reply == Succeeded <==> result in {None, Some("")})
      && (result.Some? && result.value != "" ==> s'.calls[|s.calls|].reply == CommandError(result.value))
      && At(s', k).ran == At(s, k).ran + [(payload, result)]
      && Ready(s', k) && forall other :: other != k ==> At(s', other) == At(s, other)
  {
  }

  /**
   On a ready stream every command gets through: exactly one call is logged, with this payload. It reports
   success if the callback returned no error or one without a text, and otherwise that error. The stream is
   ready for the next command, and the other one is as it was.
   */
  lemma CallGetsThrough(s: State, k: Kind, payload: string, result: Error)
    requires Ready(s, k)
    ensures AllPossible(s, CallEvents(k, payload, result))
    ensures var s' := After(s, CallEvents(k, payload, result));
      && |s'.calls| == |s.calls| + 1 && s'.calls[..|s.calls|] == s.calls
      && s'.calls[|s.calls|].kind == k && s'.calls[|s.calls|].payload == payload
      && (s'.calls[|s.calls|].reply == Succeeded <==> result in {None, Some("")})
      && (result.Some? && result.value != "" ==> s'.calls[|s.calls|].reply == CommandError(result.value))
      && At(s', k).ran == At(s, k).ran + [(payload, result)]
      && Ready(s', k) && forall other :: other != k ==> At(s', other) == At(s, other)
  {
    SentIs(s, k, payload);
    RanIs(s, k, payload, result);
    AnsweredIs(s, k, payload, result);
    ReplyReports(s, k, payload, result);
    FourSteps(s, Send(k, payload, true, true), RunCommand(k, result), Answer(k, true), ReceiveReply);
  }

  /** A new stream whose service has sent a name is ready after the handshake. */
  lemma NamedStreamIsReady(s: State, k: Kind, name: string)
    requires !s.closed && s.agent == Idle && At(s, k) == NEW_LINK && name != ""
    ensures Possible(s, SendName(k, name)) && Possible(Step(s, SendName(k, name)), Handshake(k))
    ensures var s' := Step(Step(s, SendName(k, name)), Handshake(k)); Ready(s', k) && s'.calls == s.calls
  {
    assert At(Step(s, SendName(k, name)), k).up == [WslName(name)];
  }

  /** From the start: a distro connects, a token or a configuration is sent, and it arrives. */
  lemma FirstCallSucceedsRun(k: Kind, name: string, payload: string)
    requires name != ""
    ensures Possible(START, SendName(k, name)) && Possible(Step(START, SendName(k, name)), Handshake(k))
    ensures var ready := Step(Step(START, SendName(k, name)), Handshake(k));
      && AllPossible(ready, CallEvents(k, payload, None))
      && var calls := After(ready, CallEvents(k, payload, None)).calls;
         |calls| == 1 && calls[0].kind == k && calls[0].payload == payload && calls[0].reply == Succeeded
  {
    NamedStreamIsReady(START, k, name);
    var ready := Step(Step(START, SendName(k, name)), Handshake(k));
    CallGetsThrough(ready, k, payload, None);
    var call := After(ready, CallEvents(k, payload, None)).calls[0];
    assert call.reply == Succeeded;
  }

  /** When the command cannot be sent, the caller learns that the connection broke, and the service runs nothing. */
  lemma BrokenBeforeSending(s: State, k: Kind, payload: string)
    requires Ready(s, k)
    ensures Possible(s, Send(k, payload, false, false))
    ensures var s' := Step(s, Send(k, payload, false, false));
      && s'.calls == s.calls + [Call(k, payload, None, Disconnected)] && s'.closed
      && At(s', k).ran == At(s, k).ran && At(s', k).down == []
  {
  }

  /** The stream breaks while the service runs the command: the caller learns the same, but the command did run. */
  lemma BrokenAfterRunning(s: State, k: Kind, payload: string, result: Error)
    requires Ready(s, k)
    ensures Possible(s, Send(k, payload, true, true))
    ensures var s1 := Step(s, Send(k, payload, true, true));
      Possible(s1, RunCommand(k, result)) &&
      var s2 := Step(s1, RunCommand(k, result));
      Possible(s2, Break(k, 0, 0)) &&
      var s3 := Step(s2, Break(k, 0, 0));
      && Possible(s3, Answer(k, false)) && At(Step(s3, Answer(k, false)), k).service == Stopped
      && Possible(s3, ReceiveFails)
      && Step(s3, ReceiveFails).calls == s.calls + [Call(k, payload, None, Disconnected)] && Step(s3, ReceiveFails).closed
      && At(Step(s3, ReceiveFails), k).ran == At(s, k).ran + [(payload, result)]
  {
    assert At(Step(s, Send(k, payload, true, true)), k).down == [payload];
  }

  /** Whoever was told that the connection broke was told by a client that is closed from then on. */
  lemma {:induction false} DisconnectedMeansClosed(states: seq<State>, events: seq<Event>, n: nat)
    requires IsRun(states, events) && n < |states|
    ensures (exists c :: c in states[n].calls && c.reply == Disconnected) ==> states[n].closed
  {
    if n > 0 {
      DisconnectedMeansClosed(states, events, n - 1);
      ClosesOnDisconnect(states[n - 1], events[n - 1]);
    }
  }

  lemma ClosesOnDisconnect(s: State, ev: Event)
    requires Possible(s, ev) && ((exists c :: c in s.calls && c.reply == Disconnected) ==> s.closed)
    ensures (exists c :: c in Step(s, ev).calls && c.reply == Disconnected) ==> Step(s, ev).closed
  {
    assert s.calls <= Step(s, ev).calls;
    if !s.closed && (ev.ReceiveReply? || ev.Send?) {
      assert forall c :: c in s.calls ==> c.reply != Disconnected;
    }
  }
}

/** Whole runs of the configuration store: do the Pro observers always learn the token that is in force? */
module ConfigRuns {
  import opened Options
  import opened Configs

  /**
   `last` is the latest token that the registry provided, and `primed` says that this process has received
   it; `told` is what the observers were told last, nothing told being no token.
   */
  datatype Run = Run(config: Snapshot, last: string, primed: bool, told: string)

  type TokenField = f: Field | f != UserLandscape witness UserToken

  /**
   A setter runs in one go, or it commits some time after its priority check, with other steps in between.
   The notices that setters and pushes owe go out later, one by one, in any order.
   */
  datatype Event =
    | SetToken(field: TokenField, value: string, readable: bool, readableAgain: bool, writable: bool)
    | CommitToken(field: TokenField, value: string, readable: bool, writable: bool)
    | Push(token: string, conf: string, readable: bool, writable: bool)
    | LandscapeUpdate(landscape: Landscape, dumped: bool)
    | Deliver(i: nat)
    | Restart

  const START := Run(Snapshot(EMPTY, None, []), "", false, "")

  /** What is in memory is gone, notices that have not gone out included. */
  function Restarted(r: Run): Run {
    Run(r.config.(state := EMPTY, due := []), r.last, false, r.told)
  }

  /** The Landscape setters load the file and may dump it; they leave the subscription alone. */
  function AfterLandscapeUpdate(w: Snapshot, landscape: Landscape, dumped: bool): Snapshot {
    var s := LoadedOver(w.state, w.file).(landscape := landscape);
    w.(state := s, file := if dumped then Some(ToFile(s)) else w.file)
  }

  function Delivered(r: Run, i: nat): Run
    requires i < |r.config.due|
  {
    r.(told := r.config.due[i], config := r.config.(due := r.config.due[..i] + r.config.due[i + 1..]))
  }

  predicate Possible(r: Run, ev: Event) {
    ev.Deliver? ==> ev.i < |r.config.due|
  }

  function Step(r: Run, ev: Event, hash: string -> string, complete: Completion): Run
    requires Possible(r, ev)
  {
    match ev
    case SetToken(field, value, readable, readableAgain, writable) =>
      r.(config := AfterSet(r.config, field, value, readable, readableAgain, writable))
    case CommitToken(field, value, readable, writable) =>
      r.(config := AfterCommit(r.config, field, value, readable, writable))
    case Push(token, conf, readable, writable) =>
      Run(AfterPush(r.config, token, conf, readable, writable, hash, complete),
          if readable then token else r.last, r.primed || readable, r.told)
    case LandscapeUpdate(landscape, dumped) => r.(config := AfterLandscapeUpdate(r.config, landscape, dumped))
    case Deliver(i) => Delivered(r, i)
    case Restart => Restarted(r)
  }

  /** The stored tokens under the latest registry token. */
  function Tokens(r: Run): Subscription {
    FromFile(r.config.file).subscription.(organization := r.last)
  }

  /** The token in force. */
  function InForce(r: Run): string {
    Tokens(r).Resolve().0
  }

  ghost predicate ObserversInSync(r: Run) {
    r.told == InForce(r)
  }

  /** What the observers know once the notices that are due have gone out in the order of their commits. */
  function Settled(r: Run): Run {
    var due := r.config.due;
    r.(config := r.config.(due := []), told := if due == [] then r.told else due[|due| - 1])
  }

  ghost predicate OnCourse(r: Run) {
    ObserversInSync(Settled(r))
  }

  ghost predicate Inv(r: Run, hash: string -> string) {
    && OnCourse(r)
    && Tokens(r).checksum == Digest(hash, r.last)
    && r.config.state.subscription.organization == (if r.primed then r.last else "")
  }

  // ---------------------------------------------------------------- which steps keep the observers on course

  /** A setter changes the file: everything can be read and written, and the value is new. */
  predicate Writes(r: Run, field: TokenField, value: string, readable: bool, writable: bool) {
    readable && writable && Get(FromFile(r.config.file), field) != value
  }

  /** Nothing overrides a new token of this source, and it overrides what is below. */
  predicate Prevails(s: Subscription, field: TokenField, value: string) {
    if s.organization != "" then s.organization == value
    else if field == UserToken then s.store == "" || s.store == value
    else value != "" || s.user == ""
  }

  /** What a setter sees when it checks its priority: the registry's token only if this process has received it. */
  predicate Passes(r: Run, field: TokenField) {
    !Outranked(LoadedOver(r.config.state, r.config.file), field)
  }

  /**
   A token setter keeps the observers on course if it is refused, writes nothing, or brings a token that
   prevails. A push must be dumped, unless it repeats the latest token. The newest notice must not go out
   before a different one that is due, and must not get lost in a restart, unless it is no news.
   */
  predicate Expected(r: Run, ev: Event) {
    var due := r.config.due;
    match ev
    case SetToken(field, value, readable, readableAgain, writable) =>
      readable && Passes(r, field) && Writes(r, field, value, readableAgain, writable) ==>
        Prevails(Tokens(r), field, value)
    case CommitToken(field, value, readable, writable) =>
      Writes(r, field, value, readable, writable) ==> Prevails(Tokens(r), field, value)
    case Push(token, _, readable, writable) => readable && !writable ==> token == r.last
    case LandscapeUpdate(_, _) => true
    case Deliver(i) => |due| >= 2 && i == |due| - 1 ==> due[i - 1] == due[i]
    case Restart => due != [] ==> r.told == due[|due| - 1]
  }

  /**
   A setter of either token, at any time, keeps the observers on course exactly when it is refused, writes
   nothing, or the new token prevails. It fails for an empty store token that uncovers a user token, and
   before the first push after a restart, when the registry's token cannot refuse it yet.
   */
  lemma SetTokenInSyncIff(r: Run, ev: Event, hash: string -> string, complete: Completion)
    requires Inv(r, hash) && (ev.SetToken? || ev.CommitToken?)
    ensures OnCourse(Step(r, ev, hash, complete)) <==> Expected(r, ev)
    ensures Inv(Step(r, ev, hash, complete), hash) <==> Expected(r, ev)
  {
    match ev
    case SetToken(field, value, readable, readableAgain, writable) =>
      UninterruptedSetter(r, ev);
      if readable && Passes(r, field) {
        CommitInSyncIff(Loaded(r), field, value, readableAgain, writable, hash);
      }
    case CommitToken(field, value, readable, writable) =>
      CommitInSyncIff(r, field, value, readable, writable, hash);
  }

  /** The run after the configuration was loaded. */
  function Loaded(r: Run): Run {
    r.(config := r.config.(state := LoadedOver(r.config.state, r.config.file)))
  }

  // A setter that passes its check is a load and a commit.
  lemma UninterruptedSetter(r: Run, ev: Event)
    requires ev.SetToken?
    ensures AfterSet(r.config, ev.field, ev.value, ev.readable, ev.readableAgain, ev.writable) ==
      if !ev.readable then r.config
      else if !Passes(r, ev.field) then Loaded(r).config
      else AfterCommit(Loaded(r).config, ev.field, ev.value, ev.readableAgain, ev.writable)
  {
  }

  lemma CommitInSyncIff(r: Run, field: TokenField, value: string, readable: bool, writable: bool,
                        hash: string -> string)
    requires Inv(r, hash)
    ensures var r' := r.(config := AfterCommit(r.config, field, value, readable, writable));
      && (OnCourse(r') <==> (Writes(r, field, value, readable, writable) ==> Prevails(Tokens(r), field, value)))
      && (OnCourse(r') ==> Inv(r', hash))
  {
    if Writes(r, field, value, readable, writable) {
      Committed(r, field, value);
    }
  }

  lemma Committed(r: Run, field: TokenField, value: string)
    requires Writes(r, field, value, true, true)
    ensures var r' := r.(config := AfterCommit(r.config, field, value, true, true));
      && Settled(r').told == value
      && Tokens(r') == (if field == UserToken then Tokens(r).(user := value) else Tokens(r).(store := value))
      && (InForce(r') == value <==> Prevails(Tokens(r), field, value))
  {
  }

  lemma PushKeepsInvIff(r: Run, ev: Event, hash: string -> string, complete: Completion)
    requires GoodHash(hash) && Inv(r, hash) && ev.Push?
    ensures OnCourse(Step(r, ev, hash, complete))
    ensures Inv(Step(r, ev, hash, complete), hash) <==> Expected(r, ev)
  {
    DigestInjective(hash, r.last, ev.token);
  }

  /** The notices that are still due after one went out end as before, unless it was the newest. */
  lemma DeliverOnCourseIff(r: Run, i: nat)
    requires OnCourse(r) && i < |r.config.due|
    ensures OnCourse(Delivered(r, i)) <==> Expected(r, Deliver(i))
    ensures |r.config.due| == 1 ==> ObserversInSync(Delivered(r, i))
  {
    var due, left := r.config.due, Delivered(r, i).config.due;
    assert Tokens(Delivered(r, i)) == Tokens(r);
    if |due| >= 2 {
      assert left[|left| - 1] == if i == |due| - 1 then due[|due| - 2] else due[|due| - 1];
    }
  }

  /** A step keeps the invariant exactly when it is expected. */
  lemma StepKeepsInvIff(r: Run, ev: Event, hash: string -> string, complete: Completion)
    requires GoodHash(hash) && Inv(r, hash) && Possible(r, ev)
    ensures Inv(Step(r, ev, hash, complete), hash) <==> Expected(r, ev)
  {
    match ev
    case SetToken(_, _, _, _, _) => SetTokenInSyncIff(r, ev, hash, complete);
    case CommitToken(_, _, _, _) => SetTokenInSyncIff(r, ev, hash, complete);
    case Push(_, _, _, _) => PushKeepsInvIff(r, ev, hash, complete);
    case Deliver(i) => DeliverOnCourseIff(r, i);
    case _ =>
  }

  /** In an uninterrupted setter after the first push, an empty store token is the only one that fails to prevail. */
  lemma PrimedSetterIff(r: Run, field: TokenField, value: string, hash: string -> string)
    requires Inv(r, hash) && r.primed && Passes(r, field)
    ensures Prevails(Tokens(r), field, value) <==> !(field == StoreToken && value == "" && Tokens(r).user != "")
  {
  }

  ghost predicate IsRun(states: seq<Run>, events: seq<Event>, hash: string -> string, complete: Completion) {
    && |states| == |events| + 1 && states[0] == START
    && forall i :: 0 <= i < |events| ==>
      Possible(states[i], events[i]) && states[i + 1] == Step(states[i], events[i], hash, complete)
  }

  /**
   Over every run of expected steps, restarts included: whenever no notice is due, the observers were last
   told the token in force, and otherwise the notices that are due will tell them.
   */
  lemma {:induction false} ObserversInSyncOnEveryRun(states: seq<Run>, events: seq<Event>, n: nat,
                                                     hash: string -> string, complete: Completion)
    requires GoodHash(hash) && IsRun(states, events, hash, complete) && n < |states|
    requires forall i :: 0 <= i < |events| ==> Expected(states[i], events[i])
    ensures Inv(states[n], hash)
    ensures states[n].config.due == [] ==> ObserversInSync(states[n])
  {
    if n > 0 {
      ObserversInSyncOnEveryRun(states, events, n - 1, hash, complete);
      StepKeepsInvIff(states[n - 1], events[n - 1], hash, complete);
    }
  }

  // ---------------------------------------------------------------- delivering everything that is due

  /** An order in which everything that is due can go out: each number is a position in what is left. */
  predicate Drains(order: seq<nat>, n: nat) {
    |order| == n && forall k :: 0 <= k < n ==> order[k] < n - k
  }

  function Drained(r: Run, order: seq<nat>): Run
    requires Drains(order, |r.config.due|)
    decreases |order|
  {
    if order == [] then r else
      assert forall k :: 0 <= k < |order| - 1 ==> order[1..][k] == order[k + 1];
      Drained(Delivered(r, order[0]), order[1..])
  }

  /** The notice that goes out last. */
  function LastOut(due: seq<string>, order: seq<nat>): string
    requires due != [] && Drains(order, |due|)
    decreases |order|
  {
    if |due| == 1 then due[0] else
      assert forall k :: 0 <= k < |order| - 1 ==> order[1..][k] == order[k + 1];
      LastOut(due[..order[0]] + due[order[0] + 1..], order[1..])
  }

  lemma {:induction false} DrainedTells(r: Run, order: seq<nat>)
    requires r.config.due != [] && Drains(order, |r.config.due|)
    ensures Drained(r, order).config.due == [] && Drained(r, order).told == LastOut(r.config.due, order)
    ensures Tokens(Drained(r, order)) == Tokens(r)
    decreases |order|
  {
    assert forall k :: 0 <= k < |order| - 1 ==> order[1..][k] == order[k + 1];
    var r' := Delivered(r, order[0]);
    if |order| > 1 {
      DrainedTells(r', order[1..]);
    } else {
      assert Drained(r', order[1..]) == r';
    }
  }

  /** However the notices that are due go out, the observers end in sync exactly when the last says what the newest says. */
  lemma AllDeliveredIff(r: Run, order: seq<nat>)
    requires OnCourse(r) && r.config.due != [] && Drains(order, |r.config.due|)
    ensures ObserversInSync(Drained(r, order)) <==> LastOut(r.config.due, order) == r.config.due[|r.config.due| - 1]
  {
    DrainedTells(r, order);
  }

  // ---------------------------------------------------------------- pushes that cannot be dumped

  /**
   A push that cannot be dumped is announced, but the file does not learn of it, so that going back to the
   old token is not announced: this matters exactly when the two tokens resolve differently.
   */
  lemma RevertAfterUndumpedPushInSyncIff(r: Run, token: string, conf: string,
                                         hash: string -> string, complete: Completion)
    requires GoodHash(hash) && Inv(r, hash) && token != r.last
    ensures var undumped := Step(r, Push(token, conf, true, false), hash, complete);
      OnCourse(Step(undumped, Push(r.last, conf, true, true), hash, complete)) <==>
        InForce(r.(last := token)) == InForce(r)
  {
    DigestInjective(hash, r.last, token);
  }

  /**
   The Landscape configuration from the registry is kept in memory only when it changed, so after a
   restart with the same registry data it is back exactly when there is none.
   */
  lemma RegistryLandscapeSurvivesRestartIff(r: Run, token: string, conf: string,
                                            hash: string -> string, complete: Completion)
    requires r.config.file.Some?
    requires var c := Complete(complete, conf, r.config.file.value.uid);
      c.Some? && r.config.file.value.landscapeChecksum == Digest(hash, c.value)
    ensures Step(Restarted(r), Push(token, conf, true, true), hash, complete).config.state.landscape.orgConfig ==
            Complete(complete, conf, r.config.file.value.uid).value
            <==> Complete(complete, conf, r.config.file.value.uid) == Some("")
  {
  }

  // ---------------------------------------------------------------- runs from the start that fail

  function Set(field: TokenField, value: string): Event {
    SetToken(field, value, true, true, true)
  }

  function Pushed(token: string): Event {
    Push(token, "", true, true)
  }

  /** A step whose notice, if any, goes out at once. */
  function Then(r: Run, ev: Event, hash: string -> string, complete: Completion): Run
    requires Possible(r, ev)
  {
    Settled(Step(r, ev, hash, complete))
  }

  // With at most one notice on its way, settling is delivering it.
  lemma ThenDelivers(r: Run, ev: Event, hash: string -> string, complete: Completion)
    requires Possible(r, ev) && r.config.due == []
    ensures var s := Step(r, ev, hash, complete);
      |s.config.due| <= 1 && Then(r, ev, hash, complete) == if s.config.due == [] then s else Delivered(s, 0)
  {
  }

  /** What works: a user token and another one in its place reach the observers, and the last one is in the file. */
  lemma ReplacedTokenRun(hash: string -> string, complete: Completion)
    ensures var first := Then(START, Set(UserToken, "one"), hash, complete);
      var second := Then(first, Set(UserToken, "two"), hash, complete);
      && first.told == "one" && second.told == "two" && ObserversInSync(second)
      && StoredField(second.config.file, UserToken) == "two"
  {
    var first := Then(START, Set(UserToken, "one"), hash, complete);
    SetterIff(START.config, UserToken, "one", true, true, true);
    SetterIff(first.config, UserToken, "two", true, true, true);
  }

  /** A store token takes over from a user token, and the registry's from both. */
  lemma HigherSourceRun(hash: string -> string, complete: Completion)
    requires GoodHash(hash)
    ensures var user := Then(START, Set(UserToken, "user"), hash, complete);
      var store := Then(user, Set(StoreToken, "store"), hash, complete);
      var registry := Then(store, Pushed("registry"), hash, complete);
      store.told == "store" && registry.told == "registry" && ObserversInSync(registry)
  {
    var user := Then(START, Set(UserToken, "user"), hash, complete);
    SetterIff(START.config, UserToken, "user", true, true, true);
    SetterIff(user.config, StoreToken, "store", true, true, true);
  }

  /** The store's token is taken away: observers are told that there is none, but the user's is in force. */
  lemma EmptyStoreTokenRun(hash: string -> string, complete: Completion)
    requires GoodHash(hash)
    ensures var user := Then(START, Set(UserToken, "user"), hash, complete);
      var stored := Then(user, Set(StoreToken, "store"), hash, complete);
      ObserversInSync(stored) && !ObserversInSync(Then(stored, Set(StoreToken, ""), hash, complete))
  {
    var user := Then(START, Set(UserToken, "user"), hash, complete);
    assert user.told == "user" && user.config.file.Some?;
  }

  /** After a restart the registry's token is not known yet, so a user or store token is accepted and announced. */
  lemma TokenBeforePushRun(field: TokenField, hash: string -> string, complete: Completion)
    requires GoodHash(hash)
    ensures var restarted := Then(Then(START, Pushed("registry"), hash, complete), Restart, hash, complete);
      ObserversInSync(restarted) && !ObserversInSync(Then(restarted, Set(field, "own"), hash, complete))
  {
    assert Then(START, Pushed("registry"), hash, complete).told == "registry";
  }

  /** A user token passes its priority check, the registry pushes, and then the user token is committed. */
  lemma OvertakenSetterRun(hash: string -> string, complete: Completion)
    requires GoodHash(hash)
    ensures Passes(START, UserToken)
    ensures var pushed := Then(START, Pushed("registry"), hash, complete);
      ObserversInSync(pushed) &&
      !ObserversInSync(Then(pushed, CommitToken(UserToken, "user", true, true), hash, complete))
  {
  }

  /** A registry token that could not be dumped is announced; taking it back is not. */
  lemma RevertedPushRun(hash: string -> string, complete: Completion)
    requires GoodHash(hash)
    ensures var undumped := Then(START, Push("new", "", true, false), hash, complete);
      ObserversInSync(undumped) && !ObserversInSync(Then(undumped, Pushed(""), hash, complete))
  {
  }

  /** A user token and then a registry token are committed, and the notice of the user token goes out last. */
  lemma ReorderedNoticesRun(hash: string -> string, complete: Completion)
    requires GoodHash(hash)
    ensures var r := Step(Step(START, Set(UserToken, "user"), hash, complete), Pushed("registry"), hash, complete);
      && |r.config.due| == 2 && OnCourse(r) && ObserversInSync(Delivered(Delivered(r, 0), 0))
      && !ObserversInSync(Delivered(Delivered(r, 1), 0)) && Delivered(Delivered(r, 1), 0).told == "user"
  {
    var user := Step(START, Set(UserToken, "user"), hash, complete);
    assert user.config.due == ["user"] && user.config.file.Some?;
    var r := Step(user, Pushed("registry"), hash, complete);
    assert r.config.due == ["user", "registry"] && InForce(r) == "registry";
  }

  /** A restart before the notice of a registry token has gone out: the same token is not announced again. */
  lemma LostNoticeRun(hash: string -> string, complete: Completion)
    requires GoodHash(hash)
    ensures var restarted := Step(Step(START, Pushed("registry"), hash, complete), Restart, hash, complete);
      var r := Step(restarted, Pushed("registry"), hash, complete);
      r.config.due == [] && !ObserversInSync(r)
  {
  }

  /** The Landscape configuration of the registry is gone from memory after a restart and an unchanged push. */
  lemma LostLandscapeRun(conf: string, hash: string -> string, complete: Completion)
    requires GoodHash(hash) && conf != "" && complete(conf, "") == Some(conf)
    ensures var push := Push("", conf, true, true);
      var pushed := Step(START, push, hash, complete);
      && pushed.config.state.landscape.orgConfig == conf
      && Step(Step(pushed, Restart, hash, complete), push, hash, complete).config.state.landscape.orgConfig == ""
  {
  }
}

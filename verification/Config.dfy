/**
 The configuration store: prioritised sources for the Pro token and the Landscape configuration, a file
 that holds everything but what came from the registry, and the observers that are told about changes.
 */
module Configs {
  import opened Options

  datatype Source = SourceNone | SourceUser | SourceMicrosoftStore | SourceRegistry

  function Rank(s: Source): nat {
    match s
    case SourceNone => 0
    case SourceUser => 1
    case SourceMicrosoftStore => 2
    case SourceRegistry => 3
  }

  datatype Subscription = Subscription(user: string, store: string, organization: string, checksum: string) {
    function Resolve(): (string, Source) {
      if organization != "" then (organization, SourceRegistry)
      else if store != "" then (store, SourceMicrosoftStore)
      else if user != "" then (user, SourceUser)
      else ("", SourceNone)
    }
  }

  datatype Landscape = Landscape(userConfig: string, orgConfig: string, uid: string, checksum: string) {
    function Resolve(): (string, Source) {
      if orgConfig != "" then (orgConfig, SourceRegistry)
      else if userConfig != "" then (userConfig, SourceUser)
      else ("", SourceNone)
    }
  }

  function TokenOf(s: Subscription, source: Source): string {
    match source
    case SourceNone => ""
    case SourceUser => s.user
    case SourceMicrosoftStore => s.store
    case SourceRegistry => s.organization
  }

  function ConfigOf(l: Landscape, source: Source): string {
    match source
    case SourceUser => l.userConfig
    case SourceRegistry => l.orgConfig
    case _ => ""
  }

  /** What is in force comes from the highest source that has something, in the order in which they are declared. */
  lemma ResolveIsHighest(s: Subscription, l: Landscape)
    ensures var (token, source) := s.Resolve();
      && token == TokenOf(s, source) && (token == "" <==> source == SourceNone)
      && forall other :: TokenOf(s, other) != "" ==> Rank(other) <= Rank(source)
    ensures var (conf, source) := l.Resolve();
      && conf == ConfigOf(l, source) && (conf == "" <==> source == SourceNone)
      && forall other :: ConfigOf(l, other) != "" ==> Rank(other) <= Rank(source)
    ensures Rank(SourceNone) < Rank(SourceUser) < Rank(SourceMicrosoftStore) < Rank(SourceRegistry)
  {
  }

  datatype State = State(subscription: Subscription, landscape: Landscape)

  const EMPTY := State(Subscription("", "", "", ""), Landscape("", "", "", ""))

  /** The fields that are written to the file: everything but what the registry provides. */
  datatype Stored = Stored(user: string, store: string, proChecksum: string,
                           userConfig: string, uid: string, landscapeChecksum: string)

  function ToFile(s: State): Stored {
    Stored(s.subscription.user, s.subscription.store, s.subscription.checksum,
           s.landscape.userConfig, s.landscape.uid, s.landscape.checksum)
  }

  function FromFile(f: Option<Stored>): State {
    if f.None? then EMPTY
    else State(Subscription(f.value.user, f.value.store, "", f.value.proChecksum),
               Landscape(f.value.userConfig, "", f.value.uid, f.value.landscapeChecksum))
  }

  /** load: the file wins, except for what the registry provided. */
  function LoadedOver(s: State, f: Option<Stored>): State {
    var fromFile := FromFile(f);
    State(fromFile.subscription.(organization := s.subscription.organization),
          fromFile.landscape.(orgConfig := s.landscape.orgConfig))
  }

  /** What is in memory is what load would produce. */
  predicate InSync(s: State, f: Option<Stored>) {
    LoadedOver(s, f) == s
  }

  // Registry data is never written, yet loading right after a dump changes nothing.
  lemma LoadAfterDump(s: State)
    ensures InSync(s, Some(ToFile(s)))
    ensures forall f :: LoadedOver(LoadedOver(s, f), f) == LoadedOver(s, f)
  {
  }

  /** Field by field: the registry's values stay as they are in memory, everything else is what the file says. */
  lemma LoadedFields(s: State, f: Option<Stored>)
    ensures var l := LoadedOver(s, f);
      && l.subscription.organization == s.subscription.organization && l.landscape.orgConfig == s.landscape.orgConfig
      && l.subscription.user == (if f.Some? then f.value.user else "")
      && l.subscription.store == (if f.Some? then f.value.store else "")
      && l.subscription.checksum == (if f.Some? then f.value.proChecksum else "")
      && l.landscape.userConfig == (if f.Some? then f.value.userConfig else "")
      && l.landscape.uid == (if f.Some? then f.value.uid else "")
      && l.landscape.checksum == (if f.Some? then f.value.landscapeChecksum else "")
  {
  }

  datatype Outcome = Unchanged | Updated | Refused | NotLoaded | NotDumped | BadConfig

  /** The fields that the generic setter is pointed at. */
  datatype Field = UserToken | StoreToken | UserLandscape

  function Get(s: State, field: Field): string {
    match field
    case UserToken => s.subscription.user
    case StoreToken => s.subscription.store
    case UserLandscape => s.landscape.userConfig
  }

  function With(s: State, field: Field, value: string): State {
    match field
    case UserToken => s.(subscription := s.subscription.(user := value))
    case StoreToken => s.(subscription := s.subscription.(store := value))
    case UserLandscape => s.(landscape := s.landscape.(userConfig := value))
  }

  /** A digest: empty for the empty value, otherwise the hash, which is never empty. */
  function Digest(hash: string -> string, value: string): string {
    if value == "" then "" else hash(value)
  }

  ghost predicate GoodHash(hash: string -> string) {
    && (forall x :: x != "" ==> hash(x) != "")
    && (forall x, y :: x != "" && y != "" && hash(x) == hash(y) ==> x == y)
  }

  lemma DigestInjective(hash: string -> string, x: string, y: string)
    requires GoodHash(hash)
    ensures Digest(hash, x) == Digest(hash, y) <==> x == y
  {
  }

  /** Completing a Landscape configuration with the agent's UID; None when it cannot be parsed. */
  type Completion = (string, string) -> Option<string>

  function Complete(complete: Completion, conf: string, uid: string): Option<string> {
    if conf == "" then Some("") else complete(conf, uid)
  }

  /** Registry data applied to what was loaded. A configuration that cannot be completed counts as empty. */
  function WithRegistry(s: State, token: string, conf: string, hash: string -> string, complete: Completion): State {
    var completed := Complete(complete, conf, s.landscape.uid);
    var c := if completed.None? then "" else completed.value;
    var changed := s.landscape.checksum != Digest(hash, c);
    State(s.subscription.(organization := token, checksum := Digest(hash, token)),
          if changed then s.landscape.(orgConfig := c, checksum := Digest(hash, c)) else s.landscape)
  }

  /** A configuration object with its file and the notices on their way to the Pro observers, oldest first. */
  datatype Snapshot = Snapshot(state: State, file: Option<Stored>, due: seq<string>)

  function Ceiling(field: Field): nat {
    Rank(if field == UserToken then SourceUser else SourceMicrosoftStore)
  }

  /** A setter is refused when a source of higher priority is in force. */
  predicate Outranked(s: State, field: Field) {
    Rank(s.subscription.Resolve().1) > Ceiling(field)
  }

  /** The second half of a token setter, after the priority was checked: all or nothing. */
  function AfterCommit(w: Snapshot, field: Field, value: string, readable: bool, writable: bool): Snapshot {
    var s := LoadedOver(w.state, w.file);
    if !readable then w
    else if Get(s, field) == value || !writable then w.(state := s)
    else Snapshot(With(s, field, value), Some(ToFile(With(s, field, value))), w.due + [value])
  }

  /** A token setter that nothing interrupts. */
  function AfterSet(w: Snapshot, field: Field, value: string,
                    readable: bool, readableAgain: bool, writable: bool): Snapshot {
    var loaded := w.(state := LoadedOver(w.state, w.file));
    if !readable then w
    else if Outranked(loaded.state, field) then loaded
    else AfterCommit(loaded, field, value, readableAgain, writable)
  }

  function StoredField(f: Option<Stored>, field: Field): string {
    if f.None? then "" else
      match field
      case UserToken => f.value.user
      case StoreToken => f.value.store
      case UserLandscape => f.value.userConfig
  }

  /** Another source stands above this one: the registry in memory, or for a user token the store in the file. */
  predicate StandsAbove(w: Snapshot, field: Field) {
    w.state.subscription.organization != "" || (field == UserToken && StoredField(w.file, StoreToken) != "")
  }

  /**
   A token setter gets its value into the file, and owes the observers a notice, exactly when no other source
   stands above, everything can be read and written, and the value is new. It never touches the other token.
   */
  lemma SetterIff(w: Snapshot, field: Field, value: string, readable: bool, readableAgain: bool, writable: bool)
    requires field in {UserToken, StoreToken}
    ensures var w' := AfterSet(w, field, value, readable, readableAgain, writable);
      var succeeds := readable && !StandsAbove(w, field) && readableAgain && writable && StoredField(w.file, field) != value;
      && w'.due == (if succeeds then w.due + [value] else w.due)
      && (succeeds ==> w'.file.Some? && StoredField(w'.file, field) == value)
      && (!succeeds ==> w'.file == w.file)
      && (forall other :: other != field ==> StoredField(w'.file, other) == StoredField(w.file, other))
  {
    LoadedFields(w.state, w.file);
  }

  /**
   After a push that is loaded, the registry's token is in memory, and its checksum with it. Its Landscape
   configuration, empty when it cannot be completed, is taken over exactly when the checksum is another one.
   */
  lemma PushedFields(w: Snapshot, token: string, conf: string, writable: bool, hash: string -> string, complete: Completion)
    ensures var w' := AfterPush(w, token, conf, true, writable, hash, complete);
      var uid := if w.file.Some? then w.file.value.uid else "";
      var before := if w.file.Some? then w.file.value.landscapeChecksum else "";
      var completed := if conf == "" || complete(conf, uid).None? then "" else complete(conf, uid).value;
      && w'.state.subscription.organization == token && w'.state.subscription.checksum == Digest(hash, token)
      && w'.state.landscape.checksum == Digest(hash, completed)
      && w'.state.landscape.orgConfig == (if Digest(hash, completed) != before then completed else w.state.landscape.orgConfig)
      && w'.state.landscape.uid == uid
      && w'.state.subscription.user == StoredField(w.file, UserToken)
      && w'.state.subscription.store == StoredField(w.file, StoreToken)
      && w'.state.landscape.userConfig == StoredField(w.file, UserLandscape)
      && w'.file == (if writable then Some(ToFile(w'.state)) else w.file)
  {
    LoadedFields(w.state, w.file);
  }

  function AfterPush(w: Snapshot, token: string, conf: string, readable: bool, writable: bool,
                     hash: string -> string, complete: Completion): Snapshot {
    var s := LoadedOver(w.state, w.file);
    var s' := WithRegistry(s, token, conf, hash, complete);
    if !readable then w
    else Snapshot(s', if writable then Some(ToFile(s')) else w.file,
                  if s.subscription.checksum == Digest(hash, token) then w.due
                  else w.due + [s'.subscription.Resolve().0])
  }

  class Config {
    var state: State
    var file: Option<Stored>
    // Notices to the Pro observers that a critical section decided on; each goes out after it, in any order.
    var due: seq<string>
    // What the observers have been told, oldest first.
    var told: seq<string>
    var landscapeNotices: seq<(string, string)>

    const hash: string -> string
    const complete: Completion

    constructor (file: Option<Stored>, hash: string -> string, complete: Completion)
      ensures state == EMPTY && this.file == file && due == [] && told == [] && landscapeNotices == []
      ensures this.hash == hash && this.complete == complete
    {
      state, this.file, due, told, landscapeNotices := EMPTY, file, [], [], [];
      this.hash, this.complete := hash, complete;
    }

    function Value(): Snapshot
      reads this
    {
      Snapshot(state, file, due)
    }

    method Load(readable: bool) returns (ok: bool)
      modifies `state
      ensures ok == readable
      ensures state == if readable then LoadedOver(old(state), file) else old(state)
    {
      if !readable {
        return false;
      }
      var loaded := FromFile(file);
      var tokenOrg := state.subscription.organization;
      var landscapeOrg := state.landscape.orgConfig;
      state := loaded;
      state := state.(subscription := state.subscription.(organization := tokenOrg));
      state := state.(landscape := state.landscape.(orgConfig := landscapeOrg));
      return true;
    }

    method Dump(writable: bool) returns (ok: bool)
      modifies `file
      ensures ok == writable
      ensures file == if writable then Some(ToFile(state)) else old(file)
    {
      if !writable {
        return false;
      }
      file := Some(ToFile(state));
      return true;
    }

    // All or nothing: memory and file change together, or both are as load left them.
    method Set(field: Field, value: string, readable: bool, writable: bool) returns (outcome: Outcome)
      modifies `state, `file
      ensures !readable ==> outcome == NotLoaded && state == old(state) && file == old(file)
      ensures readable ==>
        var s := LoadedOver(old(state), old(file));
        && (outcome == Unchanged <==> Get(s, field) == value)
        && (outcome == Updated <==> Get(s, field) != value && writable)
        && outcome in {Unchanged, Updated, NotDumped}
        && state == (if outcome == Updated then With(s, field, value) else s)
        && file == (if outcome == Updated then Some(ToFile(With(s, field, value))) else old(file))
        && InSync(state, file)
    {
      var loaded := Load(readable);
      if !loaded {
        return NotLoaded;
      }
      var previous := Get(state, field);
      if previous == value {
        return Unchanged;
      }
      state := With(state, field, value);
      var dumped := Dump(writable);
      if !dumped {
        state := With(state, field, previous);
        return NotDumped;
      }
      return Updated;
    }

    // The second critical section of a token setter; its notice is sent after the mutex is released.
    method Commit(field: Field, value: string, readable: bool, writable: bool) returns (outcome: Outcome)
      requires field in {UserToken, StoreToken}
      modifies `state, `file, `due
      ensures Value() == AfterCommit(old(Value()), field, value, readable, writable)
      ensures outcome in {NotLoaded, Unchanged, Updated, NotDumped} && (outcome == NotLoaded <==> !readable)
      ensures outcome == Updated <==> due != old(due)
    {
      outcome := Set(field, value, readable, writable);
      if outcome == Updated {
        due := due + [value];
      }
    }

    // Another notice goes out: the goroutines that owe them are not ordered.
    method Deliver(i: nat)
      requires i < |due|
      modifies `due, `told
      ensures due == old(due)[..i] + old(due)[i + 1..] && told == old(told) + [old(due)[i]]
    {
      told := told + [due[i]];
      due := due[..i] + due[i + 1..];
    }

    // The two token setters differ in the field and in the priority that refuses them.
    method SetSubscription(field: Field, value: string, readable: bool, readableAgain: bool, writable: bool)
      returns (outcome: Outcome)
      requires field in {UserToken, StoreToken}
      modifies `state, `file, `due
      ensures Value() == AfterSet(old(Value()), field, value, readable, readableAgain, writable)
      ensures outcome == NotLoaded <==> !readable || (outcome != Refused && !readableAgain)
      ensures outcome == Refused <==>
        readable && Outranked(LoadedOver(old(state), old(file)), field)
      ensures outcome == Updated <==> due != old(due)
      ensures outcome == Refused <==> readable && StandsAbove(old(Value()), field)
    {
      var loaded := Load(readable);
      if !loaded {
        return NotLoaded;
      }
      if Outranked(state, field) {
        return Refused;
      }
      outcome := Commit(field, value, readableAgain, writable);
    }

    // Unlike the token setters this one looks at memory without loading the file first.
    method SetUserLandscapeConfig(conf: string, readable: bool, writable: bool) returns (outcome: Outcome)
      modifies `state, `file, `landscapeNotices
      ensures outcome in {Refused, BadConfig, NotLoaded} ==> state == old(state)
      ensures outcome == Refused <==> old(state).landscape.Resolve().1 == SourceRegistry
      ensures outcome == Refused <==> old(state).landscape.orgConfig != ""
      ensures outcome == BadConfig <==> outcome != Refused && Complete(complete, conf, old(state).landscape.uid) == None
      ensures outcome == Updated <==>
        && outcome !in {Refused, BadConfig} && readable && writable
        && Complete(complete, conf, old(state).landscape.uid) != Some(LoadedOver(old(state), old(file)).landscape.userConfig)
      ensures outcome == Updated ==>
        && Complete(complete, conf, old(state).landscape.uid) == Some(state.landscape.userConfig)
        && state == With(LoadedOver(old(state), old(file)), UserLandscape, state.landscape.userConfig)
        && file == Some(ToFile(state))
        && landscapeNotices == old(landscapeNotices) + [(state.landscape.userConfig, state.landscape.uid)]
      ensures outcome != Updated ==> file == old(file) && landscapeNotices == old(landscapeNotices)
      ensures outcome in {Unchanged, NotDumped} ==> state == LoadedOver(old(state), old(file))
    {
      var (_, source) := state.landscape.Resolve();
      if Rank(source) > Rank(SourceUser) {
        return Refused;
      }
      var completed := Complete(complete, conf, state.landscape.uid);
      if completed.None? {
        return BadConfig;
      }
      outcome := Set(UserLandscape, completed.value, readable, writable);
      if outcome == Updated {
        landscapeNotices := landscapeNotices + [(completed.value, state.landscape.uid)];
      }
    }

    method SetLandscapeAgentUID(uid: string, readable: bool, writable: bool) returns (outcome: Outcome)
      modifies `state, `file, `landscapeNotices
      ensures !readable ==> outcome == NotLoaded && state == old(state)
      ensures readable && outcome != Updated ==> state == LoadedOver(old(state), old(file))
      ensures outcome != Updated ==> file == old(file) && landscapeNotices == old(landscapeNotices)
      ensures outcome == Updated <==>
        var s := LoadedOver(old(state), old(file)).landscape;
        && readable && writable && s.uid != uid && s.Resolve().1 != SourceNone
        && Complete(complete, s.Resolve().0, uid).Some?
      ensures outcome == Updated ==>
        var s := LoadedOver(old(state), old(file)).landscape;
        var (conf, source) := s.Resolve();
        var updated := Complete(complete, conf, uid);
        && state == LoadedOver(old(state), old(file)).(landscape :=
             if source == SourceUser then s.(userConfig := updated.value, uid := uid)
                                     else s.(orgConfig := updated.value, uid := uid))
        && file == Some(ToFile(state)) && InSync(state, file)
        && landscapeNotices ==
             old(landscapeNotices) + (if updated.value == "" then [] else [(updated.value, uid)])
      ensures outcome == Updated ==> state.landscape.uid == uid
      ensures outcome == Updated && old(state).landscape.orgConfig != "" ==>
        && complete(old(state).landscape.orgConfig, uid) == Some(state.landscape.orgConfig)
        && state.landscape.userConfig == StoredField(old(file), UserLandscape)
      ensures outcome == Updated && old(state).landscape.orgConfig == "" ==>
        && complete(StoredField(old(file), UserLandscape), uid) == Some(state.landscape.userConfig)
        && state.landscape.orgConfig == ""
    {
      var loaded := Load(readable);
      if !loaded {
        return NotLoaded;
      }
      if state.landscape.uid == uid {
        return Unchanged;
      }
      var (conf, source) := state.landscape.Resolve();
      if source == SourceNone {
        return Unchanged;
      }
      var updated := Complete(complete, conf, uid);
      if updated.None? {
        return BadConfig;
      }
      var oldUID := state.landscape.uid;
      if source == SourceUser {
        state := state.(landscape := state.landscape.(userConfig := updated.value));
      } else {
        state := state.(landscape := state.landscape.(orgConfig := updated.value));
      }
      state := state.(landscape := state.landscape.(uid := uid));
      var dumped := Dump(writable);
      if !dumped {
        state := state.(landscape := state.landscape.(uid := oldUID));
        if source == SourceUser {
          state := state.(landscape := state.landscape.(userConfig := conf));
        } else {
          state := state.(landscape := state.landscape.(orgConfig := conf));
        }
        return NotDumped;
      }
      if updated.value != "" {
        landscapeNotices := landscapeNotices + [(updated.value, uid)];
      }
      return Updated;
    }

    method ProHasChanged(value: string) returns (changed: bool)
      modifies `state
      ensures changed == (old(state).subscription.checksum != Digest(hash, value))
      ensures state == old(state).(subscription := old(state).subscription.(checksum := Digest(hash, value)))
    {
      var digest := Digest(hash, value);
      if state.subscription.checksum == digest {
        return false;
      }
      state := state.(subscription := state.subscription.(checksum := digest));
      return true;
    }

    method LandscapeHasChanged(value: string) returns (changed: bool)
      modifies `state
      ensures changed == (old(state).landscape.checksum != Digest(hash, value))
      ensures state == old(state).(landscape := old(state).landscape.(checksum := Digest(hash, value)))
    {
      var digest := Digest(hash, value);
      if state.landscape.checksum == digest {
        return false;
      }
      state := state.(landscape := state.landscape.(checksum := digest));
      return true;
    }

    // The observers are told after the lock is released, whether or not the dump succeeded.
    method UpdateRegistryData(token: string, conf: string, readable: bool, writable: bool) returns (outcome: Outcome)
      modifies `state, `file, `due, `landscapeNotices
      ensures Value() == AfterPush(old(Value()), token, conf, readable, writable, hash, complete)
      ensures outcome == (if !readable then NotLoaded else if writable then Updated else NotDumped)
      ensures !readable ==> landscapeNotices == old(landscapeNotices)
      ensures readable ==>
        landscapeNotices ==
          if LoadedOver(old(state), old(file)).landscape.checksum == state.landscape.checksum then old(landscapeNotices)
          else old(landscapeNotices) + [(state.landscape.Resolve().0, state.landscape.uid)]
    {
      var loaded := Load(readable);
      if !loaded {
        return NotLoaded;
      }
      state := state.(subscription := state.subscription.(organization := token));
      var proChanged := ProHasChanged(token);
      var completed := Complete(complete, conf, state.landscape.uid);
      var c := if completed.None? then "" else completed.value;
      var landscapeChanged := LandscapeHasChanged(c);
      if landscapeChanged {
        state := state.(landscape := state.landscape.(orgConfig := c));
      }
      var dumped := Dump(writable);
      if proChanged {
        due := due + [state.subscription.Resolve().0];
      }
      if landscapeChanged {
        landscapeNotices := landscapeNotices + [(state.landscape.Resolve().0, state.landscape.uid)];
      }
      return if dumped then Updated else NotDumped;
    }
  }
}

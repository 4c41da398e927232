/** The database of distros: a map from lower-cased names, and the file that it is dumped to and loaded from. */
module Databases {
  import opened Options
  import opened Strings

  type Guid = nat

  /** A GUID that was never initialised. */
  const NIL_GUID: Guid := 0

  datatype Properties = Properties(distroID: string, versionID: string, prettyName: string,
                                   proAttached: bool, hostname: string)

  datatype Distro = Distro(name: string, guid: Guid, properties: Properties, invalidated: bool)

  /** A stored entry; the GUID is None when its text cannot be parsed. */
  datatype Record = Record(name: string, guid: Option<Guid>, properties: Properties)

  /**
   What the environment answers: which GUID is registered under a name, and whether the worker of a
   distro with this name can be started.
   */
  datatype Environment = Environment(registered: string -> Option<Guid>, starts: string -> bool)

  /** A new distro, checked against the registry; without a GUID it takes the registered one. */
  function NewDistro(env: Environment, name: string, guid: Guid, properties: Properties): Option<Distro> {
    var registered := env.registered(name);
    if registered.None? || (guid != NIL_GUID && registered.value != guid) || !env.starts(name) then None
    else Some(Distro(name, registered.value, properties, false))
  }

  predicate IsValid(env: Environment, d: Distro) {
    !d.invalidated && env.registered(d.name) == Some(d.guid)
  }

  function ToRecord(d: Distro): Record {
    Record(d.name, Some(d.guid), d.properties)
  }

  function FromRecord(env: Environment, r: Record): Option<Distro> {
    if r.guid.None? then None else NewDistro(env, r.name, r.guid.value, r.properties)
  }

  type Table = map<string, Distro>

  ghost predicate Normalized(lower: string -> string, m: Table) {
    forall k :: k in m ==> k == lower(m[k].name)
  }

  /** `records` lists the entries of `m` in the order of their keys. */
  ghost predicate ListsByKey(m: Table, keys: seq<string>, records: seq<Record>) {
    && Sorted(keys) && multiset(keys) == multiset(m.Keys) && |records| == |keys|
    && forall i :: 0 <= i < |keys| ==> keys[i] in m && records[i] == ToRecord(m[keys[i]])
  }

  ghost predicate IsDump(m: Table, records: seq<Record>) {
    exists keys :: ListsByKey(m, keys, records)
  }

  /** Whatever order the map is walked in, the same table is dumped the same way. */
  lemma DumpIsDeterministic(m: Table, a: seq<Record>, b: seq<Record>)
    requires IsDump(m, a) && IsDump(m, b)
    ensures a == b
  {
    var ka :| ListsByKey(m, ka, a);
    var kb :| ListsByKey(m, kb, b);
    SortedUnique(ka, kb);
  }

  lemma TwiceInSeq(keys: seq<string>, i: nat, j: nat)
    requires i < j < |keys| && keys[i] == keys[j]
    ensures multiset(keys)[keys[i]] >= 2
  {
    assert keys == keys[..j] + [keys[j]] + keys[j + 1..];
    assert keys[i] in keys[..j];
    assert multiset(keys) == multiset(keys[..j]) + multiset{keys[j]} + multiset(keys[j + 1..]);
  }

  lemma OnceInSet(keys: seq<string>, s: set<string>, i: nat, j: nat)
    requires multiset(keys) == multiset(s) && i < j < |keys|
    ensures keys[i] != keys[j]
  {
    if keys[i] == keys[j] {
      TwiceInSeq(keys, i, j);
      assert false;
    }
  }

  /** The entries of a dump stand in the ascending lexicographic order of their keys, each key once. */
  lemma DumpAscends(m: Table, keys: seq<string>, records: seq<Record>, i: nat, j: nat)
    requires ListsByKey(m, keys, records) && i < j < |keys|
    ensures exists k: nat :: PartsAt(keys[i], keys[j], k)
  {
    OnceInSet(keys, m.Keys, i, j);
    CompareZero(keys[i], keys[j]);
    CompareIsLexicographic(keys[i], keys[j]);
  }

  /** Entries that cannot be revived are skipped; of two with the same key the later one stays. */
  function Loaded(lower: string -> string, env: Environment, records: seq<Record>): Table {
    if records == [] then map[] else
      var earlier := Loaded(lower, env, records[..|records| - 1]);
      match FromRecord(env, records[|records| - 1])
      case None => earlier
      case Some(d) => earlier[lower(d.name) := d]
  }

  /** What a restart makes of an entry. */
  function Revived(env: Environment, d: Distro): Option<Distro> {
    FromRecord(env, ToRecord(d))
  }

  /** The table after a restart: the same keys, restricted to the entries that can be revived. */
  function AfterRestart(env: Environment, m: Table): Table {
    map k | k in m && Revived(env, m[k]).Some? :: Revived(env, m[k]).value
  }

  /** The part of the table after a restart that comes from the listed keys. */
  function PartAfterRestart(env: Environment, m: Table, listed: seq<string>): Table {
    map k | k in m && k in listed && Revived(env, m[k]).Some? :: Revived(env, m[k]).value
  }

  lemma PartGrows(env: Environment, m: Table, listed: seq<string>, key: string)
    requires key in m
    ensures PartAfterRestart(env, m, listed + [key]) ==
      match Revived(env, m[key])
      case None => PartAfterRestart(env, m, listed)
      case Some(d) => PartAfterRestart(env, m, listed)[key := d]
  {
    assert forall k :: k in listed + [key] <==> k in listed || k == key;
  }

  lemma {:induction false} LoadedPrefix(lower: string -> string, env: Environment, m: Table,
                                        keys: seq<string>, records: seq<Record>, n: nat)
    requires Normalized(lower, m) && n <= |keys| == |records|
    requires forall i :: 0 <= i < |keys| ==> keys[i] in m && records[i] == ToRecord(m[keys[i]])
    ensures Loaded(lower, env, records[..n]) == PartAfterRestart(env, m, keys[..n])
  {
    if n > 0 {
      LoadedPrefix(lower, env, m, keys, records, n - 1);
      assert records[..n][..n - 1] == records[..n - 1] && keys[..n] == keys[..n - 1] + [keys[n - 1]];
      PartGrows(env, m, keys[..n - 1], keys[n - 1]);
    }
  }

  lemma AllListed(env: Environment, m: Table, listed: seq<string>)
    requires forall k :: k in listed <==> k in m
    ensures PartAfterRestart(env, m, listed) == AfterRestart(env, m)
  {
  }

  lemma KeysListed(m: Table, keys: seq<string>)
    requires multiset(keys) == multiset(m.Keys)
    ensures forall k :: k in keys <==> k in m
    ensures |keys| == |m|
  {
    forall k ensures k in keys <==> k in m {
      assert k in keys <==> k in multiset(keys);
    }
    assert |multiset(keys)| == |multiset(m.Keys)|;
  }

  /** Loading a dump rebuilds the table, restricted to what can be revived, whatever was flagged as invalid. */
  lemma DumpLoadRoundTrip(lower: string -> string, env: Environment, m: Table, records: seq<Record>)
    requires Normalized(lower, m) && IsDump(m, records)
    ensures Loaded(lower, env, records) == AfterRestart(env, m)
  {
    var keys :| ListsByKey(m, keys, records);
    assert records[..|keys|] == records && keys[..|keys|] == keys;
    LoadedPrefix(lower, env, m, keys, records, |keys|);
    KeysListed(m, keys);
    AllListed(env, m, keys);
  }

  /**
   A distro is made exactly when its name is registered, with the asked-for GUID if one is asked for, and its
   worker starts; it has the registered GUID and is valid.
   */
  lemma NewDistroIff(env: Environment, name: string, guid: Guid, properties: Properties)
    ensures var d := NewDistro(env, name, guid, properties);
      && (d.Some? <==> env.starts(name) && env.registered(name).Some? && guid in {0, env.registered(name).value})
      && (d.Some? ==> d.value.name == name && Some(d.value.guid) == env.registered(name) && d.value.properties == properties
                      && IsValid(env, d.value))
  {
  }

  /** Once made, a distro is valid exactly as long as it is not invalidated and its name keeps its GUID. */
  lemma StaysValidIff(env: Environment, later: Environment, name: string, guid: Guid, properties: Properties)
    requires NewDistro(env, name, guid, properties).Some?
    ensures var d := NewDistro(env, name, guid, properties).value;
      && (IsValid(later, d) <==> later.registered(name) == env.registered(name))
      && !IsValid(later, d.(invalidated := true))
  {
  }

  /**
   An entry survives exactly when the registry still has its name with its GUID, or with any if it has none,
   and the worker starts; it is valid then, and unchanged but for a GUID that it did not have.
   */
  lemma RevivedIff(env: Environment, d: Distro)
    ensures Revived(env, d).Some? <==>
      env.starts(d.name) && env.registered(d.name).Some? && d.guid in {NIL_GUID, env.registered(d.name).value}
    ensures Revived(env, d).Some? && d.guid != NIL_GUID ==> Revived(env, d).value == d.(invalidated := false)
    ensures Revived(env, d).Some? && d.guid == NIL_GUID ==>
      Revived(env, d).value == d.(invalidated := false, guid := env.registered(d.name).value)
  {
  }

  /** The last entry of the document that comes under this key and can be revived. */
  ghost predicate LastUnder(lower: string -> string, env: Environment, records: seq<Record>, key: string, i: nat) {
    && i < |records| && Comes(lower, env, records[i], key)
    && forall k :: i < k < |records| ==> !Comes(lower, env, records[k], key)
  }

  predicate Comes(lower: string -> string, env: Environment, r: Record, key: string) {
    r.guid.Some? && lower(r.name) == key && NewDistro(env, r.name, r.guid.value, r.properties).Some?
  }

  lemma {:induction false} LoadedHasLast(lower: string -> string, env: Environment, records: seq<Record>, key: string)
    requires key in Loaded(lower, env, records)
    ensures exists i: nat :: LastUnder(lower, env, records, key, i)
    decreases |records|
  {
    var n := |records| - 1;
    if Comes(lower, env, records[n], key) {
      assert LastUnder(lower, env, records, key, n);
    } else {
      LoadedHasLast(lower, env, records[..n], key);
      var i: nat :| LastUnder(lower, env, records[..n], key, i);
      assert forall k :: 0 <= k < n ==> records[..n][k] == records[k];
      assert LastUnder(lower, env, records, key, i);
    }
  }

  lemma {:induction false} LoadedLast(lower: string -> string, env: Environment, records: seq<Record>, key: string, i: nat)
    requires LastUnder(lower, env, records, key, i)
    ensures key in Loaded(lower, env, records)
    ensures Some(Loaded(lower, env, records)[key]) ==
      NewDistro(env, records[i].name, records[i].guid.value, records[i].properties)
    decreases |records|
  {
    var n := |records| - 1;
    if i < n {
      assert forall k :: 0 <= k < n ==> records[..n][k] == records[k];
      LoadedLast(lower, env, records[..n], key, i);
      assert !Comes(lower, env, records[n], key);
    }
  }

  /** Any document, also one in which names collide: a key is loaded from the last entry that comes under it. */
  lemma LoadedFromLast(lower: string -> string, env: Environment, records: seq<Record>, key: string)
    ensures key in Loaded(lower, env, records) <==> exists i: nat :: LastUnder(lower, env, records, key, i)
    ensures forall i: nat | LastUnder(lower, env, records, key, i) ::
      key in Loaded(lower, env, records) &&
      Some(Loaded(lower, env, records)[key]) ==
        NewDistro(env, records[i].name, records[i].guid.value, records[i].properties)
  {
    if key in Loaded(lower, env, records) {
      LoadedHasLast(lower, env, records, key);
    }
    forall i: nat | LastUnder(lower, env, records, key, i)
      ensures key in Loaded(lower, env, records) &&
        Some(Loaded(lower, env, records)[key]) ==
          NewDistro(env, records[i].name, records[i].guid.value, records[i].properties)
    {
      LoadedLast(lower, env, records, key, i);
    }
  }

  /** The file says what the table says; without a file the table is empty. */
  ghost predicate Persisted(m: Table, file: Option<seq<Record>>) {
    if file.None? then m == map[] else IsDump(m, file.value)
  }

  lemma DumpSize(m: Table, records: seq<Record>)
    ensures IsDump(m, records) ==> |records| == |m|
  {
    if IsDump(m, records) {
      var keys :| ListsByKey(m, keys, records);
      KeysListed(m, keys);
    }
  }

  lemma FewerKeysNotPersisted(m: Table, file: Option<seq<Record>>, key: string)
    requires Persisted(m, file) && key in m
    ensures !Persisted(m - {key}, file)
  {
    assert (m - {key}).Keys == m.Keys - {key};
    DumpSize(m, file.value);
    DumpSize(m - {key}, file.value);
  }

  /** The table after asking for a distro, and the distro if there is one. */
  function AfterGet(lower: string -> string, env: Environment, m: Table, name: string, properties: Properties)
    : (Table, Option<Distro>)
  {
    var key := lower(name);
    if key in m && IsValid(env, m[key]) then
      var d := m[key].(properties := properties);
      (m[key := d], Some(d))
    else
      match NewDistro(env, name, NIL_GUID, properties)
      case None => (m - {key}, None)
      case Some(d) => (m[key := d], Some(d))
  }

  class DistroDB {
    const lower: string -> string
    var distros: Table
    var file: Option<seq<Record>>

    ghost predicate Valid()
      reads this
    {
      Normalized(lower, distros)
    }

    constructor (lower: string -> string, file: Option<seq<Record>>)
      ensures Valid() && this.lower == lower && this.file == file && distros == map[]
    {
      this.lower, this.file, distros := lower, file, map[];
    }

    // A missing file is an empty table; one that cannot be read or parsed is an error that changes nothing.
    method Load(env: Environment, readable: bool) returns (ok: bool)
      requires Valid()
      modifies `distros
      ensures Valid() && ok == (readable || file.None?)
      ensures distros ==
        if !ok then old(distros) else if file.None? then map[] else Loaded(lower, env, file.value)
    {
      if file.None? {
        distros := map[];
        return true;
      }
      if !readable {
        return false;
      }
      distros := map[];
      var records := file.value;
      for i := 0 to |records|
        invariant Valid() && file == Some(records) && distros == Loaded(lower, env, records[..i])
      {
        assert records[..i + 1][..i] == records[..i];
        var d := FromRecord(env, records[i]);
        if d.Some? {
          distros := distros[lower(d.value.name) := d.value];
        }
      }
      assert records[..|records|] == records;
      return true;
    }

    // The keys in whatever order the map yields them, then sorted.
    method SortedNames() returns (normalizedNames: seq<string>)
      ensures Sorted(normalizedNames) && multiset(normalizedNames) == multiset(distros.Keys)
    {
      normalizedNames := [];
      var left := distros.Keys;
      while left != {}
        invariant left <= distros.Keys && multiset(normalizedNames) + multiset(left) == multiset(distros.Keys)
        decreases left
      {
        var name :| name in left;
        normalizedNames := normalizedNames + [name];
        left := left - {name};
      }
      SortSorts(normalizedNames);
      normalizedNames := Sort(normalizedNames);
    }

    method Dump(written: bool) returns (ok: bool)
      modifies `file
      ensures ok == written
      ensures if written then file.Some? && IsDump(distros, file.value) else file == old(file)
    {
      var normalizedNames := SortedNames();
      KeysListed(distros, normalizedNames);
      var records := [];
      for i := 0 to |normalizedNames|
        invariant |records| == i && file == old(file)
        invariant forall k :: 0 <= k < i ==> records[k] == ToRecord(distros[normalizedNames[k]])
      {
        records := records + [ToRecord(distros[normalizedNames[i]])];
      }
      assert ListsByKey(distros, normalizedNames, records);
      if written {
        file := Some(records);
      }
      return written;
    }

    method Put(key: string, d: Distro, written: bool) returns (dumped: bool)
      requires Valid() && key == lower(d.name)
      modifies `distros, `file
      ensures Valid() && distros == old(distros)[key := d]
      ensures written ==> Persisted(distros, file)
    {
      distros := distros[key := d];
      dumped := Dump(written);
    }

    /**
     The returned distro is valid, has these properties and is in the table under its lower-cased name.
     The file follows the table, except when a distro that became invalid cannot be created again: it
     has left the table but not the file.
     */
    method GetDistroAndUpdateProperties(name: string, properties: Properties, env: Environment, written: bool)
      returns (d: Option<Distro>, dumped: bool)
      requires Valid()
      modifies `distros, `file
      ensures Valid()
      ensures (distros, d) == AfterGet(lower, env, old(distros), name, properties)
      ensures d == None || distros == old(distros) ==> file == old(file)
      ensures d.Some? ==>
        && lower(name) in distros && distros[lower(name)] == d.value
        && IsValid(env, d.value) && d.value.properties == properties && lower(d.value.name) == lower(name)
      ensures forall k :: k != lower(name) ==> (k in distros <==> k in old(distros))
      ensures forall k :: k != lower(name) && k in distros ==> distros[k] == old(distros)[k]
      ensures d == None <==>
        && NewDistro(env, name, NIL_GUID, properties) == None
        && (lower(name) in old(distros) ==> !IsValid(env, old(distros)[lower(name)]))
      ensures written && old(Persisted(distros, file)) ==>
        (Persisted(distros, file) <==>
          !(lower(name) in old(distros) && !IsValid(env, old(distros)[lower(name)])
            && NewDistro(env, name, NIL_GUID, properties) == None))
    {
      var normalizedName := lower(name);
      dumped := true;
      if normalizedName !in distros {
        d := NewDistro(env, name, NIL_GUID, properties);
        if d.None? {
          assert distros == distros - {normalizedName};
          return;
        }
        dumped := Put(normalizedName, d.value, written);
        return;
      }
      var found := distros[normalizedName];
      if !IsValid(env, found) {
        ghost var before := distros;
        distros := distros - {normalizedName};
        d := NewDistro(env, name, NIL_GUID, properties);
        if d.None? {
          if old(Persisted(distros, file)) {
            FewerKeysNotPersisted(before, file, normalizedName);
          }
          return;
        }
        assert distros[normalizedName := d.value] == before[normalizedName := d.value];
        dumped := Put(normalizedName, d.value, written);
        return;
      }
      if found.properties != properties {
        dumped := Put(normalizedName, found.(properties := properties), written);
      } else {
        assert distros[normalizedName := found] == distros;
      }
      d := Some(found.(properties := properties));
    }

    // Removes exactly the invalid distros, and dumps only when there was one.
    method Cleanup(env: Environment, written: bool) returns (ok: bool)
      requires Valid()
      modifies `distros, `file
      ensures Valid()
      ensures distros == map k | k in old(distros) && IsValid(env, old(distros)[k]) :: old(distros)[k]
      ensures distros == old(distros) ==> file == old(file) && ok
      ensures written && old(Persisted(distros, file)) ==> Persisted(distros, file)
    {
      var left := distros.Keys;
      var needsDBDump := false;
      while left != {}
        invariant left <= distros.Keys <= old(distros).Keys && Valid() && file == old(file)
        invariant forall k :: k in distros ==> distros[k] == old(distros)[k]
        invariant forall k :: k in old(distros) && k !in left ==> (k in distros <==> IsValid(env, old(distros)[k]))
        invariant needsDBDump <==> distros.Keys != old(distros).Keys
        decreases left
      {
        var name :| name in left;
        left := left - {name};
        if !IsValid(env, distros[name]) {
          distros := distros - {name};
          needsDBDump := true;
        }
      }
      if needsDBDump {
        ok := Dump(written);
      } else {
        assert distros == old(distros);
        return true;
      }
    }
  }

  /** Opening the database fails when its file cannot be read or parsed. */
  method NewDistroDB(lower: string -> string, file: Option<seq<Record>>, env: Environment, readable: bool)
    returns (db: DistroDB, ok: bool)
    ensures fresh(db) && db.Valid() && db.lower == lower && db.file == file
    ensures ok == (readable || file.None?)
    ensures db.distros == if ok && file.Some? then Loaded(lower, env, file.value) else map[]
  {
    db := new DistroDB(lower, file);
    ok := db.Load(env, readable);
  }

  /** From an empty database: a distro is found and dumped, is unregistered, and is asked for again. */
  lemma InvalidDistroRun(lower: string -> string, name: string, properties: Properties, file: Option<seq<Record>>)
    requires Persisted(AfterGet(lower, Environment(_ => Some(1), _ => true), map[], name, properties).0, file)
    ensures var (found, d) := AfterGet(lower, Environment(_ => Some(1), _ => true), map[], name, properties);
      var (left, gone) := AfterGet(lower, Environment(_ => None, _ => true), found, name, properties);
      d.Some? && gone == None && left == map[] && !Persisted(left, file)
  {
    var (found, d) := AfterGet(lower, Environment(_ => Some(1), _ => true), map[], name, properties);
    assert found.Keys == {lower(name)};
    FewerKeysNotPersisted(found, file, lower(name));
  }
}

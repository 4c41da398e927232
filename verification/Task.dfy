/** Tasks, their equivalence, and the type-tagged format in which they are stored. */
module Tasks {
  import opened Options
  import opened Seqs

  const PRO_ATTACHMENT := "tasks.ProAttachment"
  const LANDSCAPE_CONFIGURE := "tasks.LandscapeConfigure"

  /** Names of task types other than the two that the agent ships. */
  type PlainName = s: string | s != PRO_ATTACHMENT && s != LANDSCAPE_CONFIGURE witness "main.task"

  /** The two shipped tasks define their own comparator; a plain task does not. */
  datatype Task =
    | ProAttachment(token: string)
    | LandscapeConfigure(config: string)
    | Plain(typeName: PlainName, payload: string)

  /** What an equivalence class of tasks is about. */
  datatype Key = ProKey | LandscapeKey | ExactKey(task: Task)

  function KeyOf(t: Task): Key {
    match t
    case ProAttachment(_) => ProKey
    case LandscapeConfigure(_) => LandscapeKey
    case Plain(_, _) => ExactKey(t)
  }

  /** `t` decides with its own comparator if it has one, and by equality if it does not. */
  predicate Is(t: Task, target: Task)
    ensures Is(t, target) <==> KeyOf(t) == KeyOf(target)
  {
    match t
    case ProAttachment(_) => target.ProAttachment?
    case LandscapeConfigure(_) => target.LandscapeConfigure?
    case Plain(_, _) => t == target
  }

  /** Shipped tasks match whatever has the same type, plain tasks match only what equals them. */
  lemma IsByType(t: Task, target: Task)
    ensures Is(t, target) <==>
      (t.ProAttachment? && target.ProAttachment?) || (t.LandscapeConfigure? && target.LandscapeConfigure?) || t == target
  {
  }

  // The queue calls Is with its own task on either side, so the order must not matter.
  lemma IsEquivalence()
    ensures forall a :: Is(a, a)
    ensures forall a, b :: Is(a, b) <==> Is(b, a)
    ensures forall a, b, c :: Is(a, b) && Is(b, c) ==> Is(a, c)
  {
  }

  /** The contents of one stored task, before its type is known. */
  datatype Node = Mapping(fields: map<string, string>) | Malformed

  /** A stored list entry: the name of the type next to the delayed contents, which may be missing. */
  datatype Tagged = Tagged(typeName: string, node: Option<Node>)

  datatype DecodeError = NilNode | NotRegistered | Undecodable

  datatype Result<+T> = Success(value: T) | Failure(error: DecodeError)

  /** The type names known to the process; the name alone determines how contents are decoded. */
  type Registry = set<string>

  function TypeName(t: Task): string {
    match t
    case ProAttachment(_) => PRO_ATTACHMENT
    case LandscapeConfigure(_) => LANDSCAPE_CONFIGURE
    case Plain(name, _) => name
  }

  function Encode(t: Task): Tagged {
    match t
    case ProAttachment(token) => Tagged(PRO_ATTACHMENT, Some(Mapping(map["token" := token])))
    case LandscapeConfigure(config) => Tagged(LANDSCAPE_CONFIGURE, Some(Mapping(map["config" := config])))
    case Plain(name, payload) => Tagged(name, Some(Mapping(map["payload" := payload])))
  }

  /** A field that the document does not mention keeps its zero value. */
  function Field(fields: map<string, string>, name: string): string {
    if name in fields then fields[name] else ""
  }

  function Decode(registry: Registry, entry: Tagged): Result<Task> {
    match entry.node
    case None => Failure(NilNode)
    case Some(node) =>
      if entry.typeName !in registry then Failure(NotRegistered)
      else if node.Malformed? then Failure(Undecodable)
      else if entry.typeName == PRO_ATTACHMENT then Success(ProAttachment(Field(node.fields, "token")))
      else if entry.typeName == LANDSCAPE_CONFIGURE then Success(LandscapeConfigure(Field(node.fields, "config")))
      else Success(Plain(entry.typeName, Field(node.fields, "payload")))
  }

  function Marshal(tasks: seq<Task>): (out: seq<Tagged>) {
    Map(Encode, tasks)
  }

  /** The whole document is rejected as soon as one entry cannot be decoded. */
  function Unmarshal(registry: Registry, document: seq<Tagged>): (r: Result<seq<Task>>)
    ensures r.Success? ==> |r.value| == |document|
  {
    if document == [] then Success([]) else
      match Decode(registry, document[0])
      case Failure(e) => Failure(e)
      case Success(t) =>
        match Unmarshal(registry, document[1..])
        case Failure(e) => Failure(e)
        case Success(ts) => Success([t] + ts)
  }

  ghost predicate AllRegistered(registry: Registry, tasks: seq<Task>) {
    forall t :: t in tasks ==> TypeName(t) in registry
  }

  /** Storing and reading back is the identity exactly when every type name is registered; otherwise reading fails. */
  lemma {:induction false} RoundTrip(registry: Registry, tasks: seq<Task>)
    ensures AllRegistered(registry, tasks) ==> Unmarshal(registry, Marshal(tasks)) == Success(tasks)
    ensures !AllRegistered(registry, tasks) ==> Unmarshal(registry, Marshal(tasks)) == Failure(NotRegistered)
  {
    if tasks == [] {
      assert Marshal(tasks) == [];
    } else {
      assert Marshal(tasks)[1..] == Marshal(tasks[1..]);
      assert Marshal(tasks)[0] == Encode(tasks[0]);
      assert tasks == [tasks[0]] + tasks[1..];
      assert Decode(registry, Encode(tasks[0])) ==
             if TypeName(tasks[0]) in registry then Success(tasks[0]) else Failure(NotRegistered);
      RoundTrip(registry, tasks[1..]);
    }
  }

  /** What is written for each type: its name, and one field. */
  lemma StoredForm(t: Task)
    ensures Encode(t).node.Some? && Encode(t).node.value.Mapping?
    ensures var fields := Encode(t).node.value.fields;
      match t
      case ProAttachment(token) => Encode(t).typeName == "tasks.ProAttachment" && fields == map["token" := token]
      case LandscapeConfigure(config) => Encode(t).typeName == "tasks.LandscapeConfigure" && fields == map["config" := config]
      case Plain(name, payload) => Encode(t).typeName == name && fields == map["payload" := payload]
  {
  }

  predicate Decodable(registry: Registry, entry: Tagged) {
    entry.node.Some? && entry.typeName in registry && entry.node.value.Mapping?
  }

  /** A document is read exactly when each of its entries has contents of a registered type; position by position. */
  lemma {:induction false} UnmarshalSucceedsIff(registry: Registry, document: seq<Tagged>)
    ensures Unmarshal(registry, document).Success? <==> forall i :: 0 <= i < |document| ==> Decodable(registry, document[i])
    ensures Unmarshal(registry, document).Success? ==>
      forall i :: 0 <= i < |document| ==>
        TypeName(Unmarshal(registry, document).value[i]) == document[i].typeName
  {
    if document != [] {
      UnmarshalSucceedsIff(registry, document[1..]);
      var rest := document[1..];
      assert forall i :: 0 < i < |document| ==> document[i] == rest[i - 1];
      assert Decode(registry, document[0]).Success? <==> Decodable(registry, document[0]);
    }
  }
}

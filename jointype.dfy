/** The join type (lib/jointype.js) and the dispatch to the four strategies
    that override its `initMapping` and `follow`. A join is an object whose
    option setters assign its fields while it is being constructed, and
    whose `follow` fills a follower cache once. */
module JoinTypes {
  import opened Js
  import opened Errors
  import opened Resolution
  import DBRefJoin
  import FkJoin
  import MappedJoin
  import QueryJoin

  /** Which constructor built the join: the base type or one of the four
      registered strategies. */
  datatype Kind = Base | DBRef | Fk | Mapped | Query

  /** The `initMapping` in force for a kind; the base one is the identity. */
  function InitMappingOf(kind: Kind, path: string, val: JsVal): (r: Result<JsVal, Fault>)
    ensures r.Success? ==> Normalised(kind, r.value)
    ensures kind.Base? ==> r == Success(val)
  {
    match kind
    case Base => Success(val)
    case DBRef => InitToFrom(path, val)
    case Fk => InitToFrom(path, val)
    case Mapped => MappedJoin.InitMapping(path, val)
    case Query => QueryJoin.InitMapping(path, val)
  }

  /** The mappings a kind's `initMapping` accepts unchanged. */
  predicate Normalised(kind: Kind, m: JsVal) {
    match kind
    case Base => true
    case DBRef => OneOfToFrom(m)
    case Fk => OneOfToFrom(m)
    case Mapped => MappedJoin.Normalised(m)
    case Query => m.Func?
  }

  /** Whatever the kind, `initMapping` gives an accepted mapping back
      unchanged, so normalising is idempotent. */
  lemma NormalisedIsFixedPoint(kind: Kind, path: string, m: JsVal)
    requires Normalised(kind, m)
    ensures InitMappingOf(kind, path, m) == Success(m)
  {
    if kind.Mapped? {
      assert Get(m, "to") == m.props["to"] && Get(m, "from") == m.props["from"];
      assert m.props == map["to" := m.props["to"], "from" := m.props["from"]];
    }
  }

  /** A built follower of one of the four strategies. */
  datatype Follower =
    | DBRefFollower(d: DBRefJoin.Follower)
    | FkFollower(f: FkJoin.Follower)
    | MappedFollower(m: MappedJoin.Follower)
    | QueryFollower(q: QueryJoin.Follower)

  function BuildFollower(kind: Kind, m: JsVal): (f: Follower)
    requires !kind.Base? && Normalised(kind, m)
  {
    match kind
    case DBRef => DBRefFollower(DBRefJoin.BuildFollower(m))
    case Fk => FkFollower(FkJoin.BuildFollower(m))
    case Mapped => MappedFollower(MappedJoin.BuildFollower(m))
    case Query => QueryFollower(QueryJoin.BuildFollower(m))
  }

  function RunFollower(f: Follower, s: Settings, doc: Doc, target: Option<Target>,
                       invoke: (nat, Doc) -> JsVal, store: Request -> Reply): (o: Outcome)
  {
    match f
    case DBRefFollower(d) => DBRefJoin.Run(d, s, doc, target, store)
    case FkFollower(k) => FkJoin.Run(k, s, doc, target, store)
    case MappedFollower(m) => MappedJoin.Run(m, s, doc, target, store)
    case QueryFollower(q) => QueryJoin.Run(q, s, doc, target, invoke, store)
  }

  /** The configuration a join's fields hold. */
  datatype Config = Config(resultSet: bool, nullOk: bool, targetSchema: JsVal, mappedBy: JsVal)

  /** The fields before any option is applied: not a result set, nullable,
      target and mapping undefined. */
  const Defaults := Config(false, true, Undefined, Undefined)

  /** The option keys that name a method a join applies during construction.
      Any other key is skipped. */
  const Setters: set<string> := {"target", "multiple", "nullable", "mapping", "bind", "initSchema", "initMapping"}

  /** Keys whose application this model does not follow: they re-enter the
      constructor, run a follower on an option value, call a value the user
      stored in a field, or call a method every object inherits. */
  const ReservedKeys: set<string> :=
    {"follow", "constructor", "mappedBy", "targetSchema", "toString", "toLocaleString",
     "valueOf", "hasOwnProperty", "isPrototypeOf", "propertyIsEnumerable",
     "__defineGetter__", "__defineSetter__", "__lookupGetter__", "__lookupSetter__", "__proto__"}

  /** The own keys of an options object, in `for-in` order, with their values. */
  type Entries = seq<(string, JsVal)>

  predicate NoReservedKeys(es: Entries) {
    forall i :: 0 <= i < |es| ==> es[i].0 !in ReservedKeys
  }

  /** One step of the constructor's loop: `this[key].apply(this, args)` when
      `key` names a method, where a one-parameter setter sees the first
      argument only. `multiple` holds only for exactly `true`; `nullable`
      is off only for exactly `false`; `mapping` and `initMapping` may throw. */
  function ApplyOption(kind: Kind, path: string, c: Config, key: string, v: JsVal): (r: Result<Config, Fault>)
    requires key !in ReservedKeys
    ensures key !in Setters ==> r == Success(c)
    ensures r.Success? ==> r.value.mappedBy == c.mappedBy || key == "mapping"
    ensures r.Failure? ==>
              && key in {"mapping", "initMapping"} && InitMappingOf(kind, path, FirstArg(v)).Failure?
              && r.error == InitMappingOf(kind, path, FirstArg(v)).error
  {
    var arg := FirstArg(v);
    if key !in Setters then Success(c)
    else if key == "target" then Success(c.(targetSchema := arg))
    else if key == "multiple" then Success(c.(resultSet := arg == Bool(true)))
    else if key == "nullable" then Success(c.(nullOk := arg != Bool(false)))
    else if key == "mapping" then
      match InitMappingOf(kind, path, arg)
      case Failure(e) => Failure(e)
      case Success(m) => Success(c.(mappedBy := m))
    else if key == "initMapping" then
      // validates (and resets the follower cache) but its result is dropped
      match InitMappingOf(kind, path, arg)
      case Failure(e) => Failure(e)
      case Success(_) => Success(c)
    else Success(c) // `bind` and `initSchema` return a value that is dropped
  }

  /** The constructor's loop over the options, from the defaults; the first
      setter that throws aborts the construction. */
  function Configure(kind: Kind, path: string, es: Entries): (r: Result<Config, Fault>)
    requires NoReservedKeys(es)
    decreases |es|
  {
    if |es| == 0 then Success(Defaults)
    else
      match Configure(kind, path, es[..|es| - 1])
      case Failure(e) => Failure(e)
      case Success(c) => ApplyOption(kind, path, c, es[|es| - 1].0, es[|es| - 1].1)
  }

  /** Once a setter has thrown, the later options are never applied. */
  lemma {:induction false} ConfigureStops(kind: Kind, path: string, es: Entries, n: nat)
    requires NoReservedKeys(es) && n <= |es|
    requires NoReservedKeys(es[..n]) && Configure(kind, path, es[..n]).Failure?
    ensures Configure(kind, path, es) == Configure(kind, path, es[..n])
    decreases |es|
  {
    if n < |es| {
      var prefix := es[..|es| - 1];
      assert NoReservedKeys(prefix) by {
        forall i | 0 <= i < |prefix| ensures prefix[i].0 !in ReservedKeys { assert prefix[i] == es[i]; }
      }
      assert prefix[..n] == es[..n];
      ConfigureStops(kind, path, prefix, n);
    } else {
      assert es[..n] == es;
    }
  }

  /** The value an options object holds for `key` (the last entry with that
      key; an object's keys are distinct). */
  function OptionValue(es: Entries, key: string): (v: Option<JsVal>)
    decreases |es|
  {
    if |es| == 0 then None
    else if es[|es| - 1].0 == key then Some(es[|es| - 1].1)
    else OptionValue(es[..|es| - 1], key)
  }

  /** The argument the setter for `key` receives, if the key is present. */
  function OptionArg(es: Entries, key: string): (v: Option<JsVal>)
  {
    match OptionValue(es, key)
    case None => None
    case Some(v) => Some(FirstArg(v))
  }

  /** An entry whose application throws. */
  predicate Throws(kind: Kind, path: string, e: (string, JsVal)) {
    e.0 in {"mapping", "initMapping"} && InitMappingOf(kind, path, FirstArg(e.1)).Failure?
  }

  /** What a successful construction leaves in the fields, stated key by key
      against the options: `resultSet` is true iff `multiple` is given as
      exactly `true`; `nullOk` is false iff `nullable` is given as exactly
      `false`; `targetSchema` is the `target` argument unchanged; `mappedBy`
      is `initMapping` of the `mapping` argument; absent keys leave the
      defaults. */
  lemma {:induction false} ConfigureFields(kind: Kind, path: string, es: Entries)
    requires NoReservedKeys(es)
    requires Configure(kind, path, es).Success?
    ensures var c := Configure(kind, path, es).value;
            && c.resultSet == (OptionArg(es, "multiple") == Some(Bool(true)))
            && c.nullOk == (OptionArg(es, "nullable") != Some(Bool(false)))
            && c.targetSchema == (if OptionArg(es, "target").Some? then OptionArg(es, "target").value else Undefined)
            && (OptionArg(es, "mapping").None? ==> c.mappedBy == Undefined)
            && (OptionArg(es, "mapping").Some? ==>
                  InitMappingOf(kind, path, OptionArg(es, "mapping").value) == Success(c.mappedBy))
    decreases |es|
  {
    if |es| > 0 {
      var prefix := es[..|es| - 1];
      assert NoReservedKeys(prefix) by {
        forall i | 0 <= i < |prefix| ensures prefix[i].0 !in ReservedKeys { assert prefix[i] == es[i]; }
      }
      ConfigureFields(kind, path, prefix);
    }
  }

  /** Construction fails exactly when some `mapping` or `initMapping` entry
      is refused by `initMapping`. */
  lemma {:induction false} ConfigureFailure(kind: Kind, path: string, es: Entries)
    requires NoReservedKeys(es)
    ensures Configure(kind, path, es).Failure? <==> exists i :: 0 <= i < |es| && Throws(kind, path, es[i])
    decreases |es|
  {
    if |es| > 0 {
      var n := |es| - 1;
      var prefix := es[..n];
      assert NoReservedKeys(prefix) by {
        forall i | 0 <= i < |prefix| ensures prefix[i].0 !in ReservedKeys { assert prefix[i] == es[i]; }
      }
      ConfigureFailure(kind, path, prefix);
      assert forall i :: 0 <= i < n ==> prefix[i] == es[i];
    }
  }

  /** The error a failed construction reports is the one of the first
      refused entry. */
  lemma {:induction false} ConfigureFirstError(kind: Kind, path: string, es: Entries, i: nat)
    requires NoReservedKeys(es) && i < |es|
    requires Throws(kind, path, es[i]) && forall j :: 0 <= j < i ==> !Throws(kind, path, es[j])
    ensures Configure(kind, path, es) == Failure(InitMappingOf(kind, path, FirstArg(es[i].1)).error)
    decreases |es|
  {
    var n := |es| - 1;
    var prefix := es[..n];
    assert NoReservedKeys(prefix) by {
      forall k | 0 <= k < |prefix| ensures prefix[k].0 !in ReservedKeys { assert prefix[k] == es[k]; }
    }
    if i < n {
      assert prefix[i] == es[i];
      forall j | 0 <= j < i ensures !Throws(kind, path, prefix[j]) { assert prefix[j] == es[j]; }
      ConfigureFirstError(kind, path, prefix, i);
    } else {
      ConfigureFailure(kind, path, prefix);
      assert forall j :: 0 <= j < n ==> prefix[j] == es[j];
    }
  }

  /** The base `follow` as intended: the callback always gets the
      FollowerError "NOT YET IMPLEMENTED" for the join's path, and never a
      result. */
  function Backstop(path: string): (o: Outcome)
  {
    Outcome(None, Fail(MakeError(FollowerError, path, "NOT YET IMPLEMENTED")))
  }

  /** The base `follow` as written: `new FollowerError(this, this.path,
      "NOT YET IMPLEMENTED")` hands the constructor the join as its path and
      the path as its detail, and the message is dropped. The record's path
      then holds the join object itself; the string "[object Object]" (its
      string form) stands in for that object here. */
  function BackstopAsWritten(path: string): (o: Outcome)
  {
    Outcome(None, Fail(MakeError(FollowerError, "[object Object]", path)))
  }

  /** For the path "author" the record as written names neither the path
      nor the reason, while the intended one carries both. */
  lemma BackstopArgumentsShifted()
    ensures var e := BackstopAsWritten("author").reply.err.value.fault;
            e.path != "author" && e.detail == "author"
    ensures var e := Backstop("author").reply.err.value.fault;
            e.path == "author" && e.detail == "NOT YET IMPLEMENTED"
  {
  }

  /** What following a join of this kind and configuration does, with a
      freshly built follower. */
  function Resolve(kind: Kind, path: string, c: Config, doc: Doc, target: Option<Target>,
                   invoke: (nat, Doc) -> JsVal, store: Request -> Reply): (o: Outcome)
    requires Normalised(kind, c.mappedBy)
  {
    if kind.Base? then Backstop(path)
    else RunFollower(BuildFollower(kind, c.mappedBy), Settings(path, c.resultSet, c.nullOk), doc, target, invoke, store)
  }

  /** A join follows with its own kind's strategy: the base kind's backstop,
      or that strategy's follower built from the join's mapping and run with
      the join's own path, result-set and nullability settings; and it
      validates mappings with that strategy's `initMapping`. */
  lemma KindStrategies(kind: Kind, path: string, c: Config, val: JsVal, doc: Doc, target: Option<Target>,
                       invoke: (nat, Doc) -> JsVal, store: Request -> Reply)
    requires Normalised(kind, c.mappedBy)
    ensures var s := Settings(path, c.resultSet, c.nullOk);
            var o := Resolve(kind, path, c, doc, target, invoke, store);
            && (kind.Base? ==> o == Backstop(path) && InitMappingOf(kind, path, val) == Success(val))
            && (kind.DBRef? ==>
                  && o == DBRefJoin.Run(DBRefJoin.BuildFollower(c.mappedBy), s, doc, target, store)
                  && InitMappingOf(kind, path, val) == InitToFrom(path, val))
            && (kind.Fk? ==>
                  && o == FkJoin.Run(FkJoin.BuildFollower(c.mappedBy), s, doc, target, store)
                  && InitMappingOf(kind, path, val) == InitToFrom(path, val))
            && (kind.Mapped? ==>
                  && o == MappedJoin.Run(MappedJoin.BuildFollower(c.mappedBy), s, doc, target, store)
                  && InitMappingOf(kind, path, val) == MappedJoin.InitMapping(path, val))
            && (kind.Query? ==>
                  && o == QueryJoin.Run(QueryJoin.BuildFollower(c.mappedBy), s, doc, target, invoke, store)
                  && InitMappingOf(kind, path, val) == QueryJoin.InitMapping(path, val))
  {
  }

  /** The base `follow` never delivers a result and sends nothing. */
  lemma BaseNeverResolves(path: string, c: Config, doc: Doc, target: Option<Target>,
                          invoke: (nat, Doc) -> JsVal, store: Request -> Reply)
    ensures var o := Resolve(Base, path, c, doc, target, invoke, store);
            o.issued.None? && o.reply.err == Some(Raised(JoinFault(FollowerError, path, "NOT YET IMPLEMENTED")))
  {
  }

  /** Every strategy: a nullable join hands the store's answer to its
      callback untouched. */
  lemma NullablePassesThrough(kind: Kind, path: string, c: Config, doc: Doc, target: Option<Target>,
                              invoke: (nat, Doc) -> JsVal, store: Request -> Reply)
    requires Normalised(kind, c.mappedBy) && c.nullOk
    ensures var o := Resolve(kind, path, c, doc, target, invoke, store);
            o.issued.Some? ==> o.reply == store(o.issued.value)
  {
  }

  /** Every strategy: a join that is not nullable never reports success with
      an absent value, and never reports success for `find` without a first
      document. */
  lemma NonNullableNeverEmpty(kind: Kind, path: string, c: Config, doc: Doc, target: Option<Target>,
                              invoke: (nat, Doc) -> JsVal, store: Request -> Reply)
    requires Normalised(kind, c.mappedBy) && !c.nullOk
    ensures var o := Resolve(kind, path, c, doc, target, invoke, store);
            o.reply.err.None? ==>
              && !ValueNullish(o.reply.val)
              && (o.issued.Some? && o.issued.value.Find? ==> HasFirst(o.reply.val))
  {
  }

  /** Every strategy: whenever a query is sent, the target model was found. */
  lemma QueryNeedsTarget(kind: Kind, path: string, c: Config, doc: Doc,
                         invoke: (nat, Doc) -> JsVal, store: Request -> Reply)
    requires Normalised(kind, c.mappedBy)
    ensures Resolve(kind, path, c, doc, None, invoke, store).issued.None?
  {
  }

  /** The worked example: a foreign-key join `author` declared with
      `mapping: {from: "authorId"}` and `nullable: false`, followed on a post
      that has no `authorId`, answers `(null, ConstraintError)` for the path
      `author` and sends no query. */
  lemma AuthorScenario(target: Option<Target>, invoke: (nat, Doc) -> JsVal, store: Request -> Reply)
    ensures var es := [("mapping", Obj(map["from" := Str("authorId")])), ("nullable", Bool(false))];
            var c := Configure(Fk, "author", es);
            && c.Success? && !c.value.nullOk && !c.value.resultSet
            && Resolve(Fk, "author", c.value, Doc("posts", map["title" := Str("On joins")]), target, invoke, store)
               == Outcome(None, Reply(None, ErrorObject(JoinFault(ConstraintError, "author", "is null"))))
  {
    var m := Obj(map["from" := Str("authorId")]);
    var es := [("mapping", m), ("nullable", Bool(false))];
    assert es[..1] == [("mapping", m)] && es[..1][..0] == [];
    assert Get(m, "to") == Undefined && Get(m, "from") == Str("authorId");
    assert Configure(Fk, "author", es[..1]) == Success(Defaults.(mappedBy := m));
  }

  /** A bare string given as a foreign-key mapping names the TARGET's field:
      the join is mapped-to and asks for `{[name]: model._id}`. */
  lemma StringMappingIsMappedTo(path: string, name: string, resultSet: bool, nullOk: bool, doc: Doc,
                                t: Target, invoke: (nat, Doc) -> JsVal, store: Request -> Reply)
    ensures var m := InitMappingOf(Fk, path, Str(name));
            && m.Success?
            && Resolve(Fk, path, Config(resultSet, nullOk, Undefined, m.value), doc, Some(t), invoke, store).issued.value.query
               == Obj(map[name := Id(doc)])
  {
    var m := Obj(map["to" := Str(name)]);
    assert Get(m, "to") == Str(name);
  }

  /** An options object: its own keys in `for-in` order. The schema layer
      writes `options.target` into the caller's object in place. */
  class Options {
    var entries: Entries

    constructor (entries: Entries)
      ensures this.entries == entries
    {
      this.entries := entries;
    }

    /** `options[key] = v`. */
    method Set(key: string, v: JsVal)
      modifies this
      ensures entries == SetKey(old(entries), key, v)
    {
      entries := SetKey(entries, key, v);
    }
  }

  /** Every entry with `key` given the value `v`. */
  function Replace(es: Entries, key: string, v: JsVal): (r: Entries)
    ensures |r| == |es|
    ensures forall i :: 0 <= i < |es| ==> r[i].0 == es[i].0
    decreases |es|
  {
    if |es| == 0 then []
    else
      var last := es[|es| - 1];
      Replace(es[..|es| - 1], key, v) + [if last.0 == key then (key, v) else last]
  }

  /** Assigning a property: an existing key keeps its place in the
      enumeration order, a new one goes last. */
  function SetKey(es: Entries, key: string, v: JsVal): (r: Entries)
  {
    if exists i :: 0 <= i < |es| && es[i].0 == key then Replace(es, key, v) else es + [(key, v)]
  }

  /** After `options[key] = v` the object holds `v` for `key` and the same
      values for every other key. */
  lemma {:induction false} SetKeyLookup(es: Entries, key: string, v: JsVal, other: string)
    requires other != key
    ensures OptionValue(SetKey(es, key, v), key) == Some(v)
    ensures OptionValue(SetKey(es, key, v), other) == OptionValue(es, other)
  {
    if exists i :: 0 <= i < |es| && es[i].0 == key {
      ReplaceLookup(es, key, v, other);
    } else {
      var r := es + [(key, v)];
      assert r[..|r| - 1] == es;
    }
  }

  lemma {:induction false} ReplaceLookup(es: Entries, key: string, v: JsVal, other: string)
    requires other != key
    ensures (exists i :: 0 <= i < |es| && es[i].0 == key) ==> OptionValue(Replace(es, key, v), key) == Some(v)
    ensures OptionValue(Replace(es, key, v), other) == OptionValue(es, other)
    decreases |es|
  {
    if |es| > 0 {
      var n := |es| - 1;
      var prefix := es[..n];
      ReplaceLookup(prefix, key, v, other);
      var r := Replace(es, key, v);
      assert r[..n] == Replace(prefix, key, v);
      if es[n].0 != key && exists i :: 0 <= i < |es| && es[i].0 == key {
        var i :| 0 <= i < |es| && es[i].0 == key;
        assert prefix[i].0 == key;
      }
    }
  }

  /** Setting a key that is not reserved keeps an options list free of
      reserved keys. */
  lemma SetKeyNoReserved(es: Entries, key: string, v: JsVal)
    requires NoReservedKeys(es) && key !in ReservedKeys
    ensures NoReservedKeys(SetKey(es, key, v))
  {
    if exists i :: 0 <= i < |es| && es[i].0 == key {
      var r := Replace(es, key, v);
      assert forall i :: 0 <= i < |r| ==> r[i].0 == es[i].0;
    }
  }

  /** A join bound to one document (`join.bind(model)`): a fresh value on
      every call that closes over the join and the document. */
  datatype Binding = Binding(join: JoinType, doc: Doc) {

    /** `binding.follow(callback)`: exactly `join.follow(model, callback)`. */
    method Follow(target: Option<Target>, invoke: (nat, Doc) -> JsVal, store: Request -> Reply)
      returns (o: Outcome)
      requires join.Valid() && (join.kind.Base? || !join.mappedBy.Undefined?)
      modifies join`follower
      ensures join.Valid()
      ensures o == Resolve(join.kind, join.path, join.Current(), doc, target, invoke, store)
      ensures old(join.follower).Some? ==> join.follower == old(join.follower)
    {
      o := join.Follow(doc, target, invoke, store);
    }
  }

  class JoinType {
    const kind: Kind
    const path: string
    const options: Options
    var resultSet: bool
    var nullOk: bool
    var targetSchema: JsVal
    var mappedBy: JsVal
    /** The memoised `_follower`; None stands for null. */
    var follower: Option<Follower>

    /** A mapping that has been set is one `initMapping` accepted, and a
        cached follower is the one the current mapping builds. */
    ghost predicate Valid()
      reads this
    {
      && (mappedBy.Undefined? || Normalised(kind, mappedBy))
      && (follower.Some? ==>
            !kind.Base? && Normalised(kind, mappedBy) && follower.value == BuildFollower(kind, mappedBy))
    }

    function Current(): (c: Config)
      reads this
    {
      Config(resultSet, nullOk, targetSchema, mappedBy)
    }

    /** The fields before the option loop runs. */
    constructor (kind: Kind, path: string, options: Options)
      ensures this.kind == kind && this.path == path && this.options == options
      ensures Current() == Defaults && !resultSet && nullOk
      ensures follower.None? && Valid()
    {
      this.kind := kind;
      this.path := path;
      this.options := options;
      resultSet := false;
      nullOk := true;
      targetSchema := Undefined;
      mappedBy := Undefined;
      follower := None;
    }

    /** `target(val)`: `initSchema` is the identity, so the value is kept. */
    method Target(val: JsVal)
      modifies this`targetSchema
      ensures targetSchema == val
    {
      targetSchema := val;
    }

    /** `multiple(bool)`: a result set only for exactly `true`. */
    method Multiple(val: JsVal)
      modifies this`resultSet
      ensures resultSet <==> val == Bool(true)
    {
      resultSet := val == Bool(true);
    }

    /** `nullable(bool)`: not nullable only for exactly `false`. */
    method Nullable(val: JsVal)
      modifies this`nullOk
      ensures !nullOk <==> val == Bool(false)
    {
      nullOk := val != Bool(false);
    }

    /** `initMapping(val)`: a strategy first drops its cached follower, then
        validates. */
    method InitMapping(val: JsVal) returns (r: Result<JsVal, Fault>)
      requires Valid()
      modifies this`follower
      ensures Valid()
      ensures r == InitMappingOf(kind, path, val)
      ensures follower == if kind.Base? then old(follower) else None
    {
      if !kind.Base? {
        follower := None;
      }
      r := InitMappingOf(kind, path, val);
    }

    /** `mapping(val)`: `mappedBy = initMapping(val)`; when that throws the
        old mapping stays, but the cache is already dropped. */
    method Mapping(val: JsVal) returns (r: Result<JsVal, Fault>)
      requires Valid()
      modifies this`follower, this`mappedBy
      ensures Valid()
      ensures r == InitMappingOf(kind, path, val)
      ensures mappedBy == if r.Success? then r.value else old(mappedBy)
      ensures follower == if kind.Base? then old(follower) else None
    {
      r := InitMapping(val);
      if r.Success? {
        mappedBy := r.value;
      }
    }

    /** The constructor's `for (var i in options)` loop. */
    method ApplyOptions() returns (thrown: Option<Fault>)
      requires Valid() && Current() == Defaults && follower.None?
      requires NoReservedKeys(options.entries)
      modifies this`resultSet, this`nullOk, this`targetSchema, this`mappedBy, this`follower
      ensures Valid() && follower.None?
      ensures thrown.None? <==> Configure(kind, path, options.entries).Success?
      ensures thrown.Some? ==> thrown.value == Configure(kind, path, options.entries).error
      ensures thrown.None? ==> Current() == Configure(kind, path, options.entries).value
    {
      var es := options.entries;
      var i := 0;
      while i < |es|
        invariant 0 <= i <= |es|
        invariant NoReservedKeys(es[..i])
        invariant Valid() && follower.None?
        invariant Configure(kind, path, es[..i]) == Success(Current())
      {
        var key, v := es[i].0, es[i].1;
        assert es[..i + 1][..i] == es[..i];
        var arg := FirstArg(v);
        if key == "target" {
          Target(arg);
        } else if key == "multiple" {
          Multiple(arg);
        } else if key == "nullable" {
          Nullable(arg);
        } else if key == "mapping" {
          var r := Mapping(arg);
          if r.Failure? {
            assert NoReservedKeys(es[..i + 1]);
            ConfigureStops(kind, path, es, i + 1);
            return Some(r.error);
          }
        } else if key == "initMapping" {
          var r := InitMapping(arg);
          if r.Failure? {
            assert NoReservedKeys(es[..i + 1]);
            ConfigureStops(kind, path, es, i + 1);
            return Some(r.error);
          }
        }
        i := i + 1;
      }
      assert es[..|es|] == es;
      thrown := None;
    }

    /** A strategy's `follow`: build the follower when the cache is empty,
        reuse it otherwise, and run it on the document. The base `follow`
        has no cache. */
    method Follow(doc: Doc, target: Option<Target>, invoke: (nat, Doc) -> JsVal, store: Request -> Reply)
      returns (o: Outcome)
      requires Valid()
      requires kind.Base? || !mappedBy.Undefined?
      modifies this`follower
      ensures Valid()
      ensures o == Resolve(kind, path, Current(), doc, target, invoke, store)
      ensures follower == if kind.Base? then old(follower) else Some(BuildFollower(kind, mappedBy))
      ensures old(follower).Some? ==> follower == old(follower)
    {
      if kind.Base? {
        return Backstop(path);
      }
      if follower.None? {
        follower := Some(BuildFollower(kind, mappedBy));
      }
      var s := Settings(path, resultSet, nullOk);
      match follower.value {
        case MappedFollower(m) =>
          var query := MappedJoin.BuildQuery(m.to, m.from, doc);
          o := Dispatch(s, Obj(query), target, store);
        case _ =>
          o := RunFollower(follower.value, s, doc, target, invoke, store);
      }
    }

    /** `bind(model)`: touches no field of the join. */
    function Bind(doc: Doc): (b: Binding)
    {
      Binding(this, doc)
    }
  }

  /** `new Strategy(path, options)`: the fields, then the option loop; an
      exception from a setter means no join is produced. */
  method New(kind: Kind, path: string, options: Options) returns (r: Result<JoinType, Fault>)
    requires NoReservedKeys(options.entries)
    ensures r.Success? <==> Configure(kind, path, options.entries).Success?
    ensures r.Failure? ==> r.error == Configure(kind, path, options.entries).error
    ensures r.Success? ==>
              && fresh(r.value) && r.value.Valid() && r.value.follower.None?
              && r.value.kind == kind && r.value.path == path && r.value.options == options
              && r.value.Current() == Configure(kind, path, options.entries).value
  {
    var join := new JoinType(kind, path, options);
    var thrown := join.ApplyOptions();
    if thrown.Some? {
      return Failure(thrown.value);
    }
    return Success(join);
  }

  /** Following the same binding twice with the store unchanged gives the
      same answer: the cached follower does not change behaviour. */
  method FollowTwice(b: Binding, target: Option<Target>, invoke: (nat, Doc) -> JsVal, store: Request -> Reply)
    returns (first: Outcome, second: Outcome)
    requires b.join.Valid() && (b.join.kind.Base? || !b.join.mappedBy.Undefined?)
    modifies b.join
    ensures first == second
  {
    first := b.Follow(target, invoke, store);
    second := b.Follow(target, invoke, store);
  }
}

/** The schema patch (lib/patches/schema.js): `schema.join(path)` looks a
    join up, `schema.join(path, type, target, options)` builds one from the
    registered join types and installs it on the schema, with a virtual
    getter at `path` that binds the join to the document it is read on. */
module SchemaJoins {
  import opened Js
  import opened Errors
  import opened Resolution
  import opened JoinTypes

  /** The lookup form's answer: `null` when the schema has no `joins` yet,
      `undefined` for an undeclared path, otherwise the join. */
  datatype Found = NoJoins | Undeclared | Declared(join: JoinType)

  /** The type name resolves in `Schema.JoinTypes`. */
  predicate Registered(registry: Option<map<string, Kind>>, typeName: string) {
    registry.Some? && typeName in registry.value
  }

  const NotRegistered := "no such join type registered"

  /** The options a registered join is built with: the caller's options (or
      a new empty object for null) with `target` assigned. */
  function Merged(entries: Entries, target: JsVal): (r: Entries)
  {
    SetKey(entries, "target", target)
  }

  /** A join built from merged options takes its target schema from the
      `target` argument, the first element if it is an array. */
  lemma MergedTarget(kind: Kind, path: string, entries: Entries, target: JsVal)
    requires NoReservedKeys(entries)
    ensures NoReservedKeys(Merged(entries, target))
    ensures Configure(kind, path, Merged(entries, target)).Success? ==>
              Configure(kind, path, Merged(entries, target)).value.targetSchema == FirstArg(target)
  {
    SetKeyNoReserved(entries, "target", target);
    SetKeyLookup(entries, "target", target, "mapping");
    if Configure(kind, path, Merged(entries, target)).Success? {
      ConfigureFields(kind, path, Merged(entries, target));
    }
  }

  /** What a join built from the merged options `es` holds: a valid join of
      `kind` on `path` with an empty follower cache, whose options are `es`,
      whose fields are what the option loop computes from `es`, and whose
      target schema comes from `target`. */
  ghost predicate BuiltFrom(join: JoinType, kind: Kind, path: string, es: Entries, target: JsVal)
    reads join, join.options
  {
    && NoReservedKeys(es)
    && join.Valid() && join.follower.None?
    && join.kind == kind && join.path == path
    && join.options.entries == es
    && Configure(kind, path, es).Success?
    && join.Current() == Configure(kind, path, es).value
    && join.targetSchema == FirstArg(target)
  }

  /** `buildJoin`: the registry must exist and hold the type's name; null
      options become a new object; `options.target = target` writes into the
      caller's object; then the registered constructor runs, and may throw. */
  method BuildJoin(registry: Option<map<string, Kind>>, path: string, typeName: string,
                   target: JsVal, options: Options?)
    returns (r: Result<JoinType, Fault>)
    requires options != null ==> NoReservedKeys(options.entries)
    modifies options
    ensures !Registered(registry, typeName) ==>
              && r == Failure(Raised(JoinFault(JoinError, path, NotRegistered)))
              && (options != null ==> options.entries == old(options.entries))
    ensures Registered(registry, typeName) ==>
              var kind := registry.value[typeName];
              var es := Merged(if options == null then [] else old(options.entries), target);
              && NoReservedKeys(es)
              && (options != null ==> options.entries == es)
              && (r.Success? <==> Configure(kind, path, es).Success?)
              && (r.Failure? ==> r.error == Configure(kind, path, es).error)
              && (r.Success? ==>
                    && fresh(r.value)
                    && (options != null ==> r.value.options == options)
                    && BuiltFrom(r.value, kind, path, es, target))
  {
    if !Registered(registry, typeName) {
      return Failure(Raised(MakeError(JoinError, path, NotRegistered)));
    }
    var kind := registry.value[typeName];
    var opts := options;
    if opts == null {
      opts := new Options([]);
    }
    MergedTarget(kind, path, opts.entries, target);
    opts.Set("target", target);
    r := New(kind, path, opts);
  }

  class Schema {
    /** `Schema.JoinTypes`: None when no join type was ever loaded. */
    const registry: Option<map<string, Kind>>
    /** `schema.joins`: None until the first declaration. */
    var joins: Option<map<string, JoinType>>
    /** The virtual getters installed by declarations: reading `path` on a
        document gives `getters[path].bind(document)`. */
    var getters: map<string, JoinType>

    constructor (registry: Option<map<string, Kind>>)
      ensures this.registry == registry && joins.None? && getters == map[]
    {
      this.registry := registry;
      joins := None;
      getters := map[];
    }

    function Lookup(path: string): (f: Found)
      reads this
    {
      if joins.None? then NoJoins
      else if path !in joins.value then Undeclared
      else Declared(joins.value[path])
    }

    /** The joins recorded so far, an absent `joins` read as empty. */
    function Recorded(): (m: map<string, JoinType>)
      reads this
    {
      if joins.None? then map[] else joins.value
    }

    /** The virtual at `path` read on a document. */
    function Virtual(path: string, doc: Doc): (b: Option<Binding>)
      reads this
    {
      if path in getters then Some(getters[path].Bind(doc)) else None
    }

    /** `schema.join(path, type, target, options)`. With `type` absent it is a
        lookup and changes nothing. Otherwise `joins` is created if absent,
        the join is built, and only a join that was built is recorded under
        `path` and given a virtual getter. */
    method Join(path: string, typeName: Option<string>, target: JsVal, options: Options?)
      returns (r: Result<Found, Fault>)
      requires typeName.Some? && options != null ==> NoReservedKeys(options.entries)
      modifies this`joins, this`getters, options
      ensures typeName.None? ==>
                && r == Success(Lookup(path))
                && joins == old(joins) && getters == old(getters)
                && (options != null ==> options.entries == old(options.entries))
      ensures typeName.Some? ==> joins.Some?
      ensures typeName.Some? && !Registered(registry, typeName.value) ==>
                && r == Failure(Raised(JoinFault(JoinError, path, NotRegistered)))
                && joins == Some(old(Recorded())) && getters == old(getters)
                && (options != null ==> options.entries == old(options.entries))
      ensures typeName.Some? && Registered(registry, typeName.value) ==>
                var kind := registry.value[typeName.value];
                var es := Merged(if options == null then [] else old(options.entries), target);
                && NoReservedKeys(es)
                && (options != null ==> options.entries == es)
                && (r.Failure? <==> Configure(kind, path, es).Failure?)
                && (r.Failure? ==>
                      && r.error == Configure(kind, path, es).error
                      && joins == Some(old(Recorded())) && getters == old(getters))
                && (r.Success? ==>
                      && r.value.Declared? && fresh(r.value.join)
                      && joins == Some(old(Recorded())[path := r.value.join])
                      && getters == old(getters)[path := r.value.join]
                      && (options != null ==> r.value.join.options == options)
                      && BuiltFrom(r.value.join, kind, path, es, target))
    {
      if typeName.None? {
        return Success(Lookup(path));
      }
      if joins.None? {
        joins := Some(map[]);
      }
      var built := BuildJoin(registry, path, typeName.value, target, options);
      if built.Failure? {
        return Failure(built.error);
      }
      var join := built.value;
      getters := getters[path := join];
      joins := Some(joins.value[path := join]);
      r := Success(Declared(join));
    }
  }

  /** A join declared on a path is what the lookup form then returns, and
      what the virtual getter binds. */
  method DeclareThenLookup(schema: Schema, path: string, typeName: string, target: JsVal,
                           options: Options?, doc: Doc)
    returns (declared: Result<Found, Fault>, looked: Result<Found, Fault>)
    requires options != null ==> NoReservedKeys(options.entries)
    modifies schema, options
    ensures declared.Success? ==> looked == declared
    ensures declared.Success? ==> declared.value.Declared? && schema.Virtual(path, doc) == Some(Binding(declared.value.join, doc))
  {
    declared := schema.Join(path, Some(typeName), target, options);
    looked := schema.Join(path, None, Undefined, null);
  }
}

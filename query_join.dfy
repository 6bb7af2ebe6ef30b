/** The query join (lib/types/queryJoin.js): the mapping is a factory that
    turns the source document into an arbitrary query. Calling the factory
    runs user code this model cannot see, so it is a parameter:
    `invoke(id, doc)` is what the function with that identity returns. */
module QueryJoin {
  import opened Js
  import opened Errors
  import opened Resolution

  /** `QueryJoin.prototype.initMapping` without its reset of the follower
      cache: only a function is accepted, and it is kept as it is. */
  function InitMapping(path: string, val: JsVal): (r: Result<JsVal, Fault>)
    ensures r.Success? <==> val.Func?
    ensures r.Success? ==> r.value == val
    ensures r.Failure? ==> r.error == Raised(JoinFault(JoinError, path, "mapping not factory"))
  {
    if Typeof(val) != "function" then Failure(Raised(MakeError(JoinError, path, "mapping not factory")))
    else Success(val)
  }

  /** What `buildFollower` captures: the factory. */
  datatype Follower = Follower(factory: nat)

  function BuildFollower(m: JsVal): (f: Follower)
    requires m.Func?
    ensures f.factory == m.id
  {
    Follower(m.id)
  }

  /** The follower: `mapping(model)` is computed first; a result whose
      `typeof` is not "object" gives "query not defined" before the target is
      considered; otherwise the produced value is sent unchanged. */
  function Run(f: Follower, s: Settings, doc: Doc, target: Option<Target>,
               invoke: (nat, Doc) -> JsVal, store: Request -> Reply): (o: Outcome)
    ensures o.issued.Some? <==> Typeof(invoke(f.factory, doc)) == "object" && target.Some?
    ensures o.issued.Some? ==> o.issued.value.query == invoke(f.factory, doc)
  {
    var query := invoke(f.factory, doc);
    if Typeof(query) != "object" then
      Outcome(None, Fail(MakeError(FollowerError, s.path, "query not defined")))
    else Dispatch(s, query, target, store)
  }

  /** The order of the two follower errors, and that a produced value whose
      `typeof` is "object" is handed unchanged to `find` or `findOne` once the
      target is found. Since `typeof null` is "object", a
      factory returning null still sends `null` as the query. */
  lemma QueryChecks(f: Follower, s: Settings, doc: Doc, target: Option<Target>,
                    invoke: (nat, Doc) -> JsVal, store: Request -> Reply)
    ensures var q := invoke(f.factory, doc);
            var o := Run(f, s, doc, target, invoke, store);
            && (!(q.Null? || q.Oid? || q.Arr? || q.Obj?) ==>
                  o == Outcome(None, Fail(JoinFault(FollowerError, s.path, "query not defined"))))
            && ((q.Null? || q.Oid? || q.Arr? || q.Obj?) && target.None? ==> o == TargetMissing(s.path))
            && (o.issued.Some? ==> o.issued.value.query == q && target.Some?)
            && (q.Null? && target.Some? ==> o.issued.Some? && o.issued.value.query == Null)
            && ((q.Null? || q.Oid? || q.Arr? || q.Obj?) && target.Some? ==>
                  && o.issued == Some(if s.resultSet then Find(q) else FindOne(q))
                  && o.reply == (if s.resultSet then OnMany(s.path, s.nullOk, store(Find(q)))
                                 else OnOne(s.path, s.nullOk, store(FindOne(q)))))
  {
  }

  /** The scenario of a factory that yields a string: the follower reports
      "query not defined" whether or not the target exists. */
  lemma NonObjectQuery(f: Follower, s: Settings, doc: Doc, target: Option<Target>, store: Request -> Reply)
    ensures Run(f, s, doc, target, (id: nat, d: Doc) => Str("not a query"), store)
         == Outcome(None, Fail(JoinFault(FollowerError, s.path, "query not defined")))
  {
  }
}

/** The foreign-key join (lib/types/fkJoin.js): the relationship is a plain
    identifier. Mapped-to: target documents whose field `to` equals the
    source's `_id`. Mapped-from: the source's field `from` is the target's
    `_id`; a bare key carries no namespace, so none is checked. */
module FkJoin {
  import opened Js
  import opened Errors
  import opened Resolution

  /** What `buildFollower` captures: the name of the key field. */
  datatype Follower = MappedTo(to: string) | MappedFrom(from: string)

  /** `buildFollower`: mapped-to exactly when `mapping.to` is set. */
  function BuildFollower(m: JsVal): (f: Follower)
    requires IsSet(m)
    ensures f.MappedTo? <==> IsSet(Get(m, "to"))
    ensures OneOfToFrom(m) ==> (f.MappedFrom? <==> IsSet(Get(m, "from")))
    ensures f.MappedTo? ==> f.to == ToStr(Get(m, "to"))
    ensures f.MappedFrom? ==> f.from == ToStr(Get(m, "from"))
  {
    var to := Get(m, "to");
    if IsSet(to) then MappedTo(ToStr(to)) else MappedFrom(ToStr(Get(m, "from")))
  }

  /** The mapped-from follower past a present key: target missing comes
      before "result set impossible"; then `findOne({_id: fk})`. */
  function FromKey(s: Settings, fk: JsVal, target: Option<Target>, store: Request -> Reply): (o: Outcome)
    ensures o.issued.Some? <==> target.Some? && !s.resultSet
    ensures o.issued.Some? ==> o.issued.value == FindOne(Obj(map["_id" := fk]))
  {
    var query := Obj(map["_id" := fk]);
    if target.None? then TargetMissing(s.path)
    else if s.resultSet then
      Outcome(None, Fail(MakeError(FollowerError, s.path, "result set impossible")))
    else FetchOne(s, query, store)
  }

  function Run(f: Follower, s: Settings, doc: Doc, target: Option<Target>, store: Request -> Reply): (o: Outcome)
    ensures o.issued.Some? ==> target.Some?
    ensures s.nullOk && o.issued.Some? ==> o.reply == store(o.issued.value)
  {
    match f
    case MappedTo(to) => Dispatch(s, Obj(map[to := Id(doc)]), target, store)
    case MappedFrom(from) =>
      var fk := Field(doc, from);
      if !IsSet(fk) then Unreferenced(s) else FromKey(s, fk, target, store)
  }

  /** The mapped-to query is exactly `{[to]: model._id}`; it is sent with
      `find` exactly when the join yields a result set, and a missing target
      stops it. The store's answer reaches the callback under the result-set
      or single-result policy. */
  lemma MappedToQuery(m: JsVal, s: Settings, doc: Doc, target: Option<Target>, store: Request -> Reply)
    requires OneOfToFrom(m) && IsSet(Get(m, "to"))
    ensures var o := Run(BuildFollower(m), s, doc, target, store);
            && (o.issued.Some? <==> target.Some?)
            && (o.issued.Some? ==>
                  && o.issued.value.query == Obj(map[ToStr(Get(m, "to")) := Id(doc)])
                  && (o.issued.value.Find? <==> s.resultSet)
                  && o.reply == (if s.resultSet then OnMany(s.path, s.nullOk, store(o.issued.value))
                                 else OnOne(s.path, s.nullOk, store(o.issued.value))))
  {
  }

  /** Without a target model the mapped-to follower reports
      "target schema missing" and sends nothing, whatever the store holds. */
  lemma MappedToTargetMissing(m: JsVal, s: Settings, doc: Doc, store: Request -> Reply)
    requires OneOfToFrom(m) && IsSet(Get(m, "to"))
    ensures Run(BuildFollower(m), s, doc, None, store) == TargetMissing(s.path)
  {
  }

  /** With the source's key absent the answer is `(null, null)` or, when not
      nullable, `(null, ConstraintError)`, whatever the lookup and the store. */
  lemma MappedFromAbsent(m: JsVal, s: Settings, doc: Doc,
                         t1: Option<Target>, t2: Option<Target>,
                         st1: Request -> Reply, st2: Request -> Reply)
    requires OneOfToFrom(m) && IsSet(Get(m, "from"))
    requires !IsSet(Field(doc, ToStr(Get(m, "from"))))
    ensures Run(BuildFollower(m), s, doc, t1, st1) == Run(BuildFollower(m), s, doc, t2, st2) == Unreferenced(s)
  {
  }

  /** With the key present: a missing target is reported first (even for a
      result set); a result set is otherwise impossible; a single-valued join
      sends `findOne({_id: fk})` with no namespace check. */
  lemma MappedFromPresent(m: JsVal, s: Settings, doc: Doc, target: Option<Target>, store: Request -> Reply)
    requires OneOfToFrom(m) && IsSet(Get(m, "from"))
    requires IsSet(Field(doc, ToStr(Get(m, "from"))))
    ensures var o := Run(BuildFollower(m), s, doc, target, store);
            var fk := Field(doc, ToStr(Get(m, "from")));
            && (target.None? ==> o == TargetMissing(s.path))
            && (target.Some? && s.resultSet ==>
                  o == Outcome(None, Fail(JoinFault(FollowerError, s.path, "result set impossible"))))
            && (target.Some? && !s.resultSet ==>
                  o.issued == Some(FindOne(Obj(map["_id" := fk])))
                  && o.reply == OnOne(s.path, s.nullOk, store(FindOne(Obj(map["_id" := fk])))))
  {
  }

  /** A nullable follower hands the store's answer to the callback untouched,
      whichever of `find` and `findOne` it sent. */
  lemma NullablePassThrough(m: JsVal, s: Settings, doc: Doc, target: Option<Target>, store: Request -> Reply)
    requires OneOfToFrom(m) && s.nullOk
    ensures var o := Run(BuildFollower(m), s, doc, target, store);
            o.issued.Some? ==> o.reply == store(o.issued.value)
  {
  }
}

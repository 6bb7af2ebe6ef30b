/** The DBRef join (lib/types/dbrefJoin.js): the relationship is stored as a
    DBRef, a (namespace, oid) pair. In mapped-to mode the DBRef sits on the
    target documents and points back at the source; in mapped-from mode it
    sits on the source document in the field `from`. */
module DBRefJoin {
  import opened Js
  import opened Errors
  import opened Resolution

  /** What `buildFollower` captures from the mapping. Mapped-to keeps the two
      query keys it computes once, `to + ".$ref"` and `to + ".$id"`;
      mapped-from keeps the name of the source field. */
  datatype Follower = MappedTo(refKey: string, idKey: string) | MappedFrom(from: string)

  /** `buildFollower`: mapped-to exactly when `mapping.to` is set. On a
      normalised mapping that is the same as `from` being unset. */
  function BuildFollower(m: JsVal): (f: Follower)
    requires IsSet(m)
    ensures f.MappedTo? <==> IsSet(Get(m, "to"))
    ensures OneOfToFrom(m) ==> (f.MappedFrom? <==> IsSet(Get(m, "from")))
    ensures f.MappedTo? ==> f.refKey == ToStr(Get(m, "to")) + ".$ref" && f.idKey == ToStr(Get(m, "to")) + ".$id"
    ensures f.MappedFrom? ==> f.from == ToStr(Get(m, "from"))
  {
    var to := Get(m, "to");
    if IsSet(to) then MappedTo(ToStr(to) + ".$ref", ToStr(to) + ".$id")
    else MappedFrom(ToStr(Get(m, "from")))
  }

  /** The mapped-to query: the target's DBRef points at this document's
      collection and `_id`. */
  function ToQuery(refKey: string, idKey: string, doc: Doc): (q: JsVal)
  {
    Obj(map[refKey := Str(doc.collection), idKey := Id(doc)])
  }

  /** The mapped-from follower's checks past a present reference, in the
      order lib/types/dbrefJoin.js makes them: target missing, namespace
      mismatch, result set impossible; then `findOne({_id: ref.oid})`. */
  function FromReference(s: Settings, ref: JsVal, target: Option<Target>, store: Request -> Reply): (o: Outcome)
    requires IsSet(ref)
    ensures o.issued.Some? <==>
              target.Some? && Get(ref, "namespace") == Str(target.value.collection) && !s.resultSet
    ensures o.issued.Some? ==> o.issued.value == FindOne(Obj(map["_id" := Get(ref, "oid")]))
  {
    var query := Obj(map["_id" := Get(ref, "oid")]);
    if target.None? then TargetMissing(s.path)
    else if Get(ref, "namespace") != Str(target.value.collection) then
      Outcome(None, Fail(MakeError(FollowerError, s.path, "namespace mismatch")))
    else if s.resultSet then
      Outcome(None, Fail(MakeError(FollowerError, s.path, "result set impossible")))
    else FetchOne(s, query, store)
  }

  /** Running a built follower on a source document. */
  function Run(f: Follower, s: Settings, doc: Doc, target: Option<Target>, store: Request -> Reply): (o: Outcome)
    ensures o.issued.Some? ==> target.Some?
    ensures s.nullOk && o.issued.Some? ==> o.reply == store(o.issued.value)
  {
    match f
    case MappedTo(refKey, idKey) => Dispatch(s, ToQuery(refKey, idKey, doc), target, store)
    case MappedFrom(from) =>
      var ref := Field(doc, from);
      if !IsSet(ref) then Unreferenced(s) else FromReference(s, ref, target, store)
  }

  /** The mapped-to query has exactly two keys, `to.$ref` holding the source
      collection's name and `to.$id` holding the source's `_id`, and is sent
      with `find` exactly when the join yields a result set; the store's
      answer then reaches the callback under the result-set or single-result
      policy. */
  lemma MappedToQuery(m: JsVal, s: Settings, doc: Doc, t: Target, store: Request -> Reply)
    requires OneOfToFrom(m) && IsSet(Get(m, "to"))
    ensures var o := Run(BuildFollower(m), s, doc, Some(t), store);
            var to := ToStr(Get(m, "to"));
            && o.issued.Some?
            && (o.issued.value.Find? <==> s.resultSet)
            && o.issued.value.query.Obj?
            && o.issued.value.query.props.Keys == {to + ".$ref", to + ".$id"}
            && |o.issued.value.query.props| == 2
            && o.issued.value.query.props[to + ".$ref"] == Str(doc.collection)
            && o.issued.value.query.props[to + ".$id"] == Id(doc)
            && o.reply == (if s.resultSet then OnMany(s.path, s.nullOk, store(o.issued.value))
                           else OnOne(s.path, s.nullOk, store(o.issued.value)))
  {
    var to := ToStr(Get(m, "to"));
    var refKey, idKey := to + ".$ref", to + ".$id";
    assert |refKey| != |idKey|;
    var q := map[refKey := Str(doc.collection), idKey := Id(doc)];
    assert q.Keys == {refKey, idKey};
  }

  /** Without a target model the mapped-to follower reports
      "target schema missing" and sends nothing, whatever the store holds. */
  lemma MappedToTargetMissing(m: JsVal, s: Settings, doc: Doc, store: Request -> Reply)
    requires OneOfToFrom(m) && IsSet(Get(m, "to"))
    ensures Run(BuildFollower(m), s, doc, None, store) == TargetMissing(s.path)
  {
  }

  /** With the source's `from` field absent the answer depends neither on the
      target lookup nor on the store: `(null, null)` or, when not nullable,
      `(null, ConstraintError)`. */
  lemma MappedFromAbsent(m: JsVal, s: Settings, doc: Doc,
                         t1: Option<Target>, t2: Option<Target>,
                         st1: Request -> Reply, st2: Request -> Reply)
    requires OneOfToFrom(m) && IsSet(Get(m, "from"))
    requires !IsSet(Field(doc, ToStr(Get(m, "from"))))
    ensures Run(BuildFollower(m), s, doc, t1, st1) == Run(BuildFollower(m), s, doc, t2, st2) == Unreferenced(s)
  {
  }

  /** A mapped-from follower only ever sends `findOne({_id: ref.oid})`, and
      only once the reference's namespace names the target's collection and
      the join is single-valued. */
  lemma MappedFromRequest(m: JsVal, s: Settings, doc: Doc, target: Option<Target>, store: Request -> Reply)
    requires OneOfToFrom(m) && IsSet(Get(m, "from"))
    ensures var o := Run(BuildFollower(m), s, doc, target, store);
            var ref := Field(doc, ToStr(Get(m, "from")));
            o.issued.Some? ==>
              && IsSet(ref) && target.Some? && !s.resultSet
              && Get(ref, "namespace") == Str(target.value.collection)
              && o.issued.value == FindOne(Obj(map["_id" := Get(ref, "oid")]))
  {
  }

  /** With the reference present the checks come in the order
      lib/types/dbrefJoin.js makes them: target missing, namespace mismatch,
      result set impossible; a reference passing all three is followed by
      `findOne({_id: ref.oid})` under the single-result policy. */
  lemma MappedFromPresent(m: JsVal, s: Settings, doc: Doc, target: Option<Target>, store: Request -> Reply)
    requires OneOfToFrom(m) && IsSet(Get(m, "from"))
    requires IsSet(Field(doc, ToStr(Get(m, "from"))))
    ensures var o := Run(BuildFollower(m), s, doc, target, store);
            var ref := Field(doc, ToStr(Get(m, "from")));
            var q := Obj(map["_id" := Get(ref, "oid")]);
            && (target.None? ==> o == TargetMissing(s.path))
            && (target.Some? && Get(ref, "namespace") != Str(target.value.collection) ==>
                  o == Outcome(None, Fail(JoinFault(FollowerError, s.path, "namespace mismatch"))))
            && (target.Some? && Get(ref, "namespace") == Str(target.value.collection) && s.resultSet ==>
                  o == Outcome(None, Fail(JoinFault(FollowerError, s.path, "result set impossible"))))
            && (target.Some? && Get(ref, "namespace") == Str(target.value.collection) && !s.resultSet ==>
                  o.issued == Some(FindOne(q)) && o.reply == OnOne(s.path, s.nullOk, store(FindOne(q))))
  {
  }

  /** Asking for a result set through a reference held by the source fails
      with "result set impossible", nullable or not, once the reference is
      present, the target found and the namespace matches. */
  lemma MappedFromResultSet(m: JsVal, s: Settings, doc: Doc, t: Target, store: Request -> Reply)
    requires OneOfToFrom(m) && IsSet(Get(m, "from")) && s.resultSet
    requires IsSet(Field(doc, ToStr(Get(m, "from"))))
    requires Get(Field(doc, ToStr(Get(m, "from"))), "namespace") == Str(t.collection)
    ensures Run(BuildFollower(m), s, doc, Some(t), store)
         == Outcome(None, Fail(JoinFault(FollowerError, s.path, "result set impossible")))
  {
  }

  /** A reference whose namespace is not the target's collection is refused
      before anything is sent. */
  lemma MappedFromNamespace(m: JsVal, s: Settings, doc: Doc, t: Target, store: Request -> Reply)
    requires OneOfToFrom(m) && IsSet(Get(m, "from"))
    requires IsSet(Field(doc, ToStr(Get(m, "from"))))
    requires Get(Field(doc, ToStr(Get(m, "from"))), "namespace") != Str(t.collection)
    ensures Run(BuildFollower(m), s, doc, Some(t), store)
         == Outcome(None, Fail(JoinFault(FollowerError, s.path, "namespace mismatch")))
  {
  }
}

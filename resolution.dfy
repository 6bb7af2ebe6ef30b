/** What every follower shares: the source document, the target handle, the
    request sent to the store, the `(err, val)` pair handed to the callback,
    and the decision tree applied to the store's answer. The four strategy
    files each repeat this tree verbatim; it is written once here. */
module Resolution {
  import opened Js
  import opened Errors

  /** A source document: its collection's name (`model.collection.name`)
      and its fields, `_id` among them. */
  datatype Doc = Doc(collection: string, fields: map<string, JsVal>)

  /** `model[key]`: a field that is not there reads as undefined. */
  function Field(doc: Doc, key: string): (v: JsVal)
    ensures key !in doc.fields ==> v == Undefined
    ensures key in doc.fields ==> v == doc.fields[key]
  {
    if key in doc.fields then doc.fields[key] else Undefined
  }

  /** `model._id`. */
  function Id(doc: Doc): (v: JsVal)
  {
    Field(doc, "_id")
  }

  /** A target model handle found by `model.db.model(join.targetSchema)`;
      the followers use only its collection's name. */
  datatype Target = Target(collection: string)

  /** The query a follower issues. */
  datatype Request = Find(query: JsVal) | FindOne(query: JsVal)

  /** The value position of a callback: a JavaScript value, or (in the
      mapped-from followers) a ConstraintError record passed as the value. */
  datatype Value = Js(v: JsVal) | ErrorObject(e: JoinFault)

  /** The arguments a callback receives. `err == None` stands for a falsy
      error argument (null or undefined). */
  datatype Reply = Reply(err: Option<Fault>, val: Value)

  /** What a follower does: the request it issued, if any, and what it hands
      to the callback. */
  datatype Outcome = Outcome(issued: Option<Request>, reply: Reply)

  /** The fields of the join the follower reads when it runs. */
  datatype Settings = Settings(path: string, resultSet: bool, nullOk: bool)

  /** `val == undefined` on the value position. */
  predicate ValueNullish(v: Value) {
    v.Js? && Nullish(v.v)
  }

  /** Whether `val[0] == undefined` is false, that is, the answer has a
      first element. An error record has no element "0". */
  predicate HasFirst(v: Value) {
    v.Js? && IsSet(v.v) && IsSet(Index0(v.v))
  }

  /** `callback(new SomeError(...))`: the error alone, the value undefined. */
  function Fail(e: JoinFault): (r: Reply)
    ensures r.err == Some(Raised(e)) && r.val == Js(Undefined)
  {
    Reply(Some(Raised(e)), Js(Undefined))
  }

  function IsNull(path: string): (e: JoinFault)
  {
    MakeError(ConstraintError, path, "is null")
  }

  /** The callback wrapped around `target.find(query, ...)`. A nullable join
      passes the store's answer through untouched. A non-nullable one passes a
      store error through, and turns an answer without a first document into
      a ConstraintError "is null". */
  function OnMany(path: string, nullOk: bool, answer: Reply): (r: Reply)
    ensures nullOk ==> r == answer
    ensures !nullOk ==> (r.err.None? <==> answer.err.None? && HasFirst(answer.val))
    ensures !nullOk && r.err.None? ==> r == answer
    ensures !nullOk && answer.err.Some? ==> r == Reply(answer.err, Js(Undefined))
    ensures !nullOk && answer.err.None? && !HasFirst(answer.val) ==>
              r.err == Some(Raised(IsNull(path))) &&
              r.val == (if ValueNullish(answer.val) then Js(Undefined) else answer.val)
  {
    if nullOk then answer
    else if answer.err.Some? then Reply(answer.err, Js(Undefined))
    else if ValueNullish(answer.val) then Fail(IsNull(path))
    else if !HasFirst(answer.val) then Reply(Some(Raised(IsNull(path))), answer.val)
    else Reply(answer.err, answer.val)
  }

  /** The callback wrapped around `target.findOne(query, ...)`. A nullable
      join passes the answer through; a non-nullable one passes a store error
      through and turns an absent document into a ConstraintError "is null",
      keeping the absent value in the value position. */
  function OnOne(path: string, nullOk: bool, answer: Reply): (r: Reply)
    ensures nullOk ==> r == answer
    ensures !nullOk ==> (r.err.None? <==> answer.err.None? && !ValueNullish(answer.val))
    ensures !nullOk && r.err.None? ==> r == answer
    ensures !nullOk && answer.err.Some? ==> r == Reply(answer.err, Js(Undefined))
    ensures !nullOk && answer.err.None? && ValueNullish(answer.val) ==>
              r == Reply(Some(Raised(IsNull(path))), answer.val)
  {
    if nullOk then answer
    else if answer.err.Some? then Reply(answer.err, Js(Undefined))
    else if ValueNullish(answer.val) then Reply(Some(Raised(IsNull(path))), answer.val)
    else Reply(answer.err, answer.val)
  }

  /** The single-result callback as the strategy files write it: they bind
      the constructor under the misspelt name `ConstraintErrpr` and then call
      `new ConstraintError(...)`, a name nothing in the module binds, so the
      constraint branch throws a ReferenceError and the join's callback is
      never called (None). */
  function OnOneAsWritten(path: string, nullOk: bool, answer: Reply): (r: Option<Reply>)
  {
    if nullOk then Some(answer)
    else if answer.err.Some? then Some(Reply(answer.err, Js(Undefined)))
    else if ValueNullish(answer.val) then None
    else Some(Reply(answer.err, answer.val))
  }

  /** A non-nullable join whose `findOne` finds nothing: as written the
      caller never hears back; as intended (OnOne) it gets the
      ConstraintError "is null". */
  lemma ConstraintErrorUnbound(path: string)
    ensures OnOneAsWritten(path, false, Reply(None, Js(Null))).None?
    ensures OnOne(path, false, Reply(None, Js(Null))) == Reply(Some(Raised(JoinFault(ConstraintError, path, "is null"))), Js(Null))
  {
  }

  /** Issue `findOne(query)` and apply the single-result policy. */
  function FetchOne(s: Settings, query: JsVal, store: Request -> Reply): (o: Outcome)
  {
    Outcome(Some(FindOne(query)), OnOne(s.path, s.nullOk, store(FindOne(query))))
  }

  /** With the target found: `find` when the join yields a result set,
      `findOne` otherwise, each under the nullability policy. */
  function Fetch(s: Settings, query: JsVal, store: Request -> Reply): (o: Outcome)
  {
    if s.resultSet then Outcome(Some(Find(query)), OnMany(s.path, s.nullOk, store(Find(query))))
    else FetchOne(s, query, store)
  }

  function TargetMissing(path: string): (o: Outcome)
  {
    Outcome(None, Fail(MakeError(FollowerError, path, "target schema missing")))
  }

  /** The tail shared by the followers that build the query from the source
      document alone: a missing target is reported before anything is sent;
      otherwise the query goes to the store. */
  function Dispatch(s: Settings, query: JsVal, target: Option<Target>, store: Request -> Reply): (o: Outcome)
    ensures target.None? ==> o.issued.None? && o.reply == Fail(MakeError(FollowerError, s.path, "target schema missing"))
    ensures target.Some? ==> o.issued == Some(if s.resultSet then Find(query) else FindOne(query))
    ensures target.Some? && s.resultSet ==> o.reply == OnMany(s.path, s.nullOk, store(Find(query)))
    ensures target.Some? && !s.resultSet ==> o.reply == OnOne(s.path, s.nullOk, store(FindOne(query)))
  {
    if target.None? then TargetMissing(s.path) else Fetch(s, query, store)
  }

  /** A mapped-from follower whose source field is absent: `(null, null)`
      when nullable, otherwise `(null, ConstraintError)` with the error in the
      value position. Nothing is looked up and nothing is sent. */
  function Unreferenced(s: Settings): (o: Outcome)
    ensures o.issued.None? && o.reply.err.None?
    ensures s.nullOk <==> o.reply.val == Js(Null)
    ensures !s.nullOk ==> o.reply.val == ErrorObject(IsNull(s.path))
  {
    if s.nullOk then Outcome(None, Reply(None, Js(Null)))
    else Outcome(None, Reply(None, ErrorObject(IsNull(s.path))))
  }

  /** A mapping the DBRef and foreign-key joins accept unchanged: an object
      on which exactly one of `to` and `from` is set. */
  predicate OneOfToFrom(m: JsVal) {
    m.Obj? && (IsSet(Get(m, "to")) <==> !IsSet(Get(m, "from")))
  }

  /** `initMapping` of the DBRef and the foreign-key joins (the two files
      carry the same code), without its reset of the follower cache (see
      JoinTypes.JoinType.InitMapping). A string names the `to` field;
      otherwise exactly one of `to` and `from` must be set. */
  function InitToFrom(path: string, val: JsVal): (r: Result<JsVal, Fault>)
    ensures r.Success? <==> val.Str? || OneOfToFrom(val)
    ensures r.Success? ==> OneOfToFrom(r.value)
    ensures r.Success? && val.Str? ==> r.value == Obj(map["to" := val])
    ensures r.Success? && !val.Str? ==> r.value == val
    ensures r.Failure? && Nullish(val) ==> r.error == TypeError
    ensures r.Failure? && IsSet(val) ==>
              r.error == Raised(JoinFault(JoinError, path,
                if IsSet(Get(val, "to")) then "only 'to' or 'from' field allowed"
                else "no 'to' or 'from' field defined"))
  {
    if val.Str? then Success(Obj(map["to" := val]))
    // `val.to` on undefined or null throws
    else if Nullish(val) then Failure(TypeError)
    else if !IsSet(Get(val, "to")) then
      if !IsSet(Get(val, "from")) then
        Failure(Raised(MakeError(JoinError, path, "no 'to' or 'from' field defined")))
      else Success(val)
    else if IsSet(Get(val, "from")) then
      Failure(Raised(MakeError(JoinError, path, "only 'to' or 'from' field allowed")))
    else Success(val)
  }

  /** Normalising twice changes nothing: an accepted mapping is a fixed point. */
  lemma InitToFromIdempotent(path: string, val: JsVal)
    requires InitToFrom(path, val).Success?
    ensures InitToFrom(path, InitToFrom(path, val).value) == InitToFrom(path, val)
  {
  }

}

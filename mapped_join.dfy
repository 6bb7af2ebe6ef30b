/** The mapped join (lib/types/mappedJoin.js): a conjunction of equalities
    `target[to[i]] == source[from[i]]` over two parallel lists of field
    names. */
module MappedJoin {
  import opened Js
  import opened Errors
  import opened Resolution

  /** A value as a list: an array is itself, anything else the list holding
      only that value. */
  function AsList(v: JsVal): (l: seq<JsVal>)
    ensures v.Arr? ==> l == v.elems
    ensures !v.Arr? ==> l == [v]
  {
    if v.Arr? then v.elems else [v]
  }

  /** The shape `initMapping` returns: an object with exactly the keys `to`
      and `from`, both arrays, of equal length. */
  predicate Normalised(m: JsVal) {
    && m.Obj? && m.props.Keys == {"to", "from"}
    && m.props["to"].Arr? && m.props["from"].Arr?
    && |m.props["to"].elems| == |m.props["from"].elems|
  }

  /** `MappedJoin.prototype.initMapping` without its reset of the follower
      cache. A string names the same field on both sides; otherwise `to` is
      checked before `from`, each non-array is wrapped as a one-element list,
      and the lists must have equal lengths. */
  function InitMapping(path: string, val: JsVal): (r: Result<JsVal, Fault>)
    ensures r.Success? ==> Normalised(r.value)
    ensures val.Str? ==> r == Success(Obj(map["to" := Arr([val]), "from" := Arr([val])]))
    ensures Nullish(val) ==> r == Failure(TypeError)
    ensures !val.Str? && IsSet(val) ==>
              var to, from := Get(val, "to"), Get(val, "from");
              && (r.Success? <==> IsSet(to) && IsSet(from) && |AsList(to)| == |AsList(from)|)
              && (r.Success? ==> r.value == Obj(map["to" := Arr(AsList(to)), "from" := Arr(AsList(from))]))
              && (r.Failure? ==> r.error == Raised(JoinFault(JoinError, path,
                    if !IsSet(to) then "no 'to' field defined"
                    else if !IsSet(from) then "no 'from' field defined"
                    else "'to' & 'from' mismatch")))
  {
    if val.Str? then Success(Obj(map["to" := Arr([val]), "from" := Arr([val])]))
    // `val.to` on undefined or null throws
    else if Nullish(val) then Failure(TypeError)
    else
      var to := Get(val, "to");
      if !IsSet(to) then Failure(Raised(MakeError(JoinError, path, "no 'to' field defined")))
      else
        var toList := AsList(to);
        var from := Get(val, "from");
        if !IsSet(from) then Failure(Raised(MakeError(JoinError, path, "no 'from' field defined")))
        else
          var fromList := AsList(from);
          if |toList| != |fromList| then Failure(Raised(MakeError(JoinError, path, "'to' & 'from' mismatch")))
          else Success(Obj(map["to" := Arr(toList), "from" := Arr(fromList)]))
  }

  /** Normalising an accepted mapping again gives it back unchanged. */
  lemma InitMappingIdempotent(path: string, val: JsVal)
    requires InitMapping(path, val).Success?
    ensures InitMapping(path, InitMapping(path, val).value) == InitMapping(path, val)
  {
    var m := InitMapping(path, val).value;
    assert Get(m, "to") == m.props["to"] && Get(m, "from") == m.props["from"];
  }

  /** Lists of different lengths are refused, including an empty list
      against a non-empty one. */
  lemma MismatchRefused(path: string, to: seq<JsVal>, from: seq<JsVal>)
    requires |to| != |from|
    ensures InitMapping(path, Obj(map["to" := Arr(to), "from" := Arr(from)]))
         == Failure(Raised(JoinFault(JoinError, path, "'to' & 'from' mismatch")))
  {
    var val := Obj(map["to" := Arr(to), "from" := Arr(from)]);
    assert Get(val, "to") == Arr(to) && Get(val, "from") == Arr(from);
  }

  /** What `buildFollower` captures: the two lists. */
  datatype Follower = Follower(to: seq<JsVal>, from: seq<JsVal>)

  function BuildFollower(m: JsVal): (f: Follower)
    requires Normalised(m)
    ensures f.to == m.props["to"].elems && f.from == m.props["from"].elems
    ensures |f.to| == |f.from|
  {
    Follower(m.props["to"].elems, m.props["from"].elems)
  }

  /** The source field read for index `i`: `model[mapping.from[i]]`, where an
      index past the end of `from` reads the key "undefined". */
  function SourceKey(from: seq<JsVal>, i: nat): (k: string)
  {
    if i < |from| then ToStr(from[i]) else "undefined"
  }

  /** The query the loop over `to` builds: `query[to[i]] = model[from[i]]`
      for i = 0, 1, ... in turn, so a later index overwrites an earlier one
      with the same name. */
  function MappedQuery(to: seq<JsVal>, from: seq<JsVal>, doc: Doc): (q: map<string, JsVal>)
    decreases |to|
  {
    if |to| == 0 then map[]
    else MappedQuery(to[..|to| - 1], from, doc)[ToStr(to[|to| - 1]) := Field(doc, SourceKey(from, |to| - 1))]
  }

  /** The names listed in `to`, as property keys. */
  function Names(to: seq<JsVal>): (ns: set<string>)
  {
    set i | 0 <= i < |to| :: ToStr(to[i])
  }

  /** The query's keys are exactly the names in `to`. */
  lemma {:induction false} MappedQueryKeys(to: seq<JsVal>, from: seq<JsVal>, doc: Doc)
    ensures MappedQuery(to, from, doc).Keys == Names(to)
    decreases |to|
  {
    if |to| > 0 {
      var n := |to| - 1;
      var prefix := to[..n];
      MappedQueryKeys(prefix, from, doc);
      forall x | x in Names(to) ensures x in Names(prefix) + {ToStr(to[n])} {
        var i :| 0 <= i < |to| && ToStr(to[i]) == x;
        if i < n { assert prefix[i] == to[i]; }
      }
      forall x | x in Names(prefix) ensures x in Names(to) {
        var i :| 0 <= i < n && ToStr(prefix[i]) == x;
        assert to[i] == prefix[i];
      }
      assert ToStr(to[n]) in Names(to);
    }
  }

  /** Each name in `to` holds the source field paired with its LAST
      occurrence in `to`: for a repeated name the later index wins. */
  lemma {:induction false} MappedQueryLastWins(to: seq<JsVal>, from: seq<JsVal>, doc: Doc, i: nat)
    requires i < |to|
    requires forall j :: i < j < |to| ==> ToStr(to[j]) != ToStr(to[i])
    ensures ToStr(to[i]) in MappedQuery(to, from, doc)
    ensures MappedQuery(to, from, doc)[ToStr(to[i])] == Field(doc, SourceKey(from, i))
    decreases |to|
  {
    var n := |to| - 1;
    if i < n {
      var prefix := to[..n];
      assert prefix[i] == to[i];
      forall j | i < j < |prefix| ensures ToStr(prefix[j]) != ToStr(prefix[i]) {
        assert prefix[j] == to[j];
      }
      MappedQueryLastWins(prefix, from, doc, i);
    }
  }

  /** The source's `for (var i in mapping.to)` loop, run in place on a fresh
      query object. */
  method BuildQuery(to: seq<JsVal>, from: seq<JsVal>, doc: Doc) returns (query: map<string, JsVal>)
    ensures query == MappedQuery(to, from, doc)
  {
    query := map[];
    var i := 0;
    while i < |to|
      invariant 0 <= i <= |to|
      invariant query == MappedQuery(to[..i], from, doc)
    {
      query := query[ToStr(to[i]) := Field(doc, SourceKey(from, i))];
      i := i + 1;
      assert to[..i][..i - 1] == to[..i - 1];
    }
    assert to[..|to|] == to;
  }

  /** The follower: the query is sent exactly when the target exists, and
      asks for exactly the fields named in `to`. */
  function Run(f: Follower, s: Settings, doc: Doc, target: Option<Target>, store: Request -> Reply): (o: Outcome)
    ensures o.issued.Some? <==> target.Some?
    ensures o.issued.Some? ==> o.issued.value.query.Obj? && o.issued.value.query.props.Keys == Names(f.to)
  {
    MappedQueryKeys(f.to, f.from, doc);
    Dispatch(s, Obj(MappedQuery(f.to, f.from, doc)), target, store)
  }

  /** The follower built from a normalised mapping asks, once the target is
      found, for `query[to[i]] = model[from[i]]` over the mapping's own lists:
      the keys are exactly the names in `to`, and each name holds the source
      field paired with its last occurrence. */
  lemma MappedFollowerQuery(m: JsVal, s: Settings, doc: Doc, t: Target, store: Request -> Reply)
    requires Normalised(m)
    ensures var to, from := m.props["to"].elems, m.props["from"].elems;
            var o := Run(BuildFollower(m), s, doc, Some(t), store);
            var q := o.issued.value.query;
            && o.issued.Some?
            && q == Obj(MappedQuery(to, from, doc))
            && q.props.Keys == Names(to)
            && (forall i :: 0 <= i < |to| && LastOccurrence(to, i) ==>
                  q.props[ToStr(to[i])] == Field(doc, ToStr(from[i])))
  {
    var to, from := m.props["to"].elems, m.props["from"].elems;
    forall i | 0 <= i < |to| && LastOccurrence(to, i)
      ensures ToStr(to[i]) in MappedQuery(to, from, doc)
      ensures MappedQuery(to, from, doc)[ToStr(to[i])] == Field(doc, ToStr(from[i]))
    {
      MappedQueryLastWins(to, from, doc, i);
    }
  }

  /** With the target found, the follower sends `find` exactly when the join
      yields a result set, and the store's answer reaches the callback under
      the result-set or single-result policy. */
  lemma MappedReply(m: JsVal, s: Settings, doc: Doc, t: Target, store: Request -> Reply)
    requires Normalised(m)
    ensures var o := Run(BuildFollower(m), s, doc, Some(t), store);
            && o.issued.Some?
            && (o.issued.value.Find? <==> s.resultSet)
            && o.reply == (if s.resultSet then OnMany(s.path, s.nullOk, store(o.issued.value))
                           else OnOne(s.path, s.nullOk, store(o.issued.value)))
  {
  }

  /** Without a target model the follower reports "target schema missing"
      and sends nothing, whatever the store holds. */
  lemma MappedMissing(m: JsVal, s: Settings, doc: Doc, store: Request -> Reply)
    requires Normalised(m)
    ensures Run(BuildFollower(m), s, doc, None, store) == TargetMissing(s.path)
  {
  }

  /** No later index of `to` repeats the name at `i`. */
  predicate LastOccurrence(to: seq<JsVal>, i: nat)
    requires i < |to|
  {
    forall j :: i < j < |to| ==> ToStr(to[j]) != ToStr(to[i])
  }

  /** The worked example: `{to: ["userId", "tenantId"], from: ["ownerId",
      "orgId"]}` against `{ownerId: 7, orgId: 3}` asks for
      `{userId: 7, tenantId: 3}`. */
  lemma TwoFieldExample(path: string, s: Settings, t: Target, store: Request -> Reply)
    ensures var m := InitMapping(path, Obj(map["to" := Arr([Str("userId"), Str("tenantId")]),
                                               "from" := Arr([Str("ownerId"), Str("orgId")])]));
            var doc := Doc("posts", map["ownerId" := Num(7), "orgId" := Num(3)]);
            && m.Success?
            && Run(BuildFollower(m.value), s, doc, Some(t), store).issued.value.query
               == Obj(map["userId" := Num(7), "tenantId" := Num(3)])
  {
    var val := Obj(map["to" := Arr([Str("userId"), Str("tenantId")]),
                       "from" := Arr([Str("ownerId"), Str("orgId")])]);
    var to, from := [Str("userId"), Str("tenantId")], [Str("ownerId"), Str("orgId")];
    assert Get(val, "to") == Arr(to) && Get(val, "from") == Arr(from);
    var m := Obj(map["to" := Arr(to), "from" := Arr(from)]);
    assert InitMapping(path, val) == Success(m);
    var doc := Doc("posts", map["ownerId" := Num(7), "orgId" := Num(3)]);
    assert to[..1][..0] == [] && to[..1] == [Str("userId")];
    assert MappedQuery(to[..0], from, doc) == map[];
    assert MappedQuery(to[..1], from, doc) == map["userId" := Num(7)];
    assert MappedQuery(to, from, doc) == map["userId" := Num(7), "tenantId" := Num(3)];
  }
}

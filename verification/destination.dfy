/** The destination store and the upsert planner. The store is one map from
    (collection name, key value) to document, so "no two documents share a
    natural key" holds by construction; an upsert with `$set` merges the new
    fields over the stored document. */
module Destination {
  import opened Wrappers
  import opened Values

  /** Where a document lives: its collection and the value of its key field. */
  datatype DocKey = DocKey(collection: string, key: Value)

  type Db = map<DocKey, Fields>

  /** One upsert: `update_one({keyField: doc[keyField]}, {"$set": doc}, upsert=True)`
      on `collection`. */
  datatype Request = Request(collection: string, keyField: string, doc: Fields) {

    /** The document carries its own key field. */
    predicate Keyed()
    {
      keyField in doc
    }

    /** The stored document the filter selects. */
    function Key(): DocKey
      requires Keyed()
    {
      DocKey(collection, doc[keyField])
    }
  }

  /** The stored document under `k`, or the empty document. */
  function Existing(db: Db, k: DocKey): Fields
  {
    if k in db then db[k] else map[]
  }

  /** A `$set` upsert: inserts the document when no stored document has its
      key, otherwise overwrites only the fields it carries. Nothing is ever
      deleted and no second document with the same key can appear. */
  function Apply(db: Db, req: Request): (r: Db)
    requires req.Keyed()
    ensures r.Keys == db.Keys + {req.Key()}
    ensures forall k :: k in db && k != req.Key() ==> r[k] == db[k]
    ensures forall f :: f in r[req.Key()] <==> f in req.doc || f in Existing(db, req.Key())
    ensures forall f :: f in req.doc ==> r[req.Key()][f] == req.doc[f]
    ensures forall f :: f in Existing(db, req.Key()) && f !in req.doc ==> r[req.Key()][f] == Existing(db, req.Key())[f]
  {
    db[req.Key() := Existing(db, req.Key()) + req.doc]
  }

  /** Repeating an upsert changes nothing. */
  lemma ApplyIdempotent(db: Db, req: Request)
    requires req.Keyed()
    ensures Apply(Apply(db, req), req) == Apply(db, req)
  {
    var once := Apply(db, req);
    var k := req.Key();
    assert Existing(once, k) + req.doc == Existing(once, k);
  }

  predicate AllKeyed(reqs: seq<Request>)
  {
    forall r <- reqs :: r.Keyed()
  }

  /** A sequence of upserts applied in order. */
  function ApplyAll(db: Db, reqs: seq<Request>): Db
    requires AllKeyed(reqs)
    decreases |reqs|
  {
    if reqs == [] then db else ApplyAll(Apply(db, reqs[0]), reqs[1..])
  }

  // ---------------------------------------------------------------------------
  // Field-by-field view of the store
  // ---------------------------------------------------------------------------

  /** Field `f` of the stored document `k`, if there is one. */
  function Lookup(db: Db, k: DocKey, f: string): Option<Value>
  {
    if k in db && f in db[k] then Some(db[k][f]) else None
  }

  /** The value an upsert writes into field `f` of document `k`, if any. */
  function Writes(req: Request, k: DocKey, f: string): Option<Value>
    requires req.Keyed()
  {
    if req.Key() == k && f in req.doc then Some(req.doc[f]) else None
  }

  /** The value the last upsert of `reqs` that writes field `f` of `k` writes. */
  function LastWrite(reqs: seq<Request>, k: DocKey, f: string): Option<Value>
    requires AllKeyed(reqs)
    decreases |reqs|
  {
    if reqs == [] then None else LastWrite(reqs[1..], k, f).OrElse(Writes(reqs[0], k, f))
  }

  /** Some upsert of `reqs` targets document `k`. */
  predicate Touches(reqs: seq<Request>, k: DocKey)
    requires AllKeyed(reqs)
    decreases |reqs|
  {
    reqs != [] && (reqs[0].Key() == k || Touches(reqs[1..], k))
  }

  /** After a run of upserts, a document exists iff it existed or was
      targeted, and each field holds the last value written to it, or its old
      value when no upsert wrote it. */
  lemma {:induction false} ApplyAllFieldwise(db: Db, reqs: seq<Request>, k: DocKey, f: string)
    requires AllKeyed(reqs)
    ensures k in ApplyAll(db, reqs) <==> k in db || Touches(reqs, k)
    ensures Lookup(ApplyAll(db, reqs), k, f) == LastWrite(reqs, k, f).OrElse(Lookup(db, k, f))
    decreases |reqs|
  {
    if reqs != [] {
      var next := Apply(db, reqs[0]);
      ApplyAllFieldwise(next, reqs[1..], k, f);
      assert Lookup(next, k, f) == Writes(reqs[0], k, f).OrElse(Lookup(db, k, f));
    }
  }

  /** A targeted document is the key of one of the upserts. */
  lemma {:induction false} TouchedBy(reqs: seq<Request>, k: DocKey)
    requires AllKeyed(reqs) && Touches(reqs, k)
    ensures exists i :: 0 <= i < |reqs| && reqs[i].Key() == k
    decreases |reqs|
  {
    if reqs[0].Key() != k {
      TouchedBy(reqs[1..], k);
      var i :| 0 <= i < |reqs[1..]| && reqs[1..][i].Key() == k;
      assert reqs[i + 1].Key() == k;
    }
  }

  /** A store built by upserts from empty holds only documents one of them
      targets. */
  lemma StoredKeysTargeted(reqs: seq<Request>, k: DocKey)
    requires AllKeyed(reqs)
    ensures k in ApplyAll(map[], reqs) ==> exists i :: 0 <= i < |reqs| && reqs[i].Key() == k
  {
    ApplyAllFieldwise(map[], reqs, k, "");
    if Touches(reqs, k) {
      TouchedBy(reqs, k);
    }
  }

  /** The last upsert of `reqs` that targets `k` and carries `f` decides the
      value `LastWrite` reports. */
  lemma {:induction false} LastWriteIs(reqs: seq<Request>, k: DocKey, f: string, i: nat)
    requires AllKeyed(reqs)
    requires i < |reqs| && Writes(reqs[i], k, f).Some?
    requires forall j :: i < j < |reqs| ==> reqs[j].Key() != k
    ensures LastWrite(reqs, k, f) == Writes(reqs[i], k, f)
    decreases |reqs|
  {
    if i > 0 {
      LastWriteIs(reqs[1..], k, f, i - 1);
    } else {
      LastWriteNone(reqs[1..], k, f);
    }
  }

  /** No upsert of `reqs` targets `k`, so none writes a field of it. */
  lemma {:induction false} LastWriteNone(reqs: seq<Request>, k: DocKey, f: string)
    requires AllKeyed(reqs)
    requires forall j :: 0 <= j < |reqs| ==> reqs[j].Key() != k
    ensures LastWrite(reqs, k, f) == None
    decreases |reqs|
  {
    if reqs != [] {
      LastWriteNone(reqs[1..], k, f);
    }
  }

  /** The value an upsert writes into a field survives when no later upsert
      targets the same document. */
  lemma Survives(db: Db, reqs: seq<Request>, i: nat, f: string)
    requires AllKeyed(reqs)
    requires i < |reqs| && f in reqs[i].doc
    requires forall j :: i < j < |reqs| ==> reqs[j].Key() != reqs[i].Key()
    ensures Lookup(ApplyAll(db, reqs), reqs[i].Key(), f) == Some(reqs[i].doc[f])
  {
    ApplyAllFieldwise(db, reqs, reqs[i].Key(), f);
    LastWriteIs(reqs, reqs[i].Key(), f, i);
  }

  /** Two stores that agree on which documents exist and on every field are equal. */
  lemma StoresEqual(a: Db, b: Db)
    requires forall k :: k in a <==> k in b
    requires forall k, f :: Lookup(a, k, f) == Lookup(b, k, f)
    ensures a == b
  {
    forall k | k in a
      ensures a[k] == b[k]
    {
      forall f
        ensures f in a[k] <==> f in b[k]
      {
        assert Lookup(a, k, f) == Lookup(b, k, f);
      }
      forall f | f in a[k]
        ensures a[k][f] == b[k][f]
      {
        assert Lookup(a, k, f) == Lookup(b, k, f);
      }
    }
  }

  /** Replaying a run of upserts over its own result changes nothing, so a
      repeated run converges to the state of a single one. */
  lemma ApplyAllIdempotent(db: Db, reqs: seq<Request>)
    requires AllKeyed(reqs)
    ensures ApplyAll(ApplyAll(db, reqs), reqs) == ApplyAll(db, reqs)
  {
    var once := ApplyAll(db, reqs);
    var twice := ApplyAll(once, reqs);
    forall k
      ensures k in twice <==> k in once
    {
      ApplyAllFieldwise(once, reqs, k, "");
      ApplyAllFieldwise(db, reqs, k, "");
    }
    forall k, f
      ensures Lookup(twice, k, f) == Lookup(once, k, f)
    {
      ApplyAllFieldwise(once, reqs, k, f);
      ApplyAllFieldwise(db, reqs, k, f);
    }
    StoresEqual(twice, once);
  }

  /** What a prefix of a run of upserts touches or writes, the whole run
      touches or writes too. */
  lemma {:induction false} PrefixWritesSurvive(reqs: seq<Request>, n: nat, k: DocKey, f: string)
    requires AllKeyed(reqs) && n <= |reqs|
    ensures AllKeyed(reqs[..n])
    ensures Touches(reqs[..n], k) ==> Touches(reqs, k)
    ensures LastWrite(reqs[..n], k, f).Some? ==> LastWrite(reqs, k, f).Some?
    decreases n
  {
    if n > 0 {
      assert reqs[..n][0] == reqs[0];
      assert reqs[..n][1..] == reqs[1..][..n - 1];
      PrefixWritesSurvive(reqs[1..], n - 1, k, f);
    }
  }

  /** A run killed after its first `n` upserts and then started again from
      the beginning ends in the store an uninterrupted run ends in. */
  lemma RestartConverges(db: Db, reqs: seq<Request>, n: nat)
    requires AllKeyed(reqs) && n <= |reqs|
    ensures AllKeyed(reqs[..n])
    ensures ApplyAll(ApplyAll(db, reqs[..n]), reqs) == ApplyAll(db, reqs)
  {
    PrefixWritesSurvive(reqs, n, DocKey("", Null), "");
    var killed := ApplyAll(db, reqs[..n]);
    var resumed := ApplyAll(killed, reqs);
    var whole := ApplyAll(db, reqs);
    forall k
      ensures k in resumed <==> k in whole
    {
      PrefixWritesSurvive(reqs, n, k, "");
      ApplyAllFieldwise(killed, reqs, k, "");
      ApplyAllFieldwise(db, reqs[..n], k, "");
      ApplyAllFieldwise(db, reqs, k, "");
    }
    forall k, f
      ensures Lookup(resumed, k, f) == Lookup(whole, k, f)
    {
      PrefixWritesSurvive(reqs, n, k, f);
      ApplyAllFieldwise(killed, reqs, k, f);
      ApplyAllFieldwise(db, reqs[..n], k, f);
      ApplyAllFieldwise(db, reqs, k, f);
    }
    StoresEqual(resumed, whole);
  }

  // ---------------------------------------------------------------------------
  // The planner
  // ---------------------------------------------------------------------------

  /** The lookup filter `{field: value}`. */
  datatype Filter = Filter(field: string, value: Value)

  /** What a copy returns; the action is always "upsert". A dry run returns
      the filter and the full document; a live write returns the key value. */
  datatype Plan =
    | Planned(filter: Filter, doc: Fields)
    | Upserted(id: Value)

  /** A plan and the store after it. */
  datatype Step = Step(plan: Plan, db: Db)

  /** The tail of every copy function. Reading the key field of a document
      that lacks it raises KeyError, in both modes. */
  function Execute(dryRun: bool, db: Db, req: Request): (r: Result<Step, PyError>)
    ensures r.Failure? <==> !req.Keyed()
    ensures r.Failure? ==> r.error == KeyError(Str(req.keyField))
    ensures r.Success? && dryRun ==>
              r.value.db == db && r.value.plan == Planned(Filter(req.keyField, req.doc[req.keyField]), req.doc)
    ensures r.Success? && !dryRun ==>
              r.value.db == Apply(db, req) && r.value.plan == Upserted(req.doc[req.keyField])
  {
    if !req.Keyed() then Failure(KeyError(Str(req.keyField)))
    else if dryRun then Success(Step(Planned(Filter(req.keyField, req.doc[req.keyField]), req.doc), db))
    else Success(Step(Upserted(req.doc[req.keyField]), Apply(db, req)))
  }

  /** The document a dry run reports is the document a live run writes, under
      the filter it reports. */
  lemma DryRunPlanIsLiveWrite(db: Db, req: Request)
    requires Execute(true, db, req).Success?
    ensures var plan := Execute(true, db, req).value.plan;
      && plan.Planned?
      && Execute(false, db, req).Success?
      && Execute(false, db, req).value.db == Apply(db, Request(req.collection, plan.filter.field, plan.doc))
      && Execute(false, db, req).value.plan == Upserted(plan.filter.value)
  {
  }
}

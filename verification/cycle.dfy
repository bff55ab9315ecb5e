/**
 One fetch cycle, `fetch_and_insert`: the retried OTX fetch, whose body
 extracts the records, followed by `insert_threats`. A fetch that fails after
 its retries leaves the collection as it was; a store error during the insert
 loop leaves the upserts made before it.
 */
module Cycle {
  import opened Wrappers
  import opened Documents
  import opened Extraction
  import opened Retry
  import opened Store

  /**
   `fetch_otx_threats` under its retry decorator. `responses(k)` is what the
   GET, `raise_for_status` and JSON decoding of the (k+1)-th attempt yield.
   */
  function FetchOtxThreats(responses: nat -> Attempt<Payload>, clock: Clock): (r: RetryResult<seq<Threat>>)
    ensures 1 <= r.tries <= MaxTries
    ensures r.outcome.Returned? ==>
              responses(r.tries - 1).Returned? && r.outcome.value == Extract(responses(r.tries - 1).value, clock)
    ensures r.outcome.Raised? ==> responses(r.tries - 1) == Raised(r.outcome.error)
    ensures forall i :: 0 <= i < r.tries - 1 ==> RetryableFailure(responses(i))
    ensures r.tries < MaxTries ==> !RetryableFailure(responses(r.tries - 1))
  {
    var attempt := (k: nat) =>
      match responses(k)
      case Returned(p) => Returned(Extract(p, clock))
      case Raised(e) => Raised(e);
    var r := OnException(attempt);
    assert forall i :: 0 <= i < r.tries - 1 ==> RetryableFailure(attempt(i)) ==> RetryableFailure(responses(i));
    assert RetryableFailure(responses(r.tries - 1)) ==> RetryableFailure(attempt(r.tries - 1));
    r
  }

  /** How a cycle ends. */
  datatype CycleResult =
    | Finished(collection: seq<Document>, inserted: nat)
    | FetchFailed(error: Exception, collection: seq<Document>)
    | InsertFailed(collection: seq<Document>)
  {
    function Collection(): seq<Document> {
      match this
      case Finished(c, _) => c
      case FetchFailed(_, c) => c
      case InsertFailed(c) => c
    }
  }

  /** `fetch_and_insert`; `storeFailAt` is the index of an `update_one` call that raises, if any. */
  function FetchAndInsert(coll: seq<Document>, responses: nat -> Attempt<Payload>, clock: Clock, storeFailAt: Option<nat>): (r: CycleResult)
    ensures r.FetchFailed? <==> FetchOtxThreats(responses, clock).outcome.Raised?
    ensures r.FetchFailed? ==> r.collection == coll && r.error == FetchOtxThreats(responses, clock).outcome.error
    ensures FetchOtxThreats(responses, clock).outcome.Returned? ==>
              var items := FetchOtxThreats(responses, clock).outcome.value;
              && (r.Finished? ==> r.collection == InsertThreats(coll, items).collection
                                  && r.inserted == InsertThreats(coll, items).inserted)
              && (r.InsertFailed? <==> storeFailAt.Some? && storeFailAt.value < |items|)
              && (r.InsertFailed? ==> r.collection == InsertThreats(coll, items[..storeFailAt.value]).collection)
    ensures Extends(r.Collection(), coll)
  {
    var fetched := FetchOtxThreats(responses, clock);
    match fetched.outcome
    case Raised(e) => FetchFailed(e, coll)
    case Returned(items) =>
      if storeFailAt.Some? && storeFailAt.value < |items| then
        AbortLeavesPrefix(coll, items, storeFailAt.value);
        InsertFailed(InsertThreatsFallible(coll, items, storeFailAt).collection)
      else
        NoFailureCompletes(coll, items, storeFailAt);
        var o := InsertThreats(coll, items);
        Finished(o.collection, o.inserted)
  }

  /**
   A finished cycle stores every fetched record's key, and its count is the
   number of distinct fetched keys that were not stored before.
   */
  lemma {:induction false} FinishedCycleStoresFetched(coll: seq<Document>, responses: nat -> Attempt<Payload>, clock: Clock, storeFailAt: Option<nat>)
    requires FetchAndInsert(coll, responses, clock, storeFailAt).Finished?
    ensures var items := FetchOtxThreats(responses, clock).outcome.value;
            var r := FetchAndInsert(coll, responses, clock, storeFailAt);
            && (forall i :: 0 <= i < |items| ==> Present(r.collection, items[i].KeyOf()))
            && r.inserted == |BatchKeys(items) - StoredKeys(coll)|
  {
    var items := FetchOtxThreats(responses, clock).outcome.value;
    InsertStoresEveryKey(coll, items);
    InsertedCountsNewKeys(coll, items);
  }

  /** Whatever the outcome of a cycle, no two stored documents share a key afterwards. */
  lemma {:induction false} CyclePreservesUnique(coll: seq<Document>, responses: nat -> Attempt<Payload>, clock: Clock, storeFailAt: Option<nat>)
    requires UniqueKeys(coll)
    ensures UniqueKeys(FetchAndInsert(coll, responses, clock, storeFailAt).Collection())
  {
    var fetched := FetchOtxThreats(responses, clock);
    if fetched.outcome.Returned? {
      var items := fetched.outcome.value;
      if storeFailAt.Some? && storeFailAt.value < |items| {
        AbortLeavesPrefix(coll, items, storeFailAt.value);
        InsertPreservesUnique(coll, items[..storeFailAt.value]);
      } else {
        NoFailureCompletes(coll, items, storeFailAt);
        InsertPreservesUnique(coll, items);
      }
    }
  }

  // ---------------------------------------------------------------------------
  // The two-pulse scenario: pulse A has `modified`, pulse B does not.

  function ScenarioPayload(): Payload {
    Payload(Some([
      Pulse(Some("2024-01-01T00:00:00Z"), Some([Entry(Some("1.2.3.4"), Some("IPv4"))])),
      Pulse(None, Some([Entry(Some("evil.com"), Some("domain"))]))
    ]))
  }

  /** Pulse A keeps its `modified`; pulse B is stamped with the clock. */
  lemma {:induction false} ScenarioExtraction(clock: Clock)
    ensures Extract(ScenarioPayload(), clock)
         == [Threat("1.2.3.4", "IPv4", "2024-01-01T00:00:00Z"), Threat("evil.com", "domain", clock(1) + "Z")]
  {
  }

  /** Two records with distinct keys are both new in an empty collection. */
  lemma {:induction false} TwoDistinctInserted(a: Threat, b: Threat)
    requires a.KeyOf() != b.KeyOf()
    ensures InsertThreats([], [a, b]).inserted == 2
  {
  }

  /** Re-sending `a` with a `b'` whose key is new inserts exactly one document. */
  lemma {:induction false} OneChangedKeyInserted(a: Threat, b: Threat, b': Threat)
    requires a.KeyOf() != b.KeyOf() && b'.KeyOf() != a.KeyOf() && b'.KeyOf() != b.KeyOf()
    ensures InsertThreats(InsertThreats([], [a, b]).collection, [a, b']).inserted == 1
  {
    var c := InsertThreats([], [a, b]).collection;
    InsertKeys([], [a, b]);
    assert StoredKeys([]) == {};
    assert BatchKeys([a, b]) == {a.KeyOf(), b.KeyOf()};
    assert StoredKeys(c) == {a.KeyOf(), b.KeyOf()};
    PresentIffStored(c, a.KeyOf());
    var u := Upsert(c, a);
    assert !u.upserted && u.collection == c;
    PresentIffStored(c, b'.KeyOf());
    var u' := Upsert(c, b');
    assert u'.upserted;
    assert [a, b'][1..] == [b'];
    assert [b'][1..] == [];
  }

  /**
   Running the scenario twice with the same clock inserts two documents and
   then none; with a clock that has moved on, the record of pulse B gets a new
   timestamp and is inserted again.
   */
  lemma {:induction false} ScenarioRerun(clock1: Clock, clock2: Clock)
    requires clock1(1) != clock2(1)
    ensures var first := InsertThreats([], Extract(ScenarioPayload(), clock1));
            var sameClock := InsertThreats(first.collection, Extract(ScenarioPayload(), clock1));
            var laterClock := InsertThreats(first.collection, Extract(ScenarioPayload(), clock2));
            first.inserted == 2 && sameClock.inserted == 0 && sameClock.duplicates == 2
            && laterClock.inserted == 1
  {
    ScenarioExtraction(clock1);
    ScenarioExtraction(clock2);
    var a := Threat("1.2.3.4", "IPv4", "2024-01-01T00:00:00Z");
    var b := Threat("evil.com", "domain", clock1(1) + "Z");
    var b' := Threat("evil.com", "domain", clock2(1) + "Z");
    assert (clock1(1) + "Z")[..|clock1(1)|] == clock1(1);
    assert (clock2(1) + "Z")[..|clock2(1)|] == clock2(1);
    assert clock1(1) + "Z" != clock2(1) + "Z";
    TwoDistinctInserted(a, b);
    InsertIdempotent([], [a, b]);
    OneChangedKeyInserted(a, b, b');
  }
}

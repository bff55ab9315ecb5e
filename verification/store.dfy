/**
 `insert_threats`: a sequential upsert-if-absent of each record, keyed on
 `(indicator, type, timestamp)` and writing only through `$setOnInsert`, so a
 document already present is never touched. The collection is an ordered
 sequence of documents; an upsert that inserts appends.
 */
module Store {
  import opened Wrappers
  import opened Documents

  datatype UpsertResult = UpsertResult(collection: seq<Document>, upserted: bool)

  /**
   `update_one(filter, {"$setOnInsert": fields}, upsert=True)`: when a document
   matches the filter nothing is written; otherwise the filter's equalities
   merged with `fields` become a new document.
   */
  function UpdateOneSetOnInsert(coll: seq<Document>, filter: Filter, fields: Document): (r: UpsertResult)
    ensures r.upserted <==> !AnyMatches(coll, filter)
    ensures !r.upserted ==> r.collection == coll
    ensures r.upserted ==> r.collection == coll + [filter + fields]
  {
    if AnyMatches(coll, filter) then UpsertResult(coll, false)
    else UpsertResult(coll + [filter + fields], true)
  }

  /** The upsert of one extracted record. */
  function Upsert(coll: seq<Document>, item: Threat): (r: UpsertResult)
    ensures r.upserted <==> !Present(coll, item.KeyOf())
    ensures !r.upserted ==> r.collection == coll
    ensures r.upserted ==> r.collection == coll + [ToDocument(item)]
  {
    assert KeyFilter(item.KeyOf()) + ToDocument(item) == ToDocument(item);
    UpdateOneSetOnInsert(coll, KeyFilter(item.KeyOf()), ToDocument(item))
  }

  /** The collection after the loop, and the `new` and `dup` tallies. */
  datatype InsertOutcome = InsertOutcome(collection: seq<Document>, inserted: nat, duplicates: nat)

  /**
   The loop of `insert_threats`; the function returns `inserted`. Every item
   is counted once as new or duplicate, only new items grow the collection,
   and what was stored before is left as it was.
   */
  function InsertThreats(coll: seq<Document>, items: seq<Threat>): (r: InsertOutcome)
    ensures r.inserted + r.duplicates == |items|
    ensures |r.collection| == |coll| + r.inserted
    ensures Extends(r.collection, coll)
    decreases |items|
  {
    if items == [] then InsertOutcome(coll, 0, 0)
    else
      var u := Upsert(coll, items[0]);
      var rest := InsertThreats(u.collection, items[1..]);
      if u.upserted then InsertOutcome(rest.collection, rest.inserted + 1, rest.duplicates)
      else InsertOutcome(rest.collection, rest.inserted, rest.duplicates + 1)
  }

  // ---------------------------------------------------------------------------
  // Properties of one upsert.

  lemma {:induction false} StoredKeysAppend(coll: seq<Document>, d: Document)
    requires HasKey(d)
    ensures StoredKeys(coll + [d]) == StoredKeys(coll) + {DocKey(d)}
  {
    var c := coll + [d];
    assert c[|coll|] == d;
    forall k | k in StoredKeys(coll) ensures k in StoredKeys(c) {
      var i :| 0 <= i < |coll| && HasKey(coll[i]) && DocKey(coll[i]) == k;
      assert c[i] == coll[i];
    }
  }

  lemma {:induction false} UpsertKeys(coll: seq<Document>, item: Threat)
    ensures StoredKeys(Upsert(coll, item).collection) == StoredKeys(coll) + {item.KeyOf()}
  {
    PresentIffStored(coll, item.KeyOf());
    if Upsert(coll, item).upserted {
      StoredKeysAppend(coll, ToDocument(item));
    }
  }

  lemma {:induction false} UpsertPreservesUnique(coll: seq<Document>, item: Threat)
    requires UniqueKeys(coll)
    ensures UniqueKeys(Upsert(coll, item).collection)
  {
  }

  // ---------------------------------------------------------------------------
  // Properties of the whole loop.

  /** Uniqueness of the natural key is an invariant of `insert_threats`. */
  lemma {:induction false} InsertPreservesUnique(coll: seq<Document>, items: seq<Threat>)
    requires UniqueKeys(coll)
    ensures UniqueKeys(InsertThreats(coll, items).collection)
    decreases |items|
  {
    if items != [] {
      UpsertPreservesUnique(coll, items[0]);
      InsertPreservesUnique(Upsert(coll, items[0]).collection, items[1..]);
    }
  }

  /** The keys of a batch. */
  function BatchKeys(items: seq<Threat>): set<Key> {
    set i | 0 <= i < |items| :: items[i].KeyOf()
  }

  lemma {:induction false} BatchKeysCons(items: seq<Threat>)
    requires items != []
    ensures BatchKeys(items) == {items[0].KeyOf()} + BatchKeys(items[1..])
  {
  }

  /** After the call the stored keys are the old ones plus every key of the batch. */
  lemma {:induction false} InsertKeys(coll: seq<Document>, items: seq<Threat>)
    ensures StoredKeys(InsertThreats(coll, items).collection) == StoredKeys(coll) + BatchKeys(items)
    decreases |items|
  {
    if items == [] {
      assert BatchKeys(items) == {};
    } else {
      UpsertKeys(coll, items[0]);
      InsertKeys(Upsert(coll, items[0]).collection, items[1..]);
      BatchKeysCons(items);
    }
  }

  /** Every item's key is present in the collection after the call. */
  lemma {:induction false} InsertStoresEveryKey(coll: seq<Document>, items: seq<Threat>)
    ensures forall i :: 0 <= i < |items| ==> Present(InsertThreats(coll, items).collection, items[i].KeyOf())
  {
    var c := InsertThreats(coll, items).collection;
    InsertKeys(coll, items);
    forall i | 0 <= i < |items| ensures Present(c, items[i].KeyOf()) {
      PresentIffStored(c, items[i].KeyOf());
    }
  }

  /**
   The count returned is the number of distinct batch keys that were not
   stored before: a key repeated within the batch is counted new at most once.
   */
  lemma {:induction false} InsertedCountsNewKeys(coll: seq<Document>, items: seq<Threat>)
    ensures InsertThreats(coll, items).inserted == |BatchKeys(items) - StoredKeys(coll)|
    decreases |items|
  {
    if items == [] {
      assert BatchKeys(items) == {};
    } else {
      var k := items[0].KeyOf();
      var u := Upsert(coll, items[0]);
      UpsertKeys(coll, items[0]);
      PresentIffStored(coll, k);
      BatchKeysCons(items);
      InsertedCountsNewKeys(u.collection, items[1..]);
      NewKeysStep(k, BatchKeys(items[1..]), StoredKeys(coll));
    }
  }

  /** Set algebra of one step: a key already stored adds nothing new, an unstored one adds itself. */
  lemma {:induction false} NewKeysStep(k: Key, rest: set<Key>, stored: set<Key>)
    ensures k in stored ==> ({k} + rest) - stored == rest - (stored + {k})
    ensures k !in stored ==> |({k} + rest) - stored| == 1 + |rest - (stored + {k})|
  {
    if k !in stored {
      assert ({k} + rest) - stored == {k} + (rest - (stored + {k}));
    }
  }

  /** A batch whose keys are all stored changes nothing and counts only duplicates. */
  lemma {:induction false} InsertAllPresent(coll: seq<Document>, items: seq<Threat>)
    requires forall i :: 0 <= i < |items| ==> Present(coll, items[i].KeyOf())
    ensures InsertThreats(coll, items) == InsertOutcome(coll, 0, |items|)
    decreases |items|
  {
    if items != [] {
      assert Present(coll, items[0].KeyOf());
      InsertAllPresent(coll, items[1..]);
    }
  }

  /** Re-running `insert_threats` with the same batch inserts nothing. */
  lemma {:induction false} InsertIdempotent(coll: seq<Document>, items: seq<Threat>)
    ensures var c := InsertThreats(coll, items).collection;
            InsertThreats(c, items) == InsertOutcome(c, 0, |items|)
  {
    InsertStoresEveryKey(coll, items);
    InsertAllPresent(InsertThreats(coll, items).collection, items);
  }

  /** Two batches run back to back equal one run over their concatenation. */
  lemma {:induction false} InsertSplit(coll: seq<Document>, a: seq<Threat>, b: seq<Threat>)
    ensures var first := InsertThreats(coll, a);
            var second := InsertThreats(first.collection, b);
            InsertThreats(coll, a + b)
              == InsertOutcome(second.collection, first.inserted + second.inserted,
                               first.duplicates + second.duplicates)
    decreases |a|
  {
    if a == [] {
      assert a + b == b;
    } else {
      var u := Upsert(coll, a[0]);
      assert (a + b)[0] == a[0];
      assert (a + b)[1..] == a[1..] + b;
      var restAB := InsertThreats(u.collection, a[1..] + b);
      assert InsertThreats(coll, a + b).collection == restAB.collection;
      InsertSplit(u.collection, a[1..], b);
    }
  }

  /** Two records differing only in timestamp are both stored. */
  lemma {:induction false} TimestampDiscriminates(coll: seq<Document>, i: string, t: string, ts1: string, ts2: string)
    requires ts1 != ts2
    ensures var c := InsertThreats(coll, [Threat(i, t, ts1), Threat(i, t, ts2)]).collection;
            Present(c, Key(i, t, ts1)) && Present(c, Key(i, t, ts2))
  {
    InsertStoresEveryKey(coll, [Threat(i, t, ts1), Threat(i, t, ts2)]);
    assert [Threat(i, t, ts1), Threat(i, t, ts2)][1].KeyOf() == Key(i, t, ts2);
  }

  /**
   A later occurrence of a key already seen in the same batch is counted as a
   duplicate: its upsert writes nothing, and the batch records at least one
   duplicate and fewer inserts than items.
   */
  lemma {:induction false} RepeatWithinBatchIsDuplicate(coll: seq<Document>, items: seq<Threat>, i: nat, j: nat)
    requires i < j < |items| && items[i].KeyOf() == items[j].KeyOf()
    ensures !Upsert(InsertThreats(coll, items[..j]).collection, items[j]).upserted
    ensures InsertThreats(coll, items).duplicates >= 1
    ensures InsertThreats(coll, items).inserted < |items|
  {
    var p := items[..j];
    var q := items[j..];
    assert items == p + q;
    var first := InsertThreats(coll, p);
    InsertStoresEveryKey(coll, p);
    assert p[i] == items[i];
    assert Present(first.collection, items[j].KeyOf());
    assert q[0] == items[j];
    InsertSplit(coll, p, q);
  }

  // ---------------------------------------------------------------------------
  // A store error part-way through the loop.

  /** The loop either completes or is aborted by a `PyMongoError`, leaving what it wrote. */
  datatype InsertRun = Completed(outcome: InsertOutcome) | Aborted(collection: seq<Document>)

  /**
   `insert_threats` when the `update_one` call with index `failAt` (if any)
   raises: the exception leaves the function and the upserts already made
   stay in place.
   */
  function InsertThreatsFallible(coll: seq<Document>, items: seq<Threat>, failAt: Option<nat>): (r: InsertRun)
    ensures r.Aborted? <==> failAt.Some? && failAt.value < |items|
    ensures r.Aborted? ==> Extends(r.collection, coll)
    ensures r.Completed? ==> r.outcome.inserted + r.outcome.duplicates == |items|
    ensures r.Completed? ==> Extends(r.outcome.collection, coll)
    decreases |items|
  {
    if items == [] then Completed(InsertOutcome(coll, 0, 0))
    else if failAt == Some(0) then Aborted(coll)
    else
      var u := Upsert(coll, items[0]);
      var next := if failAt.Some? then Some(failAt.value - 1) else None;
      match InsertThreatsFallible(u.collection, items[1..], next)
      case Aborted(c) => Aborted(c)
      case Completed(rest) =>
        if u.upserted then Completed(InsertOutcome(rest.collection, rest.inserted + 1, rest.duplicates))
        else Completed(InsertOutcome(rest.collection, rest.inserted, rest.duplicates + 1))
  }

  /** Without a failing call inside the batch, the loop completes like `InsertThreats`. */
  lemma {:induction false} NoFailureCompletes(coll: seq<Document>, items: seq<Threat>, failAt: Option<nat>)
    requires !(failAt.Some? && failAt.value < |items|)
    ensures InsertThreatsFallible(coll, items, failAt) == Completed(InsertThreats(coll, items))
    decreases |items|
  {
    if items != [] {
      assert failAt != Some(0);
      var u := Upsert(coll, items[0]);
      var next := if failAt.Some? then Some(failAt.value - 1) else None;
      NoFailureCompletes(u.collection, items[1..], next);
      var rest := InsertThreats(u.collection, items[1..]);
      assert InsertThreatsFallible(u.collection, items[1..], next) == Completed(rest);
    }
  }

  /** An aborted run leaves exactly what the items before the failing call wrote. */
  lemma {:induction false} AbortLeavesPrefix(coll: seq<Document>, items: seq<Threat>, n: nat)
    requires n < |items|
    ensures InsertThreatsFallible(coll, items, Some(n)) == Aborted(InsertThreats(coll, items[..n]).collection)
    decreases |items|
  {
    if n == 0 {
      assert items[..0] == [];
    } else {
      var u := Upsert(coll, items[0]);
      AbortLeavesPrefix(u.collection, items[1..], n - 1);
      var p := items[..n];
      assert p[0] == items[0];
      assert p[1..] == items[1..][..n - 1];
      assert InsertThreats(coll, p).collection == InsertThreats(u.collection, p[1..]).collection;
    }
  }

  /**
   Re-running the whole batch after any prefix of it has been written reaches
   the uninterrupted collection. This covers a raising `update_one` that had
   already written its document (prefix `items[..n + 1]`) as well as one that
   wrote nothing (prefix `items[..n]`).
   */
  lemma {:induction false} RerunAfterPrefixConverges(coll: seq<Document>, items: seq<Threat>, m: nat)
    requires m <= |items|
    ensures InsertThreats(InsertThreats(coll, items[..m]).collection, items).collection
         == InsertThreats(coll, items).collection
  {
    var p := items[..m];
    var q := items[m..];
    assert items == p + q;
    var first := InsertThreats(coll, p);
    InsertSplit(first.collection, p, q);
    InsertIdempotent(coll, p);
    InsertSplit(coll, p, q);
  }

  /**
   Partial progress is safe: re-running the whole batch after an aborted run
   reaches the same collection as an uninterrupted run.
   */
  lemma {:induction false} RerunAfterAbortConverges(coll: seq<Document>, items: seq<Threat>, n: nat)
    requires n < |items|
    ensures var partial := InsertThreatsFallible(coll, items, Some(n));
            partial.Aborted?
            && InsertThreats(partial.collection, items).collection == InsertThreats(coll, items).collection
  {
    AbortLeavesPrefix(coll, items, n);
    var p := items[..n];
    var q := items[n..];
    assert items == p + q;
    var first := InsertThreats(coll, p);
    InsertSplit(first.collection, p, q);
    InsertIdempotent(coll, p);
    InsertSplit(coll, p, q);
  }
}

/**
 Stored threat documents and the natural key `(indicator, type, timestamp)`
 that the fetcher deduplicates on.
 */
module Documents {
  import opened Wrappers

  /** A stored document: field name to string value (the `_id` field is not modelled). */
  type Document = map<string, string>

  /** An equality filter, as passed to `find` or `update_one`. */
  type Filter = map<string, string>

  const IndicatorField: string := "indicator"
  const TypeField: string := "type"
  const TimestampField: string := "timestamp"
  const SeverityField: string := "severity"

  /** The natural key of a threat document. */
  datatype Key = Key(indicator: string, indicatorType: string, timestamp: string)

  /** One extracted indicator record, as built by the fetcher. */
  datatype Threat = Threat(indicator: string, indicatorType: string, timestamp: string) {

    function KeyOf(): Key {
      Key(indicator, indicatorType, timestamp)
    }
  }

  /** The document the fetcher writes for a record: exactly three fields, no severity. */
  function ToDocument(t: Threat): (d: Document)
    ensures d.Keys == {IndicatorField, TypeField, TimestampField}
    ensures SeverityField !in d
    ensures HasKey(d) && DocKey(d) == t.KeyOf()
  {
    map[IndicatorField := t.indicator, TypeField := t.indicatorType, TimestampField := t.timestamp]
  }

  /** Equality-filter semantics: every filtered field is present with the given value. */
  predicate Matches(doc: Document, filter: Filter) {
    forall k :: k in filter ==> k in doc && doc[k] == filter[k]
  }

  /** The filter `{"indicator": .., "type": .., "timestamp": ..}` for a key. */
  function KeyFilter(k: Key): (f: Filter)
    ensures f.Keys == {IndicatorField, TypeField, TimestampField}
  {
    map[IndicatorField := k.indicator, TypeField := k.indicatorType, TimestampField := k.timestamp]
  }

  predicate HasKey(doc: Document) {
    IndicatorField in doc && TypeField in doc && TimestampField in doc
  }

  function DocKey(doc: Document): Key
    requires HasKey(doc)
  {
    Key(doc[IndicatorField], doc[TypeField], doc[TimestampField])
  }

  /** A document matches a key's filter exactly when it carries that key. */
  lemma {:induction false} MatchesKeyFilter(doc: Document, k: Key)
    ensures Matches(doc, KeyFilter(k)) <==> HasKey(doc) && DocKey(doc) == k
  {
  }

  /** Some stored document matches the filter (what `update_one` looks for). */
  predicate AnyMatches(coll: seq<Document>, filter: Filter) {
    exists i :: 0 <= i < |coll| && Matches(coll[i], filter)
  }

  /** Some stored document carries key `k`. */
  predicate Present(coll: seq<Document>, k: Key) {
    AnyMatches(coll, KeyFilter(k))
  }

  /** `after` keeps every document of `before`, in place, and may add more at the end. */
  predicate Extends(after: seq<Document>, before: seq<Document>) {
    |before| <= |after| && after[..|before|] == before
  }

  /** The keys carried by the documents of a collection. */
  function StoredKeys(coll: seq<Document>): set<Key> {
    set i | 0 <= i < |coll| && HasKey(coll[i]) :: DocKey(coll[i])
  }

  lemma {:induction false} PresentIffStored(coll: seq<Document>, k: Key)
    ensures Present(coll, k) <==> k in StoredKeys(coll)
  {
  }

  /** The store invariant: no two documents share a natural key. */
  predicate UniqueKeys(coll: seq<Document>) {
    forall i, j :: 0 <= i < j < |coll| && HasKey(coll[i]) && HasKey(coll[j]) ==>
      DocKey(coll[i]) != DocKey(coll[j])
  }
}

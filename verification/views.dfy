/**
 The read side shared by `app/views.py` and `app/ui_app.py`: run
 `find(query).sort("timestamp", -1).limit(20)`, map each document to a row
 with "N/A" for missing fields and a parsed or absent timestamp, and fall back
 to an empty list when the store raises.
 */
module Views {
  import opened Wrappers
  import opened Documents
  import opened Ordering
  import opened Query

  const Limit: nat := 20
  const NotAvailable: string := "N/A"

  /** The documents matching every equality of the query, in stored order. */
  function FilterDocs(docs: seq<Document>, query: Filter): (r: seq<Document>)
    ensures forall i :: 0 <= i < |r| ==> Matches(r[i], query)
    ensures forall d :: multiset(r)[d] == if Matches(d, query) then multiset(docs)[d] else 0
    decreases |docs|
  {
    if docs == [] then []
    else
      assert docs == [docs[0]] + docs[1..];
      (if Matches(docs[0], query) then [docs[0]] else []) + FilterDocs(docs[1..], query)
  }

  /** No document of `pool` left out of `r` is newer than a document of `r`. */
  predicate Outranks(r: seq<Document>, pool: multiset<Document>) {
    forall d, i :: d in pool - multiset(r) && 0 <= i < |r| ==> NotBelow(r[i], d)
  }

  /** Every document of `r` satisfies the query. */
  predicate AllMatch(r: seq<Document>, query: Filter) {
    forall i :: 0 <= i < |r| ==> Matches(r[i], query)
  }

  /** The first `n` of a descending sequence are the top `n`. */
  lemma {:induction false} SortedPrefixIsTop(sorted: seq<Document>, n: nat)
    requires SortedDesc(sorted) && n <= |sorted|
    ensures SortedDesc(sorted[..n])
    ensures multiset(sorted[..n]) <= multiset(sorted)
    ensures Outranks(sorted[..n], multiset(sorted))
  {
    var r := sorted[..n];
    assert sorted == r + sorted[n..];
    assert multiset(sorted) == multiset(r) + multiset(sorted[n..]);
    forall d, i | d in multiset(sorted) - multiset(r) && 0 <= i < n ensures NotBelow(r[i], d) {
      assert d in multiset(sorted[n..]);
      var k :| 0 <= k < |sorted[n..]| && sorted[n..][k] == d;
      assert sorted[n + k] == d;
    }
  }

  /** Every member of a sub-multiset of the filtered documents matches the query. */
  lemma {:induction false} SubsetMatches(r: seq<Document>, docs: seq<Document>, query: Filter)
    requires multiset(r) <= multiset(FilterDocs(docs, query))
    ensures forall i :: 0 <= i < |r| ==> Matches(r[i], query)
  {
  }

  /**
   `find(query).sort("timestamp", -1).limit(20)`: at most 20 matching
   documents, newest first, and every matching document left out is no newer
   than any returned one.
   */
  function Find(docs: seq<Document>, query: Filter): (r: seq<Document>)
    ensures |r| <= Limit
    ensures |r| == if |FilterDocs(docs, query)| < Limit then |FilterDocs(docs, query)| else Limit
    ensures AllMatch(r, query)
    ensures SortedDesc(r)
    ensures multiset(r) <= multiset(FilterDocs(docs, query))
    ensures Outranks(r, multiset(FilterDocs(docs, query)))
  {
    var sorted := SortDesc(FilterDocs(docs, query));
    var n := if |sorted| < Limit then |sorted| else Limit;
    SortedPrefixIsTop(sorted, n);
    SubsetMatches(sorted[..n], docs, query);
    sorted[..n]
  }

  /** `s.replace("Z", "+00:00")`. */
  function ReplaceZ(s: string): (r: string)
    ensures 'Z' !in r
    ensures |r| >= |s|
    ensures 'Z' !in s ==> r == s
    decreases |s|
  {
    if s == [] then []
    else (if s[0] == 'Z' then "+00:00" else [s[0]]) + ReplaceZ(s[1..])
  }

  /** `replace` works piecewise: the two halves of a string are rewritten independently. */
  lemma {:induction false} ReplaceZAppend(a: string, b: string)
    ensures ReplaceZ(a + b) == ReplaceZ(a) + ReplaceZ(b)
    decreases |a|
  {
    if a == [] {
      assert a + b == b;
    } else {
      assert (a + b)[0] == a[0];
      assert (a + b)[1..] == a[1..] + b;
      ReplaceZAppend(a[1..], b);
      var h := if a[0] == 'Z' then "+00:00" else [a[0]];
      calc {
        ReplaceZ(a + b);
        h + ReplaceZ(a[1..] + b);
        h + (ReplaceZ(a[1..]) + ReplaceZ(b));
        (h + ReplaceZ(a[1..])) + ReplaceZ(b);
      }
    }
  }

  /** On one character: 'Z' becomes the UTC offset "+00:00", any other character stays. */
  lemma {:induction false} ReplaceZChar(c: char)
    ensures ReplaceZ([c]) == if c == 'Z' then "+00:00" else [c]
  {
    assert [c][1..] == [];
  }

  /** A timestamp as the fetcher stamps it, clock reading plus "Z", is read back with an explicit UTC offset. */
  lemma {:induction false} ReplaceZStampedTime(reading: string)
    requires 'Z' !in reading
    ensures ReplaceZ(reading + "Z") == reading + "+00:00"
  {
    ReplaceZAppend(reading, "Z");
    ReplaceZChar('Z');
  }

  /** One rendered row; `D` is the type of parsed datetimes. */
  datatype Row<D> = Row(timestamp: Option<D>, indicator: string, indicatorType: string, severity: string)

  /**
   The row for one document. `fromIso` stands for `datetime.fromisoformat`,
   `None` where it raises; an absent or empty timestamp is not parsed.
   */
  function RowOf<D>(doc: Document, fromIso: string -> Option<D>): (r: Row<D>)
    ensures IndicatorField in doc ==> r.indicator == doc[IndicatorField]
    ensures TypeField in doc ==> r.indicatorType == doc[TypeField]
    ensures SeverityField in doc ==> r.severity == doc[SeverityField]
    ensures IndicatorField !in doc ==> r.indicator == NotAvailable
    ensures TypeField !in doc ==> r.indicatorType == NotAvailable
    ensures SeverityField !in doc ==> r.severity == NotAvailable
    ensures (TimestampField !in doc || doc[TimestampField] == "") ==> r.timestamp.None?
    ensures TimestampField in doc && doc[TimestampField] != "" ==> r.timestamp == fromIso(ReplaceZ(doc[TimestampField]))
  {
    var ts := if TimestampField in doc && doc[TimestampField] != "" then fromIso(ReplaceZ(doc[TimestampField])) else None;
    Row(ts, Field(doc, IndicatorField), Field(doc, TypeField), Field(doc, SeverityField))
  }

  /** `doc.get(field, "N/A")`. */
  function Field(doc: Document, field: string): string {
    if field in doc then doc[field] else NotAvailable
  }

  /** The store as one request sees it: its documents, or an error from `find`. */
  datatype StoreView = Reachable(docs: seq<Document>) | Unreachable

  /** `rows` renders `found` one document per row, in order. */
  ghost predicate RowsOf<D>(rows: seq<Row<D>>, found: seq<Document>, fromIso: string -> Option<D>) {
    |rows| == |found| && forall i :: 0 <= i < |rows| ==> rows[i] == RowOf(found[i], fromIso)
  }

  /** Query, map and fall back to `[]` on error: the body of both index handlers. */
  function FetchRows<D>(store: StoreView, query: Filter, fromIso: string -> Option<D>): (r: seq<Row<D>>)
    ensures |r| <= Limit
    ensures store.Unreachable? ==> r == []
    ensures store.Reachable? ==> RowsOf(r, Find(store.docs, query), fromIso)
    ensures forall i :: 0 <= i < |r| ==> TypeField in query ==> r[i].indicatorType == query[TypeField]
    ensures forall i :: 0 <= i < |r| ==> SeverityField in query ==> r[i].severity == query[SeverityField]
  {
    match store
    case Unreachable => []
    case Reachable(docs) =>
      var found := Find(docs, query);
      var rows := seq(|found|, i requires 0 <= i < |found| => RowOf(found[i], fromIso));
      RowsSatisfyQuery(found, rows, query, fromIso);
      rows
  }

  /** Rows of documents matching the query carry the filtered values. */
  lemma {:induction false} RowsSatisfyQuery<D>(found: seq<Document>, rows: seq<Row<D>>, query: Filter, fromIso: string -> Option<D>)
    requires AllMatch(found, query)
    requires RowsOf(rows, found, fromIso)
    ensures forall i :: 0 <= i < |rows| ==> TypeField in query ==> rows[i].indicatorType == query[TypeField]
    ensures forall i :: 0 <= i < |rows| ==> SeverityField in query ==> rows[i].severity == query[SeverityField]
  {
  }

  /** `views.py` index: the threat rows for the `type` and `severity` arguments. */
  function ViewsIndex<D>(store: StoreView, threatType: Option<string>, severity: Option<string>, fromIso: string -> Option<D>): (r: seq<Row<D>>)
    ensures |r| <= Limit
    ensures store.Unreachable? ==> r == []
    ensures Truthy(threatType) ==> forall i :: 0 <= i < |r| ==> r[i].indicatorType == threatType.value
    ensures Truthy(severity) ==> forall i :: 0 <= i < |r| ==> r[i].severity == severity.value
    ensures store.Reachable? ==> RowsOf(r, Find(store.docs, ViewsQuery(threatType, severity)), fromIso)
  {
    FetchRows(store, ViewsQuery(threatType, severity), fromIso)
  }

  /** What `ui_app.py`'s index produces: the span it opens and the rows it renders. */
  datatype UiResponse<D> = UiResponse(spanName: string, threats: seq<Row<D>>)

  function UiIndex<D>(store: StoreView, threatType: Option<string>, severity: Option<string>, fromIso: string -> Option<D>): (r: UiResponse<D>)
    ensures |r.threats| <= Limit
    ensures store.Unreachable? ==> r.threats == []
    ensures Truthy(threatType) ==> forall i :: 0 <= i < |r.threats| ==> r.threats[i].indicatorType == threatType.value
    ensures Truthy(severity) ==> forall i :: 0 <= i < |r.threats| ==> r.threats[i].severity == severity.value
    ensures store.Reachable? ==> RowsOf(r.threats, Find(store.docs, UiQuery(threatType, severity)), fromIso)
    ensures r.spanName == SpanName(threatType, severity)
  {
    UiResponse(SpanName(threatType, severity), FetchRows(store, UiQuery(threatType, severity), fromIso))
  }

  /** Both apps render the same rows for the same request. */
  lemma {:induction false} IndexesAgree<D>(store: StoreView, threatType: Option<string>, severity: Option<string>, fromIso: string -> Option<D>)
    ensures UiIndex(store, threatType, severity, fromIso).threats == ViewsIndex(store, threatType, severity, fromIso)
  {
    QueriesAgree(threatType, severity);
  }

  /**
   Rows follow the result order, and when at most 20 documents match, each
   matching document appears as a row.
   */
  lemma {:induction false} RowsCoverSmallResults<D>(docs: seq<Document>, query: Filter, fromIso: string -> Option<D>)
    requires |FilterDocs(docs, query)| <= Limit
    ensures multiset(Find(docs, query)) == multiset(FilterDocs(docs, query))
    ensures forall d :: d in docs && Matches(d, query) ==> RowOf(d, fromIso) in FetchRows(Reachable(docs), query, fromIso)
  {
    var found := Find(docs, query);
    var m := FilterDocs(docs, query);
    assert |multiset(found)| == |multiset(m)|;
    SubmultisetSameSize(multiset(found), multiset(m));
    var rows := FetchRows(Reachable(docs), query, fromIso);
    forall d | d in docs && Matches(d, query) ensures RowOf(d, fromIso) in rows {
      assert multiset(m)[d] > 0;
      assert d in multiset(found);
      var i :| 0 <= i < |found| && found[i] == d;
      assert rows[i] == RowOf(d, fromIso);
    }
  }

  lemma {:induction false} SubmultisetSameSize<T>(a: multiset<T>, b: multiset<T>)
    requires a <= b && |a| == |b|
    ensures a == b
  {
    var diff := b - a;
    assert b == a + diff;
    assert |diff| == 0;
  }

  /** The health endpoint's response. */
  datatype HealthResponse = HealthResponse(body: map<string, string>, status: nat)

  function Health(): (r: HealthResponse)
    ensures r.status == 200 && r.body == map["status" := "ok"]
  {
    HealthResponse(map["status" := "ok"], 200)
  }
}

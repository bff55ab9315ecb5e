/**
 The order of `sort("timestamp", -1)`: documents by their `timestamp` string,
 compared code point by code point, largest first; a document without a
 timestamp sorts like a null value, below every string.
 */
module Ordering {
  import opened Wrappers
  import opened Documents

  /** Lexicographic order on strings, by character code. */
  predicate StrLe(a: string, b: string)
    decreases |a|
  {
    if a == [] then true
    else if b == [] then false
    else if a[0] != b[0] then a[0] < b[0]
    else StrLe(a[1..], b[1..])
  }

  lemma {:induction false} StrLeTotal(a: string, b: string)
    ensures StrLe(a, b) || StrLe(b, a)
    decreases |a|
  {
    if a != [] && b != [] && a[0] == b[0] {
      StrLeTotal(a[1..], b[1..]);
    }
  }

  lemma {:induction false} StrLeTransitive(a: string, b: string, c: string)
    requires StrLe(a, b) && StrLe(b, c)
    ensures StrLe(a, c)
    decreases |a|
  {
    if a != [] && b != [] && c != [] && a[0] == b[0] && b[0] == c[0] {
      StrLeTransitive(a[1..], b[1..], c[1..]);
    }
  }

  /** The sort key of a document: its timestamp, if it has one. */
  function SortKey(d: Document): Option<string> {
    if TimestampField in d then Some(d[TimestampField]) else None
  }

  /** `a` sorts no later than `b` in ascending order; absence is least. */
  predicate KeyLe(a: Option<string>, b: Option<string>) {
    match a
    case None => true
    case Some(x) => b.Some? && StrLe(x, b.value)
  }

  lemma {:induction false} KeyLeTotal(a: Option<string>, b: Option<string>)
    ensures KeyLe(a, b) || KeyLe(b, a)
  {
    if a.Some? && b.Some? {
      StrLeTotal(a.value, b.value);
    }
  }

  lemma {:induction false} KeyLeTransitive(a: Option<string>, b: Option<string>, c: Option<string>)
    requires KeyLe(a, b) && KeyLe(b, c)
    ensures KeyLe(a, c)
  {
    if a.Some? {
      StrLeTransitive(a.value, b.value, c.value);
    }
  }

  /** Document `d` may appear before `e` in a descending-by-timestamp result. */
  predicate NotBelow(d: Document, e: Document) {
    KeyLe(SortKey(e), SortKey(d))
  }

  predicate SortedDesc(s: seq<Document>) {
    forall i, j :: 0 <= i < j < |s| ==> NotBelow(s[i], s[j])
  }

  /** Every document after the head of a sorted sequence may follow the head. */
  lemma {:induction false} HeadNotBelowRest(s: seq<Document>, e: Document)
    requires SortedDesc(s) && s != [] && e in s[1..]
    ensures NotBelow(s[0], e)
  {
  }

  /** A document not below any member of a descending sequence may lead it. */
  lemma {:induction false} ConsSorted(x: Document, s: seq<Document>)
    requires SortedDesc(s)
    requires forall j :: 0 <= j < |s| ==> NotBelow(x, s[j])
    ensures SortedDesc([x] + s)
  {
  }

  /** A document not below the head of a descending sequence is not below any member. */
  lemma {:induction false} NotBelowHead(d: Document, s: seq<Document>)
    requires SortedDesc(s) && s != [] && NotBelow(d, s[0])
    ensures forall j :: 0 <= j < |s| ==> NotBelow(d, s[j])
  {
    forall j | 0 < j < |s| ensures NotBelow(d, s[j]) {
      KeyLeTransitive(SortKey(s[j]), SortKey(s[0]), SortKey(d));
    }
  }

  /** Insert `d` into a descending sequence, before the first document it is not below. */
  function InsertDesc(d: Document, s: seq<Document>): (r: seq<Document>)
    requires SortedDesc(s)
    ensures multiset(r) == multiset(s) + multiset{d}
    ensures forall x :: x in r ==> x == d || x in s
    ensures SortedDesc(r)
    decreases |s|
  {
    if s == [] then [d]
    else if NotBelow(d, s[0]) then
      NotBelowHead(d, s);
      ConsSorted(d, s);
      [d] + s
    else
      KeyLeTotal(SortKey(d), SortKey(s[0]));
      var rest := InsertDesc(d, s[1..]);
      assert s == [s[0]] + s[1..];
      assert forall j :: 0 <= j < |rest| ==> NotBelow(s[0], rest[j]) by {
        forall j | 0 <= j < |rest| ensures NotBelow(s[0], rest[j]) {
          if rest[j] != d {
            HeadNotBelowRest(s, rest[j]);
          }
        }
      }
      ConsSorted(s[0], rest);
      [s[0]] + rest
  }

  /** Insertion sort, descending by timestamp. */
  function SortDesc(docs: seq<Document>): (r: seq<Document>)
    ensures multiset(r) == multiset(docs)
    ensures SortedDesc(r)
    decreases |docs|
  {
    if docs == [] then []
    else
      assert docs == [docs[0]] + docs[1..];
      InsertDesc(docs[0], SortDesc(docs[1..]))
  }
}

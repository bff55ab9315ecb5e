/**
 Read-side query construction: the `type` and `severity` request arguments
 become an equality filter holding only the truthy ones, and the UI app names
 its tracing span after the filter combination.
 */
module Query {
  import opened Wrappers
  import opened Documents

  /** Pair `i` is the last pair with key `k` whose value is truthy. */
  predicate LastTruthyAt(pairs: seq<(string, Option<string>)>, k: string, i: int) {
    0 <= i < |pairs| && pairs[i].0 == k && Truthy(pairs[i].1)
    && forall j :: i < j < |pairs| && pairs[j].0 == k ==> !Truthy(pairs[j].1)
  }

  /**
   `{k: v for k, v in pairs if v}`: later pairs overwrite earlier ones with the
   same key.
   */
  function CollectTruthy(pairs: seq<(string, Option<string>)>): (q: Filter)
    ensures forall k :: k in q <==> exists i :: 0 <= i < |pairs| && pairs[i].0 == k && Truthy(pairs[i].1)
    ensures forall k :: k in q ==> exists i :: LastTruthyAt(pairs, k, i) && q[k] == pairs[i].1.value
    decreases |pairs|
  {
    if pairs == [] then map[]
    else
      var init := pairs[..|pairs| - 1];
      var last := pairs[|pairs| - 1];
      var q := CollectTruthy(init);
      assert forall i :: 0 <= i < |init| ==> init[i] == pairs[i];
      LastTruthyExtends(init, pairs);
      assert Truthy(last.1) ==> LastTruthyAt(pairs, last.0, |pairs| - 1);
      if Truthy(last.1) then q[last.0 := last.1.value] else q
  }

  /** A last truthy pair of a prefix stays last when the next pair has another key or a falsy value. */
  lemma {:induction false} LastTruthyExtends(init: seq<(string, Option<string>)>, pairs: seq<(string, Option<string>)>)
    requires |pairs| == |init| + 1 && init == pairs[..|init|]
    ensures forall k, i :: LastTruthyAt(init, k, i) && (pairs[|init|].0 != k || !Truthy(pairs[|init|].1))
                           ==> LastTruthyAt(pairs, k, i)
  {
    forall k, i | LastTruthyAt(init, k, i) && (pairs[|init|].0 != k || !Truthy(pairs[|init|].1))
      ensures LastTruthyAt(pairs, k, i)
    {
      assert pairs[i] == init[i];
      forall j | i < j < |pairs| && pairs[j].0 == k ensures !Truthy(pairs[j].1) {
        if j < |init| {
          assert pairs[j] == init[j];
        }
      }
    }
  }

  /** The filter of `views.py`'s index, built by a dictionary comprehension. */
  function ViewsQuery(threatType: Option<string>, severity: Option<string>): (q: Filter)
    ensures TypeField in q <==> Truthy(threatType)
    ensures SeverityField in q <==> Truthy(severity)
    ensures q.Keys <= {TypeField, SeverityField}
    ensures TypeField in q ==> q[TypeField] == threatType.value
    ensures SeverityField in q ==> q[SeverityField] == severity.value
  {
    var pairs := [(TypeField, threatType), (SeverityField, severity)];
    assert pairs[..1] == [(TypeField, threatType)];
    assert pairs[..1][..0] == [];
    assert TypeField != SeverityField;
    var q0 := CollectTruthy(pairs[..1][..0]);
    assert q0 == map[];
    var q1 := CollectTruthy(pairs[..1]);
    assert q1 == if Truthy(threatType) then q0[TypeField := threatType.value] else q0;
    CollectTruthy(pairs)
  }

  /** The filter of `ui_app.py`'s index, built by two conditional assignments. */
  function UiQuery(threatType: Option<string>, severity: Option<string>): (q: Filter)
    ensures q.Keys <= {TypeField, SeverityField}
    ensures TypeField in q <==> Truthy(threatType)
    ensures SeverityField in q <==> Truthy(severity)
    ensures TypeField in q ==> q[TypeField] == threatType.value
    ensures SeverityField in q ==> q[SeverityField] == severity.value
  {
    var q0: Filter := map[];
    var q1 := if Truthy(threatType) then q0[TypeField := threatType.value] else q0;
    if Truthy(severity) then q1[SeverityField := severity.value] else q1
  }

  /** The two apps build the same filter from the same arguments. */
  lemma {:induction false} QueriesAgree(threatType: Option<string>, severity: Option<string>)
    ensures ViewsQuery(threatType, severity) == UiQuery(threatType, severity)
  {
  }

  const BaseSpan: string := "query_threats"

  /** The span name `ui_app.py` opens for a query. */
  function SpanName(threatType: Option<string>, severity: Option<string>): (r: string)
    ensures r in {BaseSpan, BaseSpan + "_type", BaseSpan + "_severity", BaseSpan + "_type_severity"}
    ensures r == BaseSpan <==> !Truthy(threatType) && !Truthy(severity)
    ensures r == BaseSpan + "_type_severity" <==> Truthy(threatType) && Truthy(severity)
  {
    if Truthy(threatType) && Truthy(severity) then BaseSpan + "_type_severity"
    else if Truthy(threatType) then BaseSpan + "_type"
    else if Truthy(severity) then BaseSpan + "_severity"
    else BaseSpan
  }

  /** The span name spells out which fields the filter constrains, type before severity. */
  lemma {:induction false} SpanNameReflectsQuery(threatType: Option<string>, severity: Option<string>)
    ensures var q := UiQuery(threatType, severity);
            SpanName(threatType, severity)
              == BaseSpan + (if TypeField in q then "_type" else "") + (if SeverityField in q then "_severity" else "")
  {
  }

  /** Different filter combinations get different span names, and equal ones equal names. */
  lemma {:induction false} SpanNameDistinguishesCombinations(t1: Option<string>, s1: Option<string>, t2: Option<string>, s2: Option<string>)
    ensures SpanName(t1, s1) == SpanName(t2, s2) <==> (Truthy(t1) == Truthy(t2) && Truthy(s1) == Truthy(s2))
  {
  }
}

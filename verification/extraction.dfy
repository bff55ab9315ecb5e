/**
 The extraction loop of `fetch_otx_threats`: walk an already-decoded OTX
 payload pulse by pulse and indicator by indicator, keep the entries whose
 `indicator` and `type` are both truthy, and stamp each with the pulse's
 `modified` value or, when the pulse has none, the current UTC time plus "Z".
 */
module Extraction {
  import opened Wrappers
  import opened Documents

  /** One element of a pulse's `indicators` list; `None` is an absent key. */
  datatype Entry = Entry(indicator: Option<string>, indicatorType: Option<string>)

  /** One element of the payload's `results` list. */
  datatype Pulse = Pulse(modified: Option<string>, indicators: Option<seq<Entry>>)

  /** The decoded response body. */
  datatype Payload = Payload(results: Option<seq<Pulse>>)

  /**
   The reading of `datetime.utcnow().isoformat()`. The default argument of
   `pulse.get("modified", ...)` is evaluated once per kept entry, so the j-th
   record of the output sees reading `clock(j)`.
   */
  type Clock = nat -> string

  /** The entry passes the `if i and t` test. */
  predicate Accepted(e: Entry) {
    Truthy(e.indicator) && Truthy(e.indicatorType)
  }

  /** The timestamp of the j-th record, which came from a pulse with `modified`. */
  function StampOf(modified: Option<string>, clock: Clock, j: nat): (r: string)
    ensures modified.Some? ==> r == modified.value
    ensures modified.None? ==> |r| == |clock(j)| + 1 && r[..|clock(j)|] == clock(j) && r[|clock(j)|] == 'Z'
  {
    match modified
    case Some(m) => m
    case None => clock(j) + "Z"
  }

  /** The inner loop over one pulse's entries; `base` records were emitted before it. */
  function ExtractEntries(entries: seq<Entry>, modified: Option<string>, clock: Clock, base: nat): (r: seq<Threat>)
    ensures |r| <= |entries|
    ensures forall j :: 0 <= j < |r| ==> r[j].indicator != "" && r[j].indicatorType != ""
    ensures forall j :: 0 <= j < |r| ==> r[j].timestamp == StampOf(modified, clock, base + j)
    decreases |entries|
  {
    if entries == [] then []
    else
      var e := entries[0];
      if Accepted(e) then
        [Threat(e.indicator.value, e.indicatorType.value, StampOf(modified, clock, base))]
          + ExtractEntries(entries[1..], modified, clock, base + 1)
      else
        ExtractEntries(entries[1..], modified, clock, base)
  }

  /** The outer loop over the pulses; a pulse without `indicators` contributes nothing. */
  function ExtractPulses(pulses: seq<Pulse>, clock: Clock, base: nat): (r: seq<Threat>)
    ensures forall j :: 0 <= j < |r| ==> r[j].indicator != "" && r[j].indicatorType != ""
    decreases |pulses|
  {
    if pulses == [] then []
    else
      var head := ExtractEntries(pulses[0].indicators.GetOr([]), pulses[0].modified, clock, base);
      head + ExtractPulses(pulses[1..], clock, base + |head|)
  }

  /** The records `fetch_otx_threats` returns for a decoded payload. */
  function Extract(payload: Payload, clock: Clock): (r: seq<Threat>)
    ensures payload.results.None? ==> r == []
    ensures forall j :: 0 <= j < |r| ==> r[j].indicator != "" && r[j].indicatorType != ""
  {
    ExtractPulses(payload.results.GetOr([]), clock, 0)
  }

  // ---------------------------------------------------------------------------
  // Reference definition: flatten, filter, then number the survivors.

  /** An indicator entry together with the `modified` of the pulse that holds it. */
  datatype Sighting = Sighting(modified: Option<string>, entry: Entry)

  /** All entries of all pulses, in pulse order then entry order. */
  function Sightings(pulses: seq<Pulse>): seq<Sighting>
    decreases |pulses|
  {
    if pulses == [] then []
    else
      var p := pulses[0];
      var es := p.indicators.GetOr([]);
      seq(|es|, i requires 0 <= i < |es| => Sighting(p.modified, es[i])) + Sightings(pulses[1..])
  }

  /** The sightings whose entry is accepted, order preserved. */
  function Kept(ss: seq<Sighting>): seq<Sighting>
    decreases |ss|
  {
    if ss == [] then []
    else (if Accepted(ss[0].entry) then [ss[0]] else []) + Kept(ss[1..])
  }

  /** The record for a kept sighting numbered j. */
  function RecordOf(s: Sighting, clock: Clock, j: nat): Threat {
    Threat(s.entry.indicator.GetOr(""), s.entry.indicatorType.GetOr(""), StampOf(s.modified, clock, j))
  }

  /** Number the sightings from `base`, one record each. */
  function Number(ks: seq<Sighting>, clock: Clock, base: nat): (r: seq<Threat>)
    ensures |r| == |ks|
    decreases |ks|
  {
    if ks == [] then [] else [RecordOf(ks[0], clock, base)] + Number(ks[1..], clock, base + 1)
  }

  /** The expected output: one record per kept sighting, numbered from `base`. */
  function Reference(ss: seq<Sighting>, clock: Clock, base: nat): seq<Threat> {
    Number(Kept(ss), clock, base)
  }

  lemma {:induction false} KeptAppend(a: seq<Sighting>, b: seq<Sighting>)
    ensures Kept(a + b) == Kept(a) + Kept(b)
    decreases |a|
  {
    if a == [] {
      assert a + b == b;
    } else {
      assert (a + b)[0] == a[0];
      assert (a + b)[1..] == a[1..] + b;
      KeptAppend(a[1..], b);
      var h := if Accepted(a[0].entry) then [a[0]] else [];
      calc {
        Kept(a + b);
        h + Kept(a[1..] + b);
        h + (Kept(a[1..]) + Kept(b));
        (h + Kept(a[1..])) + Kept(b);
      }
    }
  }

  lemma {:induction false} NumberAppend(x: seq<Sighting>, y: seq<Sighting>, clock: Clock, base: nat)
    ensures Number(x + y, clock, base) == Number(x, clock, base) + Number(y, clock, base + |x|)
    decreases |x|
  {
    if x == [] {
      assert x + y == y;
    } else {
      assert (x + y)[0] == x[0];
      assert (x + y)[1..] == x[1..] + y;
      NumberAppend(x[1..], y, clock, base + 1);
    }
  }

  lemma {:induction false} ReferenceAppend(a: seq<Sighting>, b: seq<Sighting>, clock: Clock, base: nat)
    ensures Reference(a + b, clock, base)
         == Reference(a, clock, base) + Reference(b, clock, base + |Kept(a)|)
  {
    KeptAppend(a, b);
    NumberAppend(Kept(a), Kept(b), clock, base);
  }

  /** Extraction of one pulse's entries agrees with the reference. */
  lemma {:induction false} EntriesMatchReference(entries: seq<Entry>, modified: Option<string>, clock: Clock, base: nat)
    ensures ExtractEntries(entries, modified, clock, base)
         == Reference(seq(|entries|, i requires 0 <= i < |entries| => Sighting(modified, entries[i])), clock, base)
    decreases |entries|
  {
    var ss := seq(|entries|, i requires 0 <= i < |entries| => Sighting(modified, entries[i]));
    if entries != [] {
      var tail := seq(|entries| - 1, i requires 0 <= i < |entries| - 1 => Sighting(modified, entries[1..][i]));
      assert ss == [ss[0]] + tail;
      EntriesMatchReference(entries[1..], modified, clock, base + (if Accepted(entries[0]) then 1 else 0));
      ReferenceAppend([ss[0]], tail, clock, base);
    }
  }

  /**
   The nested loops emit exactly the accepted entries, in pulse order then
   entry order, the j-th of them stamped with its pulse's `modified` or with
   clock reading j.
   */
  lemma {:induction false} PulsesMatchReference(pulses: seq<Pulse>, clock: Clock, base: nat)
    ensures ExtractPulses(pulses, clock, base) == Reference(Sightings(pulses), clock, base)
    decreases |pulses|
  {
    if pulses != [] {
      var p := pulses[0];
      var es := p.indicators.GetOr([]);
      var ss := seq(|es|, i requires 0 <= i < |es| => Sighting(p.modified, es[i]));
      EntriesMatchReference(es, p.modified, clock, base);
      var head := ExtractEntries(es, p.modified, clock, base);
      assert |head| == |Kept(ss)|;
      PulsesMatchReference(pulses[1..], clock, base + |head|);
      ReferenceAppend(ss, Sightings(pulses[1..]), clock, base);
    }
  }

  /** Whole-payload form of the reference agreement. */
  lemma {:induction false} ExtractMatchesReference(payload: Payload, clock: Clock)
    ensures Extract(payload, clock) == Reference(Sightings(payload.results.GetOr([])), clock, 0)
    ensures |Extract(payload, clock)| == |Kept(Sightings(payload.results.GetOr([])))|
  {
    PulsesMatchReference(payload.results.GetOr([]), clock, 0);
  }

  /** Every record drawn from a pulse that has `modified` carries that value. */
  lemma {:induction false} PulseWithModified(p: Pulse, m: string, clock: Clock, base: nat)
    requires p.modified == Some(m)
    ensures forall t :: t in ExtractEntries(p.indicators.GetOr([]), p.modified, clock, base) ==> t.timestamp == m
  {
  }

  /** A pulse without `indicators`, or with an empty list, contributes no records. */
  lemma {:induction false} EmptyPulseContributesNothing(p: Pulse, rest: seq<Pulse>, clock: Clock, base: nat)
    requires p.indicators.None? || p.indicators == Some([])
    ensures ExtractPulses([p] + rest, clock, base) == ExtractPulses(rest, clock, base)
  {
  }
}

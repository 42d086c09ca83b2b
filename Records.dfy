/** The record normaliser run on the parsed CSV rows before they are stored
    (`insertDocuments`): it drops the internal identifiers and replaces the
    `lat`/`lon` text columns by a `location` point. */
module Records {
  import opened Js

  /** A property value of a stored document: a CSV text cell, or the
      `{type, coordinates}` point object the normaliser attaches. */
  datatype Value = Text(s: string) | GeoPoint(geoType: string, coordinates: seq<Number>)

  /** A document: a JavaScript object with string keys (key order is not modelled). */
  type Doc = map<string, Value>

  /** The internal columns that normalisation deletes. */
  const Dropped: set<string> := {"id", "loc_id", "lat", "lon"}

  /** The property `d.key`, or `undefined` when `d` has none. */
  function Field(d: Doc, key: string): Maybe<Value>
  {
    if key in d then Defined(d[key]) else Undefined
  }

  /** `Number.parseFloat(d.key)`. The parsing of a text cell is the caller's
      `parseFloat`; `undefined` and an object both convert to a string that
      does not start a number ("undefined", "[object Object]"), hence NaN. */
  function CoordinateOf(d: Doc, key: string, parseFloat: string -> Number): Number
  {
    match Field(d, key)
    case Defined(Text(s)) => parseFloat(s)
    case _ => NaN
  }

  /** One row as normalisation leaves it: the four internal columns are gone,
      `location` is a Point whose coordinates are the row's own latitude then
      longitude (the reverse of the longitude-first GeoJSON position order),
      and every other property is untouched. */
  function Normalize(d: Doc, parseFloat: string -> Number): (r: Doc)
    ensures r.Keys == d.Keys - Dropped + {"location"}
    ensures r["location"] == GeoPoint("Point", [CoordinateOf(d, "lat", parseFloat), CoordinateOf(d, "lon", parseFloat)])
    ensures forall k :: k in r && k != "location" ==> k in d && r[k] == d[k]
  {
    (d - Dropped)["location" := GeoPoint("Point", [CoordinateOf(d, "lat", parseFloat), CoordinateOf(d, "lon", parseFloat)])]
  }

  /** The whole row set after normalisation, row by row in the same order. */
  function NormalizeAll(rows: seq<Doc>, parseFloat: string -> Number): (r: seq<Doc>)
    ensures |r| == |rows|
  {
    if rows == [] then [] else [Normalize(rows[0], parseFloat)] + NormalizeAll(rows[1..], parseFloat)
  }

  lemma {:induction false} NormalizeAllAt(rows: seq<Doc>, parseFloat: string -> Number, i: nat)
    requires i < |rows|
    ensures NormalizeAll(rows, parseFloat)[i] == Normalize(rows[i], parseFloat)
  {
    if i > 0 {
      NormalizeAllAt(rows[1..], parseFloat, i - 1);
    }
  }

  /** No normalised row keeps an `id`, `loc_id`, `lat` or `lon` property. */
  lemma {:induction false} NormalizedRowsHaveNoInternalColumns(rows: seq<Doc>, parseFloat: string -> Number)
    ensures forall i, k :: 0 <= i < |rows| && k in Dropped ==> Field(NormalizeAll(rows, parseFloat)[i], k) == Undefined
  {
    forall i, k | 0 <= i < |rows| && k in Dropped
      ensures Field(NormalizeAll(rows, parseFloat)[i], k) == Undefined
    {
      NormalizeAllAt(rows, parseFloat, i);
    }
  }

  /** Every normalised row carries a Point built from that same row's own
      `lat` and `lon`, latitude first. */
  lemma {:induction false} NormalizedRowsLocation(rows: seq<Doc>, parseFloat: string -> Number)
    ensures forall i :: 0 <= i < |rows| ==>
      Field(NormalizeAll(rows, parseFloat)[i], "location")
        == Defined(GeoPoint("Point", [CoordinateOf(rows[i], "lat", parseFloat), CoordinateOf(rows[i], "lon", parseFloat)]))
  {
    forall i | 0 <= i < |rows|
      ensures Field(NormalizeAll(rows, parseFloat)[i], "location")
        == Defined(GeoPoint("Point", [CoordinateOf(rows[i], "lat", parseFloat), CoordinateOf(rows[i], "lon", parseFloat)]))
    {
      NormalizeAllAt(rows, parseFloat, i);
    }
  }

  /** Normalisation keeps every other property of every row (`zip_code`,
      `name`, `country_code`, ...) exactly as it was, present or absent. */
  lemma {:induction false} NormalizedRowsKeepOtherFields(rows: seq<Doc>, parseFloat: string -> Number)
    ensures forall i, k :: 0 <= i < |rows| && k !in Dropped && k != "location" ==>
      Field(NormalizeAll(rows, parseFloat)[i], k) == Field(rows[i], k)
  {
    forall i, k | 0 <= i < |rows| && k !in Dropped && k != "location"
      ensures Field(NormalizeAll(rows, parseFloat)[i], k) == Field(rows[i], k)
    {
      NormalizeAllAt(rows, parseFloat, i);
    }
  }

  /** The four deletions and the assignment, done one after another as the
      loop body does them, leave the row as `Normalize` describes it. */
  lemma StepwiseNormalize(d: Doc, parseFloat: string -> Number)
    ensures var kept := d - {"id"} - {"loc_id"};
            var location := GeoPoint("Point", [CoordinateOf(kept, "lat", parseFloat), CoordinateOf(kept, "lon", parseFloat)]);
            (kept - {"lat"} - {"lon"})["location" := location] == Normalize(d, parseFloat)
  {
  }

  /** `insertDocuments`: normalises the parsed rows in place, one row per
      iteration, then hands the whole array to `insertMany`; `batch` is the
      batch handed over. The driver rejects an empty batch, so `inserted` is
      false exactly when there are no rows. */
  method InsertDocuments(rows: array<Doc>, parseFloat: string -> Number) returns (batch: seq<Doc>, inserted: bool)
    modifies rows
    ensures rows[..] == NormalizeAll(old(rows[..]), parseFloat)
    ensures batch == rows[..]
    ensures inserted <==> |batch| > 0
  {
    for i := 0 to rows.Length
      invariant forall k :: 0 <= k < i ==> rows[k] == Normalize(old(rows[k]), parseFloat)
      invariant forall k :: i <= k < rows.Length ==> rows[k] == old(rows[k])
    {
      ghost var original := rows[i];
      rows[i] := rows[i] - {"id"};
      rows[i] := rows[i] - {"loc_id"};
      var location := GeoPoint("Point", [CoordinateOf(rows[i], "lat", parseFloat), CoordinateOf(rows[i], "lon", parseFloat)]);
      rows[i] := rows[i] - {"lat"};
      rows[i] := rows[i] - {"lon"};
      rows[i] := rows[i]["location" := location];
      StepwiseNormalize(original, parseFloat);
    }
    forall k | 0 <= k < rows.Length
      ensures rows[..][k] == NormalizeAll(old(rows[..]), parseFloat)[k]
    {
      NormalizeAllAt(old(rows[..]), parseFloat, k);
    }
    batch := rows[..];
    inserted := |batch| > 0;
  }
}

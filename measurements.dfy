/**
 * The values of the measurement service: one stored measurement, one item of
 * an ingested batch, the statistics snapshot, and the functions that say what
 * the store's operations compute (the sum of the values, the removal of one
 * sensor's records, the snapshot), with the lemmas that relate them.
 */
module Measurements {

  datatype Option<T> = None | Some(value: T)

  /** A point in time. Timestamps are only carried and handed back, never compared. */
  type Timestamp = int

  /** One stored record: the sensor it came from, when it was taken, its value. */
  datatype Measurement = Measurement(name: string, timestamp: Timestamp, value: real)

  /** One item of an ingested batch, as it arrives (already validated). */
  datatype Reading = Reading(sensor: string, timestamp: Timestamp, value: real)

  /** The statistics snapshot: last timestamp (if any), record count, average value. */
  datatype Statistics = Statistics(lastMeasurement: Option<Timestamp>, count: nat, avg: real)

  /** The record that ingesting one reading appends. */
  function FromReading(r: Reading): (m: Measurement)
    ensures m.name == r.sensor && m.timestamp == r.timestamp && m.value == r.value
  {
    Measurement(r.sensor, r.timestamp, r.value)
  }

  /** The records that ingesting a batch appends, one per reading, in batch order. */
  function Records(data: seq<Reading>): (rs: seq<Measurement>)
    ensures |rs| == |data|
    ensures forall i :: 0 <= i < |data| ==>
              rs[i].name == data[i].sensor && rs[i].timestamp == data[i].timestamp
              && rs[i].value == data[i].value
  {
    if data == [] then [] else Records(data[..|data| - 1]) + [FromReading(data[|data| - 1])]
  }

  /** The sum of the values of all records, 0.0 for none. */
  function Total(s: seq<Measurement>): (r: real)
    ensures s == [] ==> r == 0.0
    ensures |s| == 1 ==> r == s[0].value
  {
    if s == [] then 0.0 else Total(s[..|s| - 1]) + s[|s| - 1].value
  }

  /** The records whose sensor is not `name`, in their original order. */
  function Without(s: seq<Measurement>, name: string): (r: seq<Measurement>)
    ensures |r| <= |s|
    ensures forall m :: m in r ==> m in s && m.name != name
  {
    if s == [] then []
    else
      var rest := Without(s[..|s| - 1], name);
      if s[|s| - 1].name != name then rest + [s[|s| - 1]] else rest
  }

  /** The records whose sensor is `name`, in their original order. */
  function Only(s: seq<Measurement>, name: string): (r: seq<Measurement>)
    ensures |r| <= |s|
    ensures forall m :: m in r ==> m in s && m.name == name
  {
    if s == [] then []
    else
      var rest := Only(s[..|s| - 1], name);
      if s[|s| - 1].name == name then rest + [s[|s| - 1]] else rest
  }

  /**
   * The snapshot the statistics query reports: over the whole store, whatever
   * sensor was asked about.
   */
  function Snapshot(s: seq<Measurement>): (r: Statistics)
    ensures r.count == |s|
    ensures r.lastMeasurement.None? <==> s == []
    ensures s == [] ==> r.avg == 0.0
    ensures s != [] ==> r.lastMeasurement == Some(s[|s| - 1].timestamp)
    ensures s != [] ==> r.avg * (|s| as real) == Total(s)
  {
    if |s| > 0 then Statistics(Some(s[|s| - 1].timestamp), |s|, Total(s) / (|s| as real))
    else Statistics(None, 0, 0.0)
  }

  // ---------------------------------------------------------------------------
  // Total

  /** The total of a concatenation is the sum of the totals. */
  lemma {:induction false} TotalAppend(a: seq<Measurement>, b: seq<Measurement>)
    ensures Total(a + b) == Total(a) + Total(b)
    decreases |b|
  {
    if b == [] {
      assert a + b == a;
    } else {
      var b' := b[..|b| - 1];
      assert (a + b)[..|a + b| - 1] == a + b';
      TotalAppend(a, b');
    }
  }

  /** When every value lies between `lo` and `hi`, the total lies between |s| times each. */
  lemma {:induction false} TotalBounds(s: seq<Measurement>, lo: real, hi: real)
    requires forall i :: 0 <= i < |s| ==> lo <= s[i].value <= hi
    ensures (|s| as real) * lo <= Total(s) <= (|s| as real) * hi
    decreases |s|
  {
    if s != [] {
      var s' := s[..|s| - 1];
      assert forall i :: 0 <= i < |s'| ==> s'[i] == s[i];
      TotalBounds(s', lo, hi);
    }
  }

  /** Splitting the store by one sensor splits its total. */
  lemma {:induction false} TotalSplit(s: seq<Measurement>, name: string)
    ensures Total(s) == Total(Without(s, name)) + Total(Only(s, name))
    decreases |s|
  {
    if s != [] {
      var s' := s[..|s| - 1];
      var x := s[|s| - 1];
      TotalSplit(s', name);
      if x.name != name {
        TotalAppend(Without(s', name), [x]);
        assert [x][..0] == [];
      } else {
        TotalAppend(Only(s', name), [x]);
        assert [x][..0] == [];
      }
    }
  }

  // ---------------------------------------------------------------------------
  // Records

  /** Ingesting two batches one after the other appends what ingesting their concatenation does. */
  lemma RecordsAppend(a: seq<Reading>, b: seq<Reading>)
    ensures Records(a + b) == Records(a) + Records(b)
  {
    var l, r := Records(a + b), Records(a) + Records(b);
    assert |l| == |r|;
    forall i | 0 <= i < |l| ensures l[i] == r[i] {
      if i < |a| {
        assert (a + b)[i] == a[i];
      } else {
        assert (a + b)[i] == b[i - |a|];
      }
    }
  }

  // ---------------------------------------------------------------------------
  // Without

  /** Removal distributes over concatenation: it works record by record. */
  lemma {:induction false} WithoutAppend(a: seq<Measurement>, b: seq<Measurement>, name: string)
    ensures Without(a + b, name) == Without(a, name) + Without(b, name)
    decreases |b|
  {
    if b == [] {
      assert a + b == a;
    } else {
      var b' := b[..|b| - 1];
      assert (a + b)[..|a + b| - 1] == a + b';
      WithoutAppend(a, b', name);
    }
  }

  /**
   * Removal keeps exactly the records of other sensors, each as many times as
   * it occurs in the store, and drops every record of the removed sensor.
   */
  lemma {:induction false} WithoutCounts(s: seq<Measurement>, name: string, m: Measurement)
    ensures multiset(Without(s, name))[m] == if m.name == name then 0 else multiset(s)[m]
    decreases |s|
  {
    if s != [] {
      var s' := s[..|s| - 1];
      assert s == s' + [s[|s| - 1]];
      WithoutCounts(s', name, m);
    }
  }

  /** Removal leaves the store unchanged exactly when no record belongs to the sensor. */
  lemma {:induction false} WithoutUnchanged(s: seq<Measurement>, name: string)
    ensures Without(s, name) == s <==> forall i :: 0 <= i < |s| ==> s[i].name != name
    decreases |s|
  {
    if s != [] {
      var s' := s[..|s| - 1];
      WithoutUnchanged(s', name);
      if s[|s| - 1].name == name {
        assert |Without(s, name)| < |s| by { assert Without(s, name) == Without(s', name); }
      } else {
        assert s == s' + [s[|s| - 1]];
        if Without(s, name) == s {
          assert Without(s', name) == Without(s, name)[..|s| - 1];
        }
      }
    }
  }

  /** Removing the same sensor twice is the same as removing it once. */
  lemma WithoutIdempotent(s: seq<Measurement>, name: string)
    ensures Without(Without(s, name), name) == Without(s, name)
  {
    var r := Without(s, name);
    assert forall i :: 0 <= i < |r| ==> r[i] in r;
    WithoutUnchanged(r, name);
  }

  /** Removing two sensors gives the same store in either order. */
  lemma {:induction false} WithoutCommutes(s: seq<Measurement>, a: string, b: string)
    ensures Without(Without(s, a), b) == Without(Without(s, b), a)
    decreases |s|
  {
    if s != [] {
      var s' := s[..|s| - 1];
      var x := s[|s| - 1];
      WithoutCommutes(s', a, b);
      if x.name != a {
        WithoutAppend(Without(s', a), [x], b);
        assert [x][..0] == [];
      }
      if x.name != b {
        WithoutAppend(Without(s', b), [x], a);
        assert [x][..0] == [];
      }
    }
  }

  /** Every record is either kept by the removal or is one of the removed sensor's records. */
  lemma {:induction false} WithoutOnlyLength(s: seq<Measurement>, name: string)
    ensures |Without(s, name)| + |Only(s, name)| == |s|
    decreases |s|
  {
    if s != [] {
      WithoutOnlyLength(s[..|s| - 1], name);
    }
  }

  // ---------------------------------------------------------------------------
  // Snapshot

  /** The average lies between the smallest and the largest value stored. */
  lemma AverageBounds(s: seq<Measurement>, lo: real, hi: real)
    requires s != []
    requires forall i :: 0 <= i < |s| ==> lo <= s[i].value <= hi
    ensures lo <= Snapshot(s).avg <= hi
  {
    TotalBounds(s, lo, hi);
    QuotientBounds(Total(s), |s| as real, lo, hi);
  }

  /** Dividing by a positive count keeps bounds: from n·lo <= x <= n·hi follows lo <= x / n <= hi. */
  lemma QuotientBounds(x: real, n: real, lo: real, hi: real)
    requires n > 0.0
    requires n * lo <= x <= n * hi
    ensures lo <= x / n <= hi
  {
    var q := x / n;
    assert q * n == x;
    assert (q - lo) * n >= 0.0;
    assert (hi - q) * n >= 0.0;
  }

  /**
   * After records are appended (a non-empty ingested batch), the snapshot
   * counts the old records and the new ones, its last timestamp is that of the
   * last new record, and its average is taken over old and new values together.
   */
  lemma SnapshotAfterAppend(s: seq<Measurement>, b: seq<Measurement>)
    requires b != []
    ensures Snapshot(s + b).count == |s| + |b|
    ensures Snapshot(s + b).lastMeasurement == Some(b[|b| - 1].timestamp)
    ensures Snapshot(s + b).avg == (Total(s) + Total(b)) / ((|s| + |b|) as real)
  {
    var t := s + b;
    TotalAppend(s, b);
    assert t[|t| - 1] == b[|b| - 1];
    assert |t| == |s| + |b|;
    assert Snapshot(t).avg == Total(t) / (|t| as real);
  }

  /**
   * After removing a sensor that has records of its own and of others, the
   * snapshot counts only the other sensors' records and averages only their
   * values.
   */
  lemma SnapshotAfterRemove(s: seq<Measurement>, name: string)
    requires |Only(s, name)| < |s|
    ensures Snapshot(Without(s, name)).count == |s| - |Only(s, name)|
    ensures Snapshot(Without(s, name)).avg
            == (Total(s) - Total(Only(s, name))) / ((|s| - |Only(s, name)|) as real)
  {
    WithoutOnlyLength(s, name);
    TotalSplit(s, name);
  }
}

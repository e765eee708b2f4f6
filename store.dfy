/**
 * The process-wide measurement store and the request handlers that act on it:
 * ingesting a batch, the total of all values, removing one sensor's records,
 * and the statistics snapshot.
 */
module Store {
  import opened Measurements

  /** The list of all measurements received, in the order they were appended. */
  class MeasurementStore {
    var measurements: seq<Measurement>

    /** The store starts empty when the service starts. */
    constructor ()
      ensures measurements == []
    {
      measurements := [];
    }

    /**
     * Ingests a validated batch: appends one record per reading, in batch
     * order, each carrying that reading's sensor, timestamp and value.
     */
    method Ingest(data: seq<Reading>)
      modifies this
      ensures measurements == old(measurements) + Records(data)
      ensures |measurements| == |old(measurements)| + |data|
      ensures measurements[..|old(measurements)|] == old(measurements)
      ensures forall i :: 0 <= i < |data| ==>
                var m := measurements[|old(measurements)| + i];
                m.name == data[i].sensor && m.timestamp == data[i].timestamp
                && m.value == data[i].value
    {
      var i := 0;
      while i < |data|
        invariant 0 <= i <= |data|
        invariant measurements == old(measurements) + Records(data[..i])
      {
        assert Records(data[..i + 1]) == Records(data[..i]) + [FromReading(data[i])] by {
          assert data[..i + 1][..i] == data[..i];
        }
        measurements := measurements + [FromReading(data[i])];
        i := i + 1;
      }
      assert data[..|data|] == data;
      assert measurements[..|old(measurements)|] == old(measurements);
    }

    /** The sum of the values of all stored records, 0.0 for an empty store. */
    method TotalValue() returns (total: real)
      ensures total == Total(measurements)
      ensures measurements == [] ==> total == 0.0
    {
      total := 0.0;
      for i := 0 to |measurements|
        invariant total == Total(measurements[..i])
      {
        assert measurements[..i + 1][..i] == measurements[..i];
        total := total + measurements[i].value;
      }
      assert measurements[..|measurements|] == measurements;
    }

    /** Keeps only the records whose sensor is not `name`, in their order. */
    method RemoveSensor(name: string)
      modifies this
      ensures measurements == Without(old(measurements), name)
      ensures forall i :: 0 <= i < |measurements| ==> measurements[i].name != name
    {
      measurements := Without(measurements, name);
      assert forall i :: 0 <= i < |measurements| ==> measurements[i] in measurements;
    }

    /**
     * Answers a statistics query. The reply is the snapshot of the whole
     * store: `sensorId` does not select anything.
     */
    method Stats(sensorId: string) returns (r: Statistics)
      ensures r == Snapshot(measurements)
      ensures measurements == [] ==> r == Statistics(None, 0, 0.0)
      ensures measurements != [] ==>
                r.lastMeasurement == Some(measurements[|measurements| - 1].timestamp)
                && r.count == |measurements|
                && r.avg == Total(measurements) / (|measurements| as real)
    {
      if |measurements| > 0 {
        var holder := measurements[|measurements| - 1];
        var count := |measurements|;
        var total := TotalValue();
        var avg := total / (count as real);
        r := Statistics(Some(holder.timestamp), count, avg);
      } else {
        r := Statistics(None, 0, 0.0);
      }
    }

    /** Handles a delete request: removes every record of sensor `sensorId`. */
    method DeleteSensor(sensorId: string)
      modifies this
      ensures measurements == Without(old(measurements), sensorId)
    {
      RemoveSensor(sensorId);
    }
  }

  /**
   * A client of the store, first part: query an empty store, then ingest two
   * readings of two sensors and query again.
   */
  method IngestThenQuery(t1: Timestamp, t2: Timestamp)
    returns (store: MeasurementStore, empty: Statistics, both: Statistics)
    ensures empty == Statistics(None, 0, 0.0)
    ensures both == Statistics(Some(t2), 2, 3.0)
    ensures store.measurements == [Measurement("A", t1, 2.0), Measurement("B", t2, 4.0)]
  {
    store := new MeasurementStore();
    empty := store.Stats("A");

    var a, b := Measurement("A", t1, 2.0), Measurement("B", t2, 4.0);
    store.Ingest([Reading("A", t1, 2.0), Reading("B", t2, 4.0)]);
    assert store.measurements == [a, b];
    assert Total([a, b]) == 6.0 by { assert [a, b][..1] == [a]; }
    both := store.Stats("A");
  }

  /**
   * A client of the store, second part: delete sensor "A" twice; the second
   * deletion changes nothing.
   */
  method DeleteTwice(store: MeasurementStore, t1: Timestamp, t2: Timestamp)
    requires store.measurements == [Measurement("A", t1, 2.0), Measurement("B", t2, 4.0)]
    modifies store
    ensures store.measurements == [Measurement("B", t2, 4.0)]
  {
    var a, b := Measurement("A", t1, 2.0), Measurement("B", t2, 4.0);
    store.DeleteSensor("A");
    assert store.measurements == [b] by {
      assert [a, b][..1] == [a];
      assert Without([a], "A") == [];
    }
    store.DeleteSensor("A");
    WithoutIdempotent([a, b], "A");
  }

  /** A client of the store, third part: query the store that is left. */
  method QueryRemaining(store: MeasurementStore, t2: Timestamp) returns (r: Statistics)
    requires store.measurements == [Measurement("B", t2, 4.0)]
    ensures r == Statistics(Some(t2), 1, 4.0)
  {
    assert Total(store.measurements) == 4.0;
    r := store.Stats("A");
  }
}

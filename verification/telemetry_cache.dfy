/** The read-through cache in front of the temperature/humidity sensor. The cache holds at
    most one sample, stamped with the clock reading taken right after the sensor answered.
    A request looks at the clock once to decide whether the sample is too old; only then is
    the sensor read and the clock read a second time for the stamp. Both clock readings and
    the sensor's answer are parameters. */
module TelemetryCache {
  import opened Common

  /** Maximum age, in seconds, at which a cached sample is still served. */
  const Ttl: real := 2.0

  /** What the sensor's `read()` returns. */
  datatype Reading = Reading(temperature: real, humidity: real)

  /** A cached sample: the reading plus the time it was stored. */
  datatype Sample = Sample(temperature: real, humidity: real, time: real)

  type Cache = Option<Sample>

  /** The outcome of one cache request: the cache afterwards, the sample handed back
      (`None` when the sensor read raised), and how many times the sensor was read. */
  datatype Fetch = Fetch(cache: Cache, result: Option<Sample>, sensorReads: nat)

  /** A request must read the sensor when nothing is cached or the cached sample is
      strictly more than `Ttl` old at `now`. */
  predicate Expired(cache: Cache, now: real) {
    cache.None? || now - cache.value.time > Ttl
  }

  function Stamp(r: Reading, time: real): Sample {
    Sample(r.temperature, r.humidity, time)
  }

  /** One request to the cache at clock reading `now`. `reading` is what the sensor would
      answer (`None`: it raises) and `readTime` the clock after it answered; both are used
      only when the cached sample has expired. */
  function Get(cache: Cache, now: real, readTime: real, reading: Option<Reading>): (f: Fetch)
    ensures f.sensorReads == (if Expired(cache, now) then 1 else 0)
    ensures !Expired(cache, now) ==> f.cache == cache && f.result == cache
    ensures Expired(cache, now) && reading.Some? ==>
              f.result == Some(Stamp(reading.value, readTime))
    ensures f.result.None? <==> Expired(cache, now) && reading.None?
    ensures f.result.Some? ==> f.cache == f.result
    ensures f.result.None? ==> f.cache == cache
  {
    if Expired(cache, now) then
      if reading.None? then Fetch(cache, None, 1)
      else
        var s := Stamp(reading.value, readTime);
        Fetch(Some(s), Some(s), 1)
    else Fetch(cache, cache, 0)
  }

  /** A sample exactly `Ttl` old is still served, without reading the sensor. */
  lemma ServedAtExactlyTtl(s: Sample, readTime: real, reading: Option<Reading>)
    ensures Get(Some(s), s.time + Ttl, readTime, reading) == Fetch(Some(s), Some(s), 0)
  {
  }

  /** One request: its two clock readings and what the sensor would answer. */
  datatype Call = Call(now: real, readTime: real, reading: Option<Reading>)

  /** The outcome of a series of requests: the final cache, every request's answer in
      order, and the total number of sensor reads. */
  datatype Trace = Trace(cache: Cache, results: seq<Option<Sample>>, sensorReads: nat)

  function Serve(cache: Cache, calls: seq<Call>): (t: Trace)
    ensures |t.results| == |calls|
    decreases |calls|
  {
    if |calls| == 0 then Trace(cache, [], 0)
    else
      var f := Get(cache, calls[0].now, calls[0].readTime, calls[0].reading);
      var rest := Serve(f.cache, calls[1..]);
      Trace(rest.cache, [f.result] + rest.results, f.sensorReads + rest.sensorReads)
  }

  /** While the clock stays within `Ttl` of a cached sample's stamp, any number of requests
      read the sensor zero times, all get that very sample, and the cache does not change. */
  lemma {:induction false} ServeWithinTtl(s: Sample, calls: seq<Call>)
    requires forall i :: 0 <= i < |calls| ==> calls[i].now - s.time <= Ttl
    ensures Serve(Some(s), calls).sensorReads == 0
    ensures Serve(Some(s), calls).cache == Some(s)
    ensures forall i :: 0 <= i < |calls| ==> Serve(Some(s), calls).results[i] == Some(s)
    decreases |calls|
  {
    if |calls| > 0 {
      ServeWithinTtl(s, calls[1..]);
    }
  }

  /** Starting from an expired cache, a burst of requests whose clock readings all lie
      within `Ttl` of the first request's stamp reads the sensor exactly once (when that
      first read succeeds), and every request gets the same sample. */
  lemma BurstReadsOnce(cache: Cache, calls: seq<Call>)
    requires |calls| > 0
    requires Expired(cache, calls[0].now) && calls[0].reading.Some?
    requires forall i :: 1 <= i < |calls| ==> calls[i].now - calls[0].readTime <= Ttl
    ensures Serve(cache, calls).sensorReads == 1
    ensures forall i :: 0 <= i < |calls| ==>
              Serve(cache, calls).results[i] == Some(Stamp(calls[0].reading.value, calls[0].readTime))
  {
    var s := Stamp(calls[0].reading.value, calls[0].readTime);
    var rest := calls[1..];
    assert forall i :: 0 <= i < |rest| ==> rest[i] == calls[i + 1];
    ServeWithinTtl(s, rest);
  }
}

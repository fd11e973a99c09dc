/** The timing aggregator of connect/clients/nats.py: the module global
    `timing_metrics`, keyed by function name, that nats_timing_event_handler
    updates in place with a running total, count and mean elapsed time. */
module NatsTiming {
  import opened NatsCommon

  datatype Metric = Metric(total: real, count: nat, average: real)

  /** The entry a name gets the first time it is seen. */
  const UNSEEN := Metric(0.0, 0, 0.0)

  /** The JSON object of a timing message, after json.loads; a field is None
      when its key is missing. */
  datatype TimingFields = TimingFields(functionName: Option<string>, elapsedTime: Option<real>)

  /** An inbound TIMING message: None when its body is not valid JSON. */
  datatype TimingMessage = TimingMessage(parsed: Option<TimingFields>)

  /** One successfully applied sample: a function name and an elapsed time. */
  datatype Sample = Sample(name: string, elapsed: real)

  function Lookup(m: map<string, Metric>, name: string): Metric
  {
    if name in m then m[name] else UNSEEN
  }

  /** An entry is consistent when it is either the unseen entry or its
      average is its total over its count. */
  predicate Consistent(x: Metric)
  {
    if x.count == 0 then x == UNSEEN else x.average == x.total / x.count as real
  }

  ghost predicate WellFormed(m: map<string, Metric>)
  {
    forall k :: k in m ==> Consistent(m[k])
  }

  /** The first step of the handler: a name not yet present gets the unseen
      entry; the map is otherwise left as it was. */
  function InitEntry(m: map<string, Metric>, name: string): (r: map<string, Metric>)
    ensures r.Keys == m.Keys + {name}
    ensures r[name] == Lookup(m, name)
    ensures name in m ==> r == m
    ensures forall k :: k in m ==> r[k] == m[k]
    ensures WellFormed(m) ==> WellFormed(r)
  {
    if name !in m then m[name := UNSEEN] else m
  }

  /** A full update for one sample: the total grows by the elapsed time, the
      count by one (so it is at least one and the division is defined), and
      the average is the new total over the new count. Other names keep
      their entries. */
  function Record(m: map<string, Metric>, name: string, elapsed: real): (r: map<string, Metric>)
    ensures r.Keys == m.Keys + {name}
    ensures r[name].count == Lookup(m, name).count + 1 && r[name].count >= 1
    ensures r[name].total == Lookup(m, name).total + elapsed
    ensures r[name].average == r[name].total / r[name].count as real
    ensures forall k :: k in m && k != name ==> r[k] == m[k]
    ensures WellFormed(m) ==> WellFormed(r)
  {
    var m1 := InitEntry(m, name);
    var total := m1[name].total + elapsed;
    var count := m1[name].count + 1;
    m1[name := Metric(total, count, total / count as real)]
  }

  /** The samples applied one after another, oldest first. */
  function ApplySamples(m: map<string, Metric>, samples: seq<Sample>): map<string, Metric>
    decreases |samples|
  {
    if samples == [] then m
    else ApplySamples(Record(m, samples[0].name, samples[0].elapsed), samples[1..])
  }

  /** How many of the samples are for `name`. */
  function CountFor(samples: seq<Sample>, name: string): nat
    decreases |samples|
  {
    if samples == [] then 0
    else (if samples[0].name == name then 1 else 0) + CountFor(samples[1..], name)
  }

  /** The sum of the elapsed times of the samples for `name`. */
  function SumFor(samples: seq<Sample>, name: string): real
    decreases |samples|
  {
    if samples == [] then 0.0
    else (if samples[0].name == name then samples[0].elapsed else 0.0) + SumFor(samples[1..], name)
  }

  /** The streaming mean: after any sequence of samples, interleaved with
      samples for other names in any way, the entry for `name` has counted
      exactly its own samples and summed exactly their elapsed times, and its
      average is that sum over that count. A name with no samples keeps its
      entry, or stays absent. */
  lemma {:induction false} ApplySamplesMean(m: map<string, Metric>, samples: seq<Sample>, name: string)
    ensures var r := ApplySamples(m, samples);
            && (CountFor(samples, name) > 0 ==>
                  && name in r
                  && r[name].count == Lookup(m, name).count + CountFor(samples, name)
                  && r[name].total == Lookup(m, name).total + SumFor(samples, name)
                  && r[name].average == r[name].total / r[name].count as real)
            && (CountFor(samples, name) == 0 ==>
                  (name in r <==> name in m) && (name in m ==> r[name] == m[name]))
    decreases |samples|
  {
    if samples != [] {
      var s := samples[0];
      var m1 := Record(m, s.name, s.elapsed);
      var rest := samples[1..];
      ApplySamplesMean(m1, rest, name);
      var r := ApplySamples(m1, rest);
      assert r == ApplySamples(m, samples);
      if s.name == name {
        ApplySamplesKeepsKeys(m1, rest, name);
        assert CountFor(samples, name) == 1 + CountFor(rest, name);
        assert SumFor(samples, name) == s.elapsed + SumFor(rest, name);
        assert Lookup(m1, name).count == Lookup(m, name).count + 1;
        assert Lookup(m1, name).total == Lookup(m, name).total + s.elapsed;
        if CountFor(rest, name) == 0 {
          SumForWithoutSamples(rest, name);
          assert r[name] == m1[name];
        }
      } else {
        assert CountFor(samples, name) == CountFor(rest, name);
        assert SumFor(samples, name) == SumFor(rest, name);
        assert Lookup(m1, name) == Lookup(m, name);
        assert name in m1 <==> name in m;
      }
    }
  }

  /** A name without samples has nothing summed for it. */
  lemma {:induction false} SumForWithoutSamples(samples: seq<Sample>, name: string)
    requires CountFor(samples, name) == 0
    ensures SumFor(samples, name) == 0.0
    decreases |samples|
  {
    if samples != [] {
      SumForWithoutSamples(samples[1..], name);
    }
  }

  /** A name present before the samples is still present after them. */
  lemma {:induction false} ApplySamplesKeepsKeys(m: map<string, Metric>, samples: seq<Sample>, name: string)
    requires name in m
    ensures name in ApplySamples(m, samples)
    decreases |samples|
  {
    if samples != [] {
      ApplySamplesKeepsKeys(Record(m, samples[0].name, samples[0].elapsed), samples[1..], name);
    }
  }

  /** Starting from the empty map, a name with N samples e1..eN ends with
      count N, total e1 + ... + eN and average (e1 + ... + eN) / N. */
  lemma MeanFromEmpty(samples: seq<Sample>, name: string)
    requires CountFor(samples, name) > 0
    ensures var r := ApplySamples(map[], samples);
            && name in r
            && r[name].count == CountFor(samples, name)
            && r[name].total == SumFor(samples, name)
            && r[name].average == SumFor(samples, name) / CountFor(samples, name) as real
  {
    ApplySamplesMean(map[], samples, name);
  }

  /** Three samples 0.10, 0.20 and 0.30 for one name end at total 0.60,
      count 3 and average 0.20. */
  lemma ThreeSamples()
    ensures var r := ApplySamples(map[], [Sample("parseMessage", 0.10), Sample("parseMessage", 0.20),
                                          Sample("parseMessage", 0.30)]);
            "parseMessage" in r && r["parseMessage"] == Metric(0.60, 3, 0.20)
  {
    var samples := [Sample("parseMessage", 0.10), Sample("parseMessage", 0.20), Sample("parseMessage", 0.30)];
    MeanFromEmpty(samples, "parseMessage");
  }

  /** The module global `timing_metrics`. */
  class TimingMetrics {
    var metrics: map<string, Metric>

    constructor ()
      ensures metrics == map[]
    {
      metrics := map[];
    }

    /** nats_timing_event_handler. Invalid JSON or a missing "function" key
        raises before the map is touched; a missing "elapsed_time" raises
        after the unseen entry was inserted, so that entry stays behind; a
        complete message applies one sample. Every path keeps the map well
        formed. */
    method NatsTimingEventHandler(msg: TimingMessage) returns (outcome: Outcome<()>)
      modifies this
      ensures WellFormed(old(metrics)) ==> WellFormed(metrics)
      ensures msg.parsed.None? ==> metrics == old(metrics) && outcome == Raised(JsonDecodeError)
      ensures msg.parsed.Some? && msg.parsed.value.functionName.None? ==>
                metrics == old(metrics) && outcome == Raised(KeyError("function"))
      ensures msg.parsed.Some? && msg.parsed.value.functionName.Some? && msg.parsed.value.elapsedTime.None? ==>
                metrics == InitEntry(old(metrics), msg.parsed.value.functionName.value) &&
                outcome == Raised(KeyError("elapsed_time"))
      ensures msg.parsed.Some? && msg.parsed.value.functionName.Some? && msg.parsed.value.elapsedTime.Some? ==>
                metrics == Record(old(metrics), msg.parsed.value.functionName.value, msg.parsed.value.elapsedTime.value) &&
                outcome == Returned(())
    {
      if msg.parsed.None? {
        return Raised(JsonDecodeError);
      }
      var message := msg.parsed.value;
      if message.functionName.None? {
        return Raised(KeyError("function"));
      }
      var functionName := message.functionName.value;
      if functionName !in metrics {
        metrics := metrics[functionName := UNSEEN];
      }
      if message.elapsedTime.None? {
        return Raised(KeyError("elapsed_time"));
      }
      var metric := metrics[functionName];
      var total := metric.total + message.elapsedTime.value;
      var count := metric.count + 1;
      metrics := metrics[functionName := Metric(total, count, total / count as real)];
      outcome := Returned(());
    }
  }
}

/**
 * The sensor acquisition loop of src/Logger.cpp. The effect of one sample on
 * one port (validation, the consecutive-error counter, the circular window,
 * the median filter and the integrator) is first stated as the function
 * `Sampled` on a port record and its window; the class `BatteryLogger` then
 * keeps the buffers in arrays, updates them in place as the C++ does, and is
 * proved to compute `Sampled`.
 */
module Logger {
  import opened Arduino
  import opened Config
  import opened BatteryTypes
  import opened SignalFilter
  import opened Accumulator

  /** More consecutive invalid readings than this put a port in ERROR. */
  const ERROR_LIMIT: int := 10

  /**
   * validateReading: the voltage within [MIN_VOLTAGE, MAX_VOLTAGE] and the
   * magnitude of the current at most MAX_DISCHARGE_CURRENT.
   */
  function ValidateReading(voltage: real, current: real): (ok: bool)
    ensures ok <==> MIN_VOLTAGE <= voltage <= MAX_VOLTAGE &&
                    -MAX_DISCHARGE_CURRENT <= current <= MAX_DISCHARGE_CURRENT
  {
    if voltage < MIN_VOLTAGE || voltage > MAX_VOLTAGE then false
    else if Abs(current) > MAX_DISCHARGE_CURRENT then false
    else true
  }

  /**
   * The bookkeeping of an invalid reading: one more consecutive error, and
   * ERROR with its message once the count passes ERROR_LIMIT.
   */
  function CountError(p: PortData): (r: PortData)
    ensures r.errorCount == p.errorCount + 1
    ensures r.status == (if p.errorCount + 1 > ERROR_LIMIT then Error else p.status)
    ensures r == p.(errorCount := r.errorCount, status := r.status, errorMsg := r.errorMsg)
  {
    var count := p.errorCount + 1;
    if count > ERROR_LIMIT then p.(errorCount := count, status := Error, errorMsg := InvalidReadings)
    else p.(errorCount := count)
  }

  /** One port as the logger sees it: its record and its filter window. */
  datatype PortState = PortState(data: PortData, window: Channel)

  /**
   * One call of updatePort on an in-range port, given the raw reading and the
   * current time. An ERROR port is skipped. An invalid reading only counts an
   * error, escalating to ERROR past ERROR_LIMIT. A valid reading clears the
   * counter, is pushed into the window, replaces the measurements by the
   * window medians and is integrated.
   */
  ghost function Sampled(s: PortState, voltage: real, current: real, now: Millis): (r: PortState)
    requires s.window.Valid()
    ensures r.window.Valid()
  {
    var p := s.data;
    if p.status == Error then s
    else if !ValidateReading(voltage, current) then PortState(CountError(p), s.window)
    else
      var w := s.window.Push(voltage, current);
      var v := Median(w.volts);
      var c := Median(w.amps);
      PortState(Integrated(p.(errorCount := 0, voltage := v, current := c, power := v * c), now), w)
  }

  /** A port in ERROR is never sampled again by the logger: updatePort is a no-op. */
  lemma ErrorPortIsInert(s: PortState, voltage: real, current: real, now: Millis)
    requires s.window.Valid() && s.data.status == Error
    ensures Sampled(s, voltage, current, now) == s
  {
  }

  /**
   * An invalid reading increments the error counter and changes nothing else,
   * except that the status becomes ERROR (with its message) exactly when the
   * counter passes ERROR_LIMIT.
   */
  lemma InvalidReadingEffects(s: PortState, voltage: real, current: real, now: Millis)
    requires s.window.Valid() && s.data.status != Error
    requires !ValidateReading(voltage, current)
    ensures Sampled(s, voltage, current, now).window == s.window
    ensures Sampled(s, voltage, current, now).data.errorCount == s.data.errorCount + 1
    ensures Sampled(s, voltage, current, now).data.status == Error <==> s.data.errorCount >= ERROR_LIMIT
    ensures s.data.errorCount < ERROR_LIMIT ==>
              Sampled(s, voltage, current, now).data == s.data.(errorCount := s.data.errorCount + 1)
    ensures s.data.errorCount >= ERROR_LIMIT ==>
              Sampled(s, voltage, current, now).data ==
              s.data.(errorCount := s.data.errorCount + 1, status := Error, errorMsg := InvalidReadings)
  {
  }

  /**
   * A valid reading clears the counter, enters the window at the write index,
   * and sets the measurements to the window medians with power their product;
   * the status, configuration and error message are untouched. The totals
   * then grow by the signed charge and energy of the new medians over the
   * step since the last update, clamped at zero, when that step is non-zero
   * and at most 10 s after an earlier sample; otherwise they are kept.
   */
  lemma ValidReadingEffects(s: PortState, voltage: real, current: real, now: Millis)
    requires s.window.Valid() && s.data.status != Error
    requires ValidateReading(voltage, current)
    ensures var r := Sampled(s, voltage, current, now);
      r.window == s.window.Push(voltage, current) &&
      r.data.errorCount == 0 &&
      r.data.voltage == Median(r.window.volts) &&
      r.data.current == Median(r.window.amps) &&
      r.data.power == r.data.voltage * r.data.current &&
      r.data.status == s.data.status && r.data.errorMsg == s.data.errorMsg &&
      r.data.Configuration() == s.data.Configuration() &&
      r.data.active == s.data.active && r.data.startTime == s.data.startTime &&
      r.data.lastUpdate == now
    ensures var r := Sampled(s, voltage, current, now);
            var dt := Elapsed(now, s.data.lastUpdate);
            if s.data.lastUpdate != 0 && 0 < dt <= MAX_STEP_MS then
              r.data.mAh == ClampNonNegative(s.data.mAh + ChargeOf(r.data.current, dt)) &&
              r.data.Wh == ClampNonNegative(s.data.Wh + EnergyOf(r.data.voltage, r.data.current, dt))
            else
              r.data.mAh == s.data.mAh && r.data.Wh == s.data.Wh
  {
  }

  /** Sampling keeps the record invariant and never changes the configuration. */
  lemma SampledPreservesValid(s: PortState, voltage: real, current: real, now: Millis)
    requires s.window.Valid() && s.data.Valid()
    ensures Sampled(s, voltage, current, now).data.Valid()
    ensures Sampled(s, voltage, current, now).data.Configuration() == s.data.Configuration()
    ensures Sampled(s, voltage, current, now).data.active == s.data.active
  {
  }

  /**
   * A value that can sit in a voltage slot: the constructor's zero or a
   * reading that passed validation.
   */
  predicate PlausibleVoltage(v: real) {
    v == 0.0 || MIN_VOLTAGE <= v <= MAX_VOLTAGE
  }

  /** A value that can sit in a current slot. */
  predicate PlausibleCurrent(c: real) {
    -MAX_DISCHARGE_CURRENT <= c <= MAX_DISCHARGE_CURRENT
  }

  /** Every slot of the window, and the stored measurements, are plausible. */
  ghost predicate Plausible(s: PortState) {
    (forall j :: 0 <= j < |s.window.volts| ==> PlausibleVoltage(s.window.volts[j])) &&
    (forall j :: 0 <= j < |s.window.amps| ==> PlausibleCurrent(s.window.amps[j])) &&
    PlausibleVoltage(s.data.voltage) && PlausibleCurrent(s.data.current)
  }

  /**
   * Because the window only ever receives validated readings and the filter
   * returns one of the window's samples, the measurements a port record holds
   * are always zero or within the validation limits.
   */
  lemma SampledPreservesPlausible(s: PortState, voltage: real, current: real, now: Millis)
    requires s.window.Valid() && Plausible(s)
    ensures Plausible(Sampled(s, voltage, current, now))
  {
    if s.data.status != Error && ValidateReading(voltage, current) {
      var w := s.window.Push(voltage, current);
      assert forall j :: 0 <= j < |w.volts| ==> PlausibleVoltage(w.volts[j]) by {
        forall j | 0 <= j < |w.volts| ensures PlausibleVoltage(w.volts[j]) {
          if j != s.window.index {
            assert w.volts[j] == s.window.volts[j];
          }
        }
      }
      assert forall j :: 0 <= j < |w.amps| ==> PlausibleCurrent(w.amps[j]) by {
        forall j | 0 <= j < |w.amps| ensures PlausibleCurrent(w.amps[j]) {
          if j != s.window.index {
            assert w.amps[j] == s.window.amps[j];
          }
        }
      }
      var v := Median(w.volts);
      var c := Median(w.amps);
      var k :| 0 <= k < |w.volts| && w.volts[k] == v;
      var l :| 0 <= l < |w.amps| && w.amps[l] == c;
    }
  }

  /** The state of a port right after boot: a default record and an all-zero window. */
  lemma BootStateIsPlausible()
    ensures Plausible(PortState(NewPortData(), EmptyChannel()))
  {
  }

  /**
   * After boot, the first valid sample of a port filters to a voltage of zero:
   * four of the five slots still hold the constructor's zeros.
   */
  lemma FirstSampleFiltersToZero(voltage: real, current: real)
    requires ValidateReading(voltage, current)
    ensures Median(EmptyChannel().Push(voltage, current).volts) == 0.0
  {
    var w := EmptyChannel().Push(voltage, current).volts;
    assert w == [voltage, 0.0, 0.0, 0.0, 0.0];
    var t := [0.0, 0.0, 0.0, 0.0, voltage];
    assert Sorted(t) by {
      assert voltage >= 0.0;
    }
    assert w == [voltage] + [0.0, 0.0, 0.0, 0.0];
    assert t == [0.0, 0.0, 0.0, 0.0] + [voltage];
    assert multiset(t) == multiset(w);
    MedianIsMiddle(w, t);
  }

  /** A raw reading taken at a given time. */
  datatype Reading = Reading(voltage: real, current: real, at: Millis)

  /** A run of updatePort calls on one port. */
  ghost function SampleRun(s: PortState, run: seq<Reading>): (r: PortState)
    requires s.window.Valid()
    ensures r.window.Valid()
    decreases |run|
  {
    if run == [] then s
    else
      var last := run[|run| - 1];
      Sampled(SampleRun(s, run[..|run| - 1]), last.voltage, last.current, last.at)
  }

  function Voltages(run: seq<Reading>): (vs: seq<real>)
    ensures |vs| == |run| && forall k :: 0 <= k < |run| ==> vs[k] == run[k].voltage
  {
    seq(|run|, k requires 0 <= k < |run| => run[k].voltage)
  }

  function Currents(run: seq<Reading>): (cs: seq<real>)
    ensures |cs| == |run| && forall k :: 0 <= k < |run| ==> cs[k] == run[k].current
  {
    seq(|run|, k requires 0 <= k < |run| => run[k].current)
  }

  /** Within a run of valid readings on a working port, the window sees every sample. */
  lemma {:induction false} ValidRunPushesAll(s: PortState, run: seq<Reading>)
    requires s.window.Valid() && s.data.status != Error
    requires forall k :: 0 <= k < |run| ==> ValidateReading(run[k].voltage, run[k].current)
    ensures SampleRun(s, run).window == PushAll(s.window, Voltages(run), Currents(run))
    ensures SampleRun(s, run).data.status == s.data.status
    ensures run != [] ==> SampleRun(s, run).data.voltage == Median(SampleRun(s, run).window.volts)
    ensures run != [] ==> SampleRun(s, run).data.current == Median(SampleRun(s, run).window.amps)
  {
    if run != [] {
      var n := |run| - 1;
      var prefix := run[..n];
      ValidRunPushesAll(s, prefix);
      assert Voltages(run)[..n] == Voltages(prefix);
      assert Currents(run)[..n] == Currents(prefix);
      ValidReadingEffects(SampleRun(s, prefix), run[n].voltage, run[n].current, run[n].at);
    }
  }

  /**
   * Whatever a working port's window held before, after FILTER_SAMPLES
   * consecutive valid readings its measurements are the medians of exactly
   * those readings.
   */
  lemma FilteredIsMedianOfLastWindow(s: PortState, run: seq<Reading>)
    requires s.window.Valid() && s.data.status != Error && |run| == FILTER_SAMPLES
    requires forall k :: 0 <= k < |run| ==> ValidateReading(run[k].voltage, run[k].current)
    ensures SampleRun(s, run).data.voltage == Median(Voltages(run))
    ensures SampleRun(s, run).data.current == Median(Currents(run))
  {
    ValidRunPushesAll(s, run);
    FullWindowMedian(s.window, Voltages(run), Currents(run));
  }

  /** One row of a per-port buffer, the `float*` handed to medianFilter. */
  function Row(b: array2<real>, i: int): (r: seq<real>)
    reads b
    requires 0 <= i < b.Length0 && b.Length1 == FILTER_SAMPLES
    ensures |r| == FILTER_SAMPLES
    ensures forall j :: 0 <= j < FILTER_SAMPLES ==> r[j] == b[i, j]
  {
    seq(FILTER_SAMPLES, j requires 0 <= j < FILTER_SAMPLES reads b => b[i, j])
  }

  /** The BatteryLogger class: the shared port records, the filter buffers and the sampling clock. */
  class BatteryLogger {
    const ports: array<PortData>
    const voltageBuffer: array2<real>
    const currentBuffer: array2<real>
    const bufferIndex: array<int>
    var lastSampleTime: Millis

    ghost predicate Valid()
      reads this, bufferIndex
    {
      ports.Length == NUM_PORTS &&
      voltageBuffer.Length0 == NUM_PORTS && voltageBuffer.Length1 == FILTER_SAMPLES &&
      currentBuffer.Length0 == NUM_PORTS && currentBuffer.Length1 == FILTER_SAMPLES &&
      voltageBuffer != currentBuffer &&
      bufferIndex.Length == NUM_PORTS &&
      forall i :: 0 <= i < NUM_PORTS ==> 0 <= bufferIndex[i] < FILTER_SAMPLES
    }

    /** The window of port i held in the buffers. */
    ghost function Window(i: int): (ch: Channel)
      reads this, voltageBuffer, currentBuffer, bufferIndex
      requires Valid() && 0 <= i < NUM_PORTS
      ensures ch.Valid()
    {
      Channel(Row(voltageBuffer, i), Row(currentBuffer, i), bufferIndex[i])
    }

    /** Port i as the logger sees it. */
    ghost function StateOf(i: int): (s: PortState)
      reads this, ports, voltageBuffer, currentBuffer, bufferIndex
      requires Valid() && 0 <= i < NUM_PORTS
      ensures s.window.Valid()
    {
      PortState(ports[i], Window(i))
    }

    /** The constructor: every buffer slot and write index zeroed, the clock at 0. */
    constructor (data: array<PortData>)
      requires data.Length == NUM_PORTS
      ensures Valid() && ports == data && lastSampleTime == 0
      ensures fresh(voltageBuffer) && fresh(currentBuffer) && fresh(bufferIndex)
      ensures forall i :: 0 <= i < NUM_PORTS ==> Window(i) == EmptyChannel()
    {
      ports := data;
      lastSampleTime := 0;
      var vb := new real[NUM_PORTS, FILTER_SAMPLES];
      var cb := new real[NUM_PORTS, FILTER_SAMPLES];
      var bi := new int[NUM_PORTS];
      for i := 0 to NUM_PORTS
        invariant forall k :: 0 <= k < i ==> bi[k] == 0
        invariant forall k, j :: 0 <= k < i && 0 <= j < FILTER_SAMPLES ==> vb[k, j] == 0.0 && cb[k, j] == 0.0
      {
        bi[i] := 0;
        for j := 0 to FILTER_SAMPLES
          invariant forall k :: 0 <= k <= i ==> bi[k] == 0
          invariant forall k, l :: 0 <= k < i && 0 <= l < FILTER_SAMPLES ==> vb[k, l] == 0.0 && cb[k, l] == 0.0
          invariant forall l :: 0 <= l < j ==> vb[i, l] == 0.0 && cb[i, l] == 0.0
        {
          vb[i, j] := 0.0;
          cb[i, j] := 0.0;
        }
      }
      voltageBuffer := vb;
      currentBuffer := cb;
      bufferIndex := bi;
      new;
      forall i | 0 <= i < NUM_PORTS ensures Window(i) == EmptyChannel() {
        assert Row(voltageBuffer, i) == EmptyChannel().volts;
        assert Row(currentBuffer, i) == EmptyChannel().amps;
      }
    }

    /**
     * initPort with the sensor's presence as an input: an out-of-range port
     * fails and changes nothing; a missing sensor marks the port ERROR with
     * its message; a present sensor leaves the record as it was.
     */
    method InitPort(port: int, sensorFound: bool) returns (ok: bool)
      requires Valid()
      modifies ports
      ensures ok <==> 0 <= port < NUM_PORTS && sensorFound
      ensures 0 <= port < NUM_PORTS && !sensorFound ==>
                ports[..] == old(ports[..])[port := old(ports[port]).(status := Error, errorMsg := SensorNotFound)]
      ensures !(0 <= port < NUM_PORTS && !sensorFound) ==> ports[..] == old(ports[..])
    {
      if port < 0 || port >= NUM_PORTS {
        return false;
      }
      if !sensorFound {
        ports[port] := ports[port].(status := Error);
        ports[port] := ports[port].(errorMsg := SensorNotFound);
        return false;
      }
      return true;
    }

    /**
     * begin: initialises every port and reports whether all sensors answered;
     * each port whose sensor is missing is marked ERROR.
     */
    method Begin(sensorFound: seq<bool>) returns (allOk: bool)
      requires Valid() && |sensorFound| == NUM_PORTS
      modifies ports
      ensures allOk <==> forall i :: 0 <= i < NUM_PORTS ==> sensorFound[i]
      ensures forall i :: 0 <= i < NUM_PORTS ==>
                ports[i] == if sensorFound[i] then old(ports[i])
                            else old(ports[i]).(status := Error, errorMsg := SensorNotFound)
    {
      allOk := true;
      for i := 0 to NUM_PORTS
        invariant allOk <==> forall k :: 0 <= k < i ==> sensorFound[k]
        invariant forall k :: 0 <= k < i ==>
                    ports[k] == if sensorFound[k] then old(ports[k])
                                else old(ports[k]).(status := Error, errorMsg := SensorNotFound)
        invariant forall k :: i <= k < NUM_PORTS ==> ports[k] == old(ports[k])
      {
        var ok := InitPort(i, sensorFound[i]);
        if !ok {
          allOk := false;
        }
      }
    }

    /** isPortReady: an in-range port that is not in ERROR. */
    function IsPortReady(port: int): (ready: bool)
      reads this, ports, bufferIndex
      requires Valid()
      ensures ready <==> 0 <= port < NUM_PORTS && ports[port].status != Error
    {
      if port < 0 || port >= NUM_PORTS then false
      else ports[port].status != Error
    }

    /** updateAccumulators: both sums advanced by the step, then clamped at zero. */
    method UpdateAccumulators(port: int, voltage: real, current: real, deltaTime: Millis)
      requires Valid() && 0 <= port < NUM_PORTS
      modifies ports
      ensures ports[..] == old(ports[..])[port := Accumulated(old(ports[port]), voltage, current, deltaTime)]
    {
      if deltaTime == 0 {
        return;
      }
      var deltaHours := DeltaHours(deltaTime);
      if deltaHours > MAX_STEP_HOURS {
        return;
      }
      var p := ports[port];
      var mAh := p.mAh + ChargeOf(current, deltaTime);
      var wh := p.Wh + EnergyOf(voltage, current, deltaTime);
      if mAh < 0.0 {
        mAh := 0.0;
      }
      if wh < 0.0 {
        wh := 0.0;
      }
      ports[port] := p.(mAh := mAh, Wh := wh);
    }

    /**
     * Lines 93-100 of updatePort: an invalid reading counts one more error and
     * puts the port in ERROR once the count passes ERROR_LIMIT.
     */
    method RecordInvalidReading(port: int)
      requires Valid() && 0 <= port < NUM_PORTS
      modifies ports
      ensures ports[..] == old(ports[..])[port := CountError(old(ports[port]))]
    {
      ports[port] := ports[port].(errorCount := ports[port].errorCount + 1);
      if ports[port].errorCount > ERROR_LIMIT {
        ports[port] := ports[port].(status := Error);
        ports[port] := ports[port].(errorMsg := InvalidReadings);
      }
    }

    /**
     * Lines 105-108 of updatePort: writes the sample at the port's write index
     * and advances it; no other port's window changes.
     */
    method PushSample(port: int, rawVoltage: real, rawCurrent: real)
      requires Valid() && 0 <= port < NUM_PORTS
      modifies voltageBuffer, currentBuffer, bufferIndex
      ensures Valid()
      ensures Window(port) == old(Window(port)).Push(rawVoltage, rawCurrent)
      ensures forall i :: 0 <= i < NUM_PORTS && i != port ==> Window(i) == old(Window(i))
    {
      ghost var w := Window(port).Push(rawVoltage, rawCurrent);
      var idx := bufferIndex[port];
      voltageBuffer[port, idx] := rawVoltage;
      currentBuffer[port, idx] := rawCurrent;
      bufferIndex[port] := (idx + 1) % FILTER_SAMPLES;
      assert Row(voltageBuffer, port) == w.volts;
      assert Row(currentBuffer, port) == w.amps;
      forall i | 0 <= i < NUM_PORTS && i != port ensures Window(i) == old(Window(i)) {
        assert Row(voltageBuffer, i) == old(Row(voltageBuffer, i));
        assert Row(currentBuffer, i) == old(Row(currentBuffer, i));
      }
    }

    /** Lines 111-112 of updatePort: the medians of the port's two windows. */
    method FilterWindow(port: int) returns (filteredVoltage: real, filteredCurrent: real)
      requires Valid() && 0 <= port < NUM_PORTS
      ensures filteredVoltage == Median(Window(port).volts)
      ensures filteredCurrent == Median(Window(port).amps)
    {
      filteredVoltage := MedianFilter(Row(voltageBuffer, port), FILTER_SAMPLES);
      filteredCurrent := MedianFilter(Row(currentBuffer, port), FILTER_SAMPLES);
    }

    /**
     * Lines 115-137 of updatePort: stores the filtered values and power, then
     * seeds, resynchronises or integrates and moves `lastUpdate` to now.
     */
    method StoreFiltered(port: int, filteredVoltage: real, filteredCurrent: real, now: Millis)
      requires Valid() && 0 <= port < NUM_PORTS
      modifies ports
      ensures ports[..] == old(ports[..])[port := Integrated(old(ports[port]).(
                voltage := filteredVoltage, current := filteredCurrent,
                power := filteredVoltage * filteredCurrent), now)]
    {
      ports[port] := ports[port].(voltage := filteredVoltage);
      ports[port] := ports[port].(current := filteredCurrent);
      ports[port] := ports[port].(power := filteredVoltage * filteredCurrent);

      if ports[port].lastUpdate == 0 {
        ports[port] := ports[port].(lastUpdate := now);
        return;
      }

      var deltaTime := Elapsed(now, ports[port].lastUpdate);
      if deltaTime > MAX_STEP_MS {
        ports[port] := ports[port].(lastUpdate := now);
        return;
      }

      UpdateAccumulators(port, filteredVoltage, filteredCurrent, deltaTime);
      ports[port] := ports[port].(lastUpdate := now);
    }

    /**
     * updatePort with the raw reading as input: an out-of-range port changes
     * nothing, an in-range one becomes `Sampled` of what it was, and no other
     * port or window changes.
     */
    method UpdatePort(port: int, rawVoltage: real, rawCurrent: real, now: Millis)
      requires Valid()
      modifies ports, voltageBuffer, currentBuffer, bufferIndex
      ensures Valid()
      ensures !(0 <= port < NUM_PORTS) ==>
                ports[..] == old(ports[..]) && unchanged(voltageBuffer, currentBuffer, bufferIndex)
      ensures 0 <= port < NUM_PORTS ==>
                StateOf(port) == Sampled(old(StateOf(port)), rawVoltage, rawCurrent, now)
      ensures forall i :: 0 <= i < NUM_PORTS && i != port ==> StateOf(i) == old(StateOf(i))
    {
      if port < 0 || port >= NUM_PORTS {
        return;
      }
      if !IsPortReady(port) {
        return;
      }
      ghost var before := StateOf(port);

      if !ValidateReading(rawVoltage, rawCurrent) {
        RecordInvalidReading(port);
        forall i | 0 <= i < NUM_PORTS && i != port ensures StateOf(i) == old(StateOf(i)) {
          assert ports[i] == old(ports[i]);
        }
        return;
      }

      ports[port] := ports[port].(errorCount := 0);
      assert Window(port) == before.window;
      ghost var others := ports[..];
      assert forall i :: 0 <= i < NUM_PORTS && i != port ==> others[i] == old(ports[i]);
      assert forall i :: 0 <= i < NUM_PORTS ==> Window(i) == old(Window(i));
      PushSample(port, rawVoltage, rawCurrent);
      assert ports[..] == others;
      ghost var w := Window(port);
      assert w == before.window.Push(rawVoltage, rawCurrent);

      var filteredVoltage, filteredCurrent := FilterWindow(port);

      ghost var stored := before.data.(errorCount := 0, voltage := filteredVoltage,
                                       current := filteredCurrent, power := filteredVoltage * filteredCurrent);
      assert ports[..] == others && others[port] == before.data.(errorCount := 0);
      StoreFiltered(port, filteredVoltage, filteredCurrent, now);
      assert ports[..] == others[port := Integrated(stored, now)];
      forall i | 0 <= i < NUM_PORTS && i != port ensures StateOf(i) == old(StateOf(i)) {
        ghost var after := ports[..];
        assert after[i] == others[i];
        assert ports[i] == after[i];
        assert others[i] == old(ports[i]);
        assert Window(i) == old(Window(i));
      }
      assert Sampled(before, rawVoltage, rawCurrent, now) == PortState(Integrated(stored, now), w);
    }

    /**
     * update: rate-limited to one pass per SAMPLE_INTERVAL_MS of the wrapping
     * clock; a pass restarts the interval and samples every active port,
     * leaving inactive ports as they were.
     */
    method Update(now: Millis, raw: seq<Reading>)
      requires Valid() && |raw| == NUM_PORTS
      modifies this, ports, voltageBuffer, currentBuffer, bufferIndex
      ensures Valid()
      ensures Elapsed(now, old(lastSampleTime)) < SAMPLE_INTERVAL_MS ==>
                lastSampleTime == old(lastSampleTime) && ports[..] == old(ports[..]) &&
                unchanged(voltageBuffer, currentBuffer, bufferIndex)
      ensures Elapsed(now, old(lastSampleTime)) >= SAMPLE_INTERVAL_MS ==>
                lastSampleTime == now &&
                forall i :: 0 <= i < NUM_PORTS ==>
                  StateOf(i) == if old(ports[i]).active
                                then Sampled(old(StateOf(i)), raw[i].voltage, raw[i].current, now)
                                else old(StateOf(i))
    {
      var currentTime := now;
      if Elapsed(currentTime, lastSampleTime) < SAMPLE_INTERVAL_MS {
        return;
      }
      lastSampleTime := currentTime;

      for i := 0 to NUM_PORTS
        invariant Valid() && lastSampleTime == now
        invariant forall k :: 0 <= k < i ==>
                    StateOf(k) == if old(ports[k]).active
                                  then Sampled(old(StateOf(k)), raw[k].voltage, raw[k].current, now)
                                  else old(StateOf(k))
        invariant forall k :: i <= k < NUM_PORTS ==> StateOf(k) == old(StateOf(k))
      {
        if ports[i].active {
          UpdatePort(i, raw[i].voltage, raw[i].current, now);
        }
      }
    }
  }
}

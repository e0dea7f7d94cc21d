/**
 * The configuration handlers and the broadcast gate of src/WebUI.cpp. Each
 * HTTP handler checks that its form parameters are present and in range and
 * then writes one port record; the WebSocket status push is rate limited.
 * Parameters arrive already converted by `toInt`/`toFloat`; the HTTP and
 * WebSocket plumbing is not modelled.
 */
module Web {
  import opened Arduino
  import opened Config
  import opened BatteryTypes
  import UI

  /** A form parameter: `hasParam` is false, or it carries the converted value. */
  datatype Param<T> = Absent | Present(value: T)

  const HTTP_OK: int := 200
  const HTTP_BAD_REQUEST: int := 400

  /** The range handleSetCutoff accepts, in volts. */
  const WEB_CUTOFF_MIN: real := 2.0
  const WEB_CUTOFF_MAX: real := 3.5

  predicate ValidPort(port: Param<int>) {
    port.Present? && 0 <= port.value < NUM_PORTS
  }

  predicate ValidEnum(n: Param<int>) {
    n.Present? && 0 <= n.value <= 2
  }

  predicate ValidCutoff(voltage: Param<real>) {
    voltage.Present? && WEB_CUTOFF_MIN <= voltage.value <= WEB_CUTOFF_MAX
  }

  /**
   * What an accepted handleSetMode writes: the mode; safety deactivates the
   * port; any other mode activates it and starts the session clock if it was
   * never started.
   */
  function ModeSet(p: PortData, mode: int, now: Millis): (r: PortData)
    requires 0 <= mode <= 2
    ensures r.mode == ModeOf(mode)
    ensures mode == Safety.Index() ==> !r.active && r.startTime == p.startTime
    ensures mode != Safety.Index() ==>
              r.active && r.startTime == (if p.startTime == 0 then now else p.startTime)
    ensures r == p.(mode := r.mode, active := r.active, startTime := r.startTime)
    ensures p.Valid() ==> r.Valid()
  {
    var q := p.(mode := ModeOf(mode));
    if mode == Safety.Index() then q.(active := false)
    else if q.startTime == 0 then q.(active := true, startTime := now)
    else q.(active := true)
  }

  /**
   * Selecting the same non-safety mode again keeps the session clock running
   * from the first selection, as long as that first selection did not happen
   * at millis() == 0.
   */
  lemma ModeSetKeepsSessionStart(p: PortData, mode: int, now: Millis, later: Millis)
    requires 0 < mode <= 2 && now != 0
    ensures ModeSet(ModeSet(p, mode, now), mode, later) == ModeSet(p, mode, now)
  {
  }

  /**
   * Every cutoff the web handler accepts is one the front panel can show on
   * its adjust screen (20..35 tenths of a volt) and keeps the record valid.
   */
  lemma WebCutoffInPanelRange(p: PortData, v: real)
    requires p.Valid() && WEB_CUTOFF_MIN <= v <= WEB_CUTOFF_MAX
    ensures 20 <= UI.IndexOfCutoff(v) <= UI.CUTOFF_INDEX_MAX
    ensures p.(customCutoff := v, useCustomCutoff := true).Valid()
  {
  }

  class WebUI {
    /** The shared port table. */
    const ports: array<PortData>

    /** Time of the last status broadcast. */
    var lastUpdate: Millis

    /** The instants at which a status broadcast was sent, in order. */
    ghost var broadcasts: seq<Millis>

    constructor (data: array<PortData>)
      ensures ports == data && lastUpdate == 0 && broadcasts == []
    {
      ports := data;
      lastUpdate := 0;
      broadcasts := [];
    }

    /** update: broadcast, and restart the interval, once WS_UPDATE_INTERVAL has elapsed. */
    method Update(now: Millis)
      modifies this`lastUpdate, this`broadcasts
      ensures Elapsed(now, old(lastUpdate)) >= WS_UPDATE_INTERVAL ==>
                lastUpdate == now && broadcasts == old(broadcasts) + [now]
      ensures Elapsed(now, old(lastUpdate)) < WS_UPDATE_INTERVAL ==>
                lastUpdate == old(lastUpdate) && broadcasts == old(broadcasts)
    {
      if Elapsed(now, lastUpdate) >= WS_UPDATE_INTERVAL {
        broadcasts := broadcasts + [now];
        lastUpdate := now;
      }
    }

    /** handleSetMode. */
    method HandleSetMode(port: Param<int>, mode: Param<int>, now: Millis) returns (status: int)
      requires ports.Length == NUM_PORTS
      modifies ports
      ensures status == (if ValidPort(port) && ValidEnum(mode) then HTTP_OK else HTTP_BAD_REQUEST)
      ensures status == HTTP_OK ==>
                ports[..] == old(ports[..])[port.value := ModeSet(old(ports[port.value]), mode.value, now)]
      ensures status != HTTP_OK ==> ports[..] == old(ports[..])
    {
      if port.Present? && mode.Present? {
        var i := port.value;
        var m := mode.value;
        if 0 <= i < NUM_PORTS && 0 <= m <= 2 {
          ports[i] := ports[i].(mode := ModeOf(m));
          if m == Safety.Index() {
            ports[i] := ports[i].(active := false);
          } else {
            ports[i] := ports[i].(active := true);
            if ports[i].startTime == 0 {
              ports[i] := ports[i].(startTime := now);
            }
          }
          return HTTP_OK;
        }
      }
      return HTTP_BAD_REQUEST;
    }

    /** handleSetBattery. */
    method HandleSetBattery(port: Param<int>, kind: Param<int>) returns (status: int)
      requires ports.Length == NUM_PORTS
      modifies ports
      ensures status == (if ValidPort(port) && ValidEnum(kind) then HTTP_OK else HTTP_BAD_REQUEST)
      ensures status == HTTP_OK ==>
                ports[..] == old(ports[..])[port.value :=
                  old(ports[port.value]).(batteryType := BatteryTypeOf(kind.value))]
      ensures status != HTTP_OK ==> ports[..] == old(ports[..])
    {
      if port.Present? && kind.Present? {
        var i := port.value;
        var t := kind.value;
        if 0 <= i < NUM_PORTS && 0 <= t <= 2 {
          ports[i] := ports[i].(batteryType := BatteryTypeOf(t));
          return HTTP_OK;
        }
      }
      return HTTP_BAD_REQUEST;
    }

    /** handleSetCutoff. */
    method HandleSetCutoff(port: Param<int>, voltage: Param<real>) returns (status: int)
      requires ports.Length == NUM_PORTS
      modifies ports
      ensures status == (if ValidPort(port) && ValidCutoff(voltage) then HTTP_OK else HTTP_BAD_REQUEST)
      ensures status == HTTP_OK ==>
                ports[..] == old(ports[..])[port.value :=
                  old(ports[port.value]).(customCutoff := voltage.value, useCustomCutoff := true)]
      ensures status != HTTP_OK ==> ports[..] == old(ports[..])
    {
      if port.Present? && voltage.Present? {
        var i := port.value;
        var v := voltage.value;
        if 0 <= i < NUM_PORTS && v >= WEB_CUTOFF_MIN && v <= WEB_CUTOFF_MAX {
          ports[i] := ports[i].(customCutoff := v);
          ports[i] := ports[i].(useCustomCutoff := true);
          return HTTP_OK;
        }
      }
      return HTTP_BAD_REQUEST;
    }

    /** handleReset. */
    method HandleReset(port: Param<int>, now: Millis) returns (status: int)
      requires ports.Length == NUM_PORTS
      modifies ports
      ensures status == (if ValidPort(port) then HTTP_OK else HTTP_BAD_REQUEST)
      ensures status == HTTP_OK ==>
                ports[..] == old(ports[..])[port.value := old(ports[port.value]).Reset(now)]
      ensures status != HTTP_OK ==> ports[..] == old(ports[..])
    {
      if port.Present? {
        var i := port.value;
        if 0 <= i < NUM_PORTS {
          ports[i] := ports[i].Reset(now);
          return HTTP_OK;
        }
      }
      return HTTP_BAD_REQUEST;
    }
  }

  /** Every handler keeps every record of the table valid. */
  lemma HandlersKeepValid(p: PortData, mode: int, kind: int, v: real, now: Millis)
    requires p.Valid() && 0 <= mode <= 2 && 0 <= kind <= 2 && WEB_CUTOFF_MIN <= v <= WEB_CUTOFF_MAX
    ensures ModeSet(p, mode, now).Valid()
    ensures p.(batteryType := BatteryTypeOf(kind)).Valid()
    ensures p.(customCutoff := v, useCustomCutoff := true).Valid()
    ensures p.Reset(now).Valid()
  {
  }
}

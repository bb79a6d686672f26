/** The device reader object: its settings, its client and the eight measurements it updates in place. */
module Modbus {
  import opened Errors
  import opened Config
  import opened Transport
  import opened Decoding
  import opened Registers
  import opened UpdateCycle
  import CycleProperties

  class Modbus {
    const settings: Settings
    const client: Client
    /** The IEEE-754 reading of 32-bit patterns used for float32 registers. */
    const float32: Float32Reader

    /** Whether the client's connection is open. */
    var connected: bool

    var totalEnergyProducedKwh: real
    var totalEnergyConsumedKwh: real
    var totalEnergyFedInKwh: real
    var currentPowerProducedKw: real
    var currentPowerConsumedFromGridKw: real
    var currentPowerConsumedFromPvKw: real
    var currentPowerConsumedTotalKw: real
    var currentPowerFedInKw: real

    /** The eight measurement fields as one value. */
    function Snapshot(): Reading
      reads this
    {
      Reading(totalEnergyProducedKwh, totalEnergyConsumedKwh, totalEnergyFedInKwh, currentPowerProducedKw,
              currentPowerConsumedFromGridKw, currentPowerConsumedFromPvKw, currentPowerConsumedTotalKw,
              currentPowerFedInKw)
    }

    /** What a cycle of this reader sees when the device answers as `device`. */
    function CycleContext(device: Device): Context {
      ContextOf(settings, float32, device)
    }

    /** The settings, zeroed measurements and a fresh, unconnected client. */
    constructor (settings: Settings, client: Client, float32: Float32Reader)
      ensures this.settings == settings && this.client == client && this.float32 == float32
      ensures Snapshot() == ZERO_READING && !connected
    {
      this.settings := settings;
      this.client := client;
      this.float32 := float32;
      connected := false;
      totalEnergyProducedKwh := 0.0;
      totalEnergyConsumedKwh := 0.0;
      totalEnergyFedInKwh := 0.0;
      currentPowerProducedKw := 0.0;
      currentPowerConsumedFromGridKw := 0.0;
      currentPowerConsumedFromPvKw := 0.0;
      currentPowerConsumedTotalKw := 0.0;
      currentPowerFedInKw := 0.0;
    }

    /** The cleanup on an error: close the connection if it is open, and report the error. */
    method Abort(e: Error) returns (error: Option<Error>)
      modifies this`connected
      ensures !connected && error == Some(e)
    {
      if connected {
        connected := false;
      }
      error := Some(e);
    }

    /**
     * The i-th read of an update: when metric `READ_ORDER[i]` is to be read (its key is
     * configured and, for the feed-in register, the feed-in is still zero), read its register
     * into its field, storing a negative grid draw as feed-in. A failed read changes nothing.
     */
    method ReadStep(i: nat, ctx: Context) returns (error: Option<Error>)
      requires i < |READ_ORDER|
      modifies this
      ensures connected == old(connected)
      ensures Advance(Running(old(Snapshot())), i, ctx)
           == if error.None? then Running(Snapshot()) else Failed(old(Snapshot()), i, error.value)
      ensures error.Some? ==> Snapshot() == old(Snapshot())
    {
      var m := READ_ORDER[i];
      if !(m.Key() in ctx.registerMap && (m == CurrentPowerFedIn ==> currentPowerFedInKw == 0.0)) {
        return None;
      }
      var v := ReadMetric(m, ctx);
      if v.Failure? {
        return Some(v.error);
      }
      match m {
        case TotalEnergyProduced => totalEnergyProducedKwh := v.value;
        case TotalEnergyConsumed => totalEnergyConsumedKwh := v.value;
        case TotalEnergyFedIn => totalEnergyFedInKwh := v.value;
        case CurrentPowerProduced => currentPowerProducedKw := v.value;
        case CurrentPowerConsumedGrid =>
          currentPowerConsumedFromGridKw := v.value;
          // some inverters report power fed to the grid as a negative draw
          if currentPowerConsumedFromGridKw < 0.0 {
            currentPowerFedInKw := -currentPowerConsumedFromGridKw;
            currentPowerConsumedFromGridKw := 0.0;
          }
        case CurrentPowerFedIn => currentPowerFedInKw := v.value;
      }
      return None;
    }

    /**
     * One update: connect if not connected (`connectOk` is what connect() achieves), read
     * the configured registers in the fixed order into the fields, derive self-consumption
     * and total; on an error close the connection and return the error, leaving the fields
     * written so far in this call as they are.
     */
    method Update(device: Device, connectOk: bool) returns (error: Option<Error>)
      modifies this
      ensures var o := Cycle(old(Snapshot()), old(connected), connectOk, CycleContext(device));
        Snapshot() == o.reading && connected == o.connected && error == o.error
      ensures error.None? ==>
        && currentPowerConsumedFromPvKw >= 0.0
        && currentPowerConsumedTotalKw == currentPowerConsumedFromGridKw + currentPowerConsumedFromPvKw
      ensures error.Some? ==> !connected
    {
      ghost var start := Snapshot();
      var ctx := CycleContext(device);
      if !connected {
        connected := connectOk;
      }
      // total energy produced, consumed, fed in; power produced, drawn from the grid, fed in
      error := ReadStep(0, ctx);
      if error.Some? {
        CycleProperties.FailureIsFinal(start, ctx, 1, |READ_ORDER|);
        error := Abort(error.value);
        return;
      }
      assert Steps(start, ctx, 1) == Running(Snapshot());

      error := ReadStep(1, ctx);
      if error.Some? {
        CycleProperties.FailureIsFinal(start, ctx, 2, |READ_ORDER|);
        error := Abort(error.value);
        return;
      }
      assert Steps(start, ctx, 2) == Running(Snapshot());

      error := ReadStep(2, ctx);
      if error.Some? {
        CycleProperties.FailureIsFinal(start, ctx, 3, |READ_ORDER|);
        error := Abort(error.value);
        return;
      }
      assert Steps(start, ctx, 3) == Running(Snapshot());

      error := ReadStep(3, ctx);
      if error.Some? {
        CycleProperties.FailureIsFinal(start, ctx, 4, |READ_ORDER|);
        error := Abort(error.value);
        return;
      }
      assert Steps(start, ctx, 4) == Running(Snapshot());

      error := ReadStep(4, ctx);
      if error.Some? {
        CycleProperties.FailureIsFinal(start, ctx, 5, |READ_ORDER|);
        error := Abort(error.value);
        return;
      }
      assert Steps(start, ctx, 5) == Running(Snapshot());

      error := ReadStep(5, ctx);
      if error.Some? {
        CycleProperties.FailureIsFinal(start, ctx, 6, |READ_ORDER|);
        error := Abort(error.value);
        return;
      }
      assert Steps(start, ctx, 6) == Running(Snapshot());

      currentPowerConsumedFromPvKw := Max(0.0, currentPowerProducedKw - currentPowerFedInKw);
      currentPowerConsumedTotalKw := currentPowerConsumedFromGridKw + currentPowerConsumedFromPvKw;
      error := None;
    }
  }

  /**
   * Building a reader: resolve the configuration, zero the measurements, create the client (an
   * unknown connection type raises before anything is read), then run one update whose error,
   * if any, is raised from the construction. The client is built here before the object that
   * holds it, since it is one of its constants; nothing observable depends on that order.
   */
  method Open(config: ModbusConfig, float32: Float32Reader, device: Device, connectOk: bool)
    returns (r: Result<Modbus>)
    ensures var s := Resolve(config);
      CreateClient(s).Failure? ==> r == Failure(CreateClient(s).error)
    ensures var s := Resolve(config);
      var o := Cycle(ZERO_READING, false, connectOk, ContextOf(s, float32, device));
      CreateClient(s).Success? ==>
        && (r.Failure? <==> o.error.Some?)
        && (r.Failure? ==> Some(r.error) == o.error)
        && (r.Success? ==>
              && fresh(r.value)
              && r.value.settings == s && r.value.client == CreateClient(s).value
              && r.value.Snapshot() == o.reading && r.value.connected == o.connected)
  {
    var s := Resolve(config);
    var client := CreateClient(s);
    if client.Failure? {
      return Failure(client.error);
    }
    var m := new Modbus(s, client.value, float32);
    var error := m.Update(device, connectOk);
    if error.Some? {
      return Failure(error.value);
    }
    return Success(m);
  }
}

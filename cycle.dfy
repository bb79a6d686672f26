/**
 * One update cycle of the reader as a function of the measurements before it: the six
 * configured reads in their fixed order, the grid-sign rule, the feed-in skip rule, the
 * derived self-consumption and total, and what a failing read leaves behind.
 */
module UpdateCycle {
  import opened Errors
  import opened Config
  import opened Decoding
  import opened Registers

  /** The eight measurements the reader publishes, in kWh and kW. */
  datatype Reading = Reading(
    totalEnergyProducedKwh: real,
    totalEnergyConsumedKwh: real,
    totalEnergyFedInKwh: real,
    currentPowerProducedKw: real,
    currentPowerConsumedFromGridKw: real,
    currentPowerConsumedFromPvKw: real,
    currentPowerConsumedTotalKw: real,
    currentPowerFedInKw: real)

  const ZERO_READING := Reading(0.0, 0.0, 0.0, 0.0, 0.0, 0.0, 0.0, 0.0)

  /** The six measured metrics, each configured under its register-map key. */
  datatype Metric =
    | TotalEnergyProduced
    | TotalEnergyConsumed
    | TotalEnergyFedIn
    | CurrentPowerProduced
    | CurrentPowerConsumedGrid
    | CurrentPowerFedIn
  {
    function Key(): string {
      match this
      case TotalEnergyProduced => "total_energy_produced"
      case TotalEnergyConsumed => "total_energy_consumed"
      case TotalEnergyFedIn => "total_energy_fed_in"
      case CurrentPowerProduced => "current_power_produced"
      case CurrentPowerConsumedGrid => "current_power_consumed_grid"
      case CurrentPowerFedIn => "current_power_fed_in"
    }
  }

  /** The order in which a cycle reads the metrics. */
  const READ_ORDER: seq<Metric> := [TotalEnergyProduced, TotalEnergyConsumed, TotalEnergyFedIn,
                                    CurrentPowerProduced, CurrentPowerConsumedGrid, CurrentPowerFedIn]

  /** The field of a reading that a metric is read into. */
  function Measured(r: Reading, m: Metric): real {
    match m
    case TotalEnergyProduced => r.totalEnergyProducedKwh
    case TotalEnergyConsumed => r.totalEnergyConsumedKwh
    case TotalEnergyFedIn => r.totalEnergyFedInKwh
    case CurrentPowerProduced => r.currentPowerProducedKw
    case CurrentPowerConsumedGrid => r.currentPowerConsumedFromGridKw
    case CurrentPowerFedIn => r.currentPowerFedInKw
  }

  /** What one cycle needs from the settings and the device. */
  datatype Context = Context(registerMap: RegisterMap, unitId: int, byteOrder: string, wordOrder: string,
                             float32: Float32Reader, device: Device)

  function ContextOf(s: Settings, float32: Float32Reader, device: Device): Context {
    Context(s.registerMap, s.unitId, s.byteOrder, s.wordOrder, float32, device)
  }

  function ReadMetric(m: Metric, ctx: Context): Result<real>
    requires m.Key() in ctx.registerMap
  {
    ReadRegister(ctx.registerMap[m.Key()], ctx.device, ctx.unitId, ctx.byteOrder, ctx.wordOrder, ctx.float32)
  }

  /**
   * Whether the cycle reads `m` when it reaches it holding `r`: a metric is read when its key
   * is configured, and the separate feed-in register only while the feed-in is exactly zero.
   */
  predicate Attempted(r: Reading, m: Metric, registerMap: RegisterMap) {
    m.Key() in registerMap && (m == CurrentPowerFedIn ==> r.currentPowerFedInKw == 0.0)
  }

  /** Storing the value read for `m`; a negative grid reading is stored as feed-in instead. */
  function Store(r: Reading, m: Metric, v: real): Reading {
    match m
    case TotalEnergyProduced => r.(totalEnergyProducedKwh := v)
    case TotalEnergyConsumed => r.(totalEnergyConsumedKwh := v)
    case TotalEnergyFedIn => r.(totalEnergyFedInKwh := v)
    case CurrentPowerProduced => r.(currentPowerProducedKw := v)
    case CurrentPowerConsumedGrid =>
      if v < 0.0 then r.(currentPowerFedInKw := -v, currentPowerConsumedFromGridKw := 0.0)
      else r.(currentPowerConsumedFromGridKw := v)
    case CurrentPowerFedIn => r.(currentPowerFedInKw := v)
  }

  /** The measurements part-way through a cycle, or where and why it stopped. */
  datatype Progress = Running(reading: Reading) | Failed(reading: Reading, at: nat, error: Error)

  /** The cycle's i-th read; once a read has failed nothing further happens. */
  function Advance(p: Progress, i: nat, ctx: Context): Progress
    requires i < |READ_ORDER|
  {
    match p
    case Failed(_, _, _) => p
    case Running(r) =>
      var m := READ_ORDER[i];
      if !Attempted(r, m, ctx.registerMap) then p
      else
        match ReadMetric(m, ctx)
        case Failure(e) => Failed(r, i, e)
        case Success(v) => Running(Store(r, m, v))
  }

  /** The progress after the first k reads of a cycle that starts from `r`. */
  function Steps(r: Reading, ctx: Context, k: nat): Progress
    requires k <= |READ_ORDER|
  {
    if k == 0 then Running(r) else Advance(Steps(r, ctx, k - 1), k - 1, ctx)
  }

  /** Python's max(a, b): the first argument unless the second is greater. */
  function Max(a: real, b: real): real {
    if b > a then b else a
  }

  /** The derived metrics: self-consumption from PV, then total consumption. */
  function Derive(r: Reading): (d: Reading)
    ensures d.currentPowerConsumedFromPvKw >= 0.0
    ensures d.currentPowerConsumedFromPvKw >= r.currentPowerProducedKw - r.currentPowerFedInKw
    ensures d.currentPowerConsumedFromPvKw == 0.0
         || d.currentPowerConsumedFromPvKw == r.currentPowerProducedKw - r.currentPowerFedInKw
    ensures d.currentPowerConsumedTotalKw == r.currentPowerConsumedFromGridKw + d.currentPowerConsumedFromPvKw
    ensures forall m :: Measured(d, m) == Measured(r, m)
  {
    var pv := Max(0.0, r.currentPowerProducedKw - r.currentPowerFedInKw);
    r.(currentPowerConsumedFromPvKw := pv,
       currentPowerConsumedTotalKw := r.currentPowerConsumedFromGridKw + pv)
  }

  /** The measurements after a cycle, the connection state, and the error it raised if any. */
  datatype Outcome = Outcome(reading: Reading, connected: bool, error: Option<Error>)

  /**
   * The whole cycle: connect when not connected (`connectOk` is whether that succeeds), read,
   * derive; on an error the connection ends closed and the fields read so far stay written.
   */
  function Cycle(r: Reading, connected: bool, connectOk: bool, ctx: Context): Outcome {
    var open := connected || connectOk;
    match Steps(r, ctx, |READ_ORDER|)
    case Running(q) => Outcome(Derive(q), open, None)
    case Failed(q, _, e) => Outcome(q, false, Some(e))
  }
}

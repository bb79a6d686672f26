/** What one update cycle guarantees: the properties of the cycle specification. */
module CycleProperties {
  import opened Errors
  import opened Config
  import opened Text
  import opened Decoding
  import opened Registers
  import opened UpdateCycle

  /** Once a read has failed, every later step keeps the same progress. */
  lemma {:induction false} FailureIsFinal(r: Reading, ctx: Context, j: nat, k: nat)
    requires j <= k <= |READ_ORDER|
    requires Steps(r, ctx, j).Failed?
    ensures Steps(r, ctx, k) == Steps(r, ctx, j)
    decreases k
  {
    if k > j {
      FailureIsFinal(r, ctx, j, k - 1);
    }
  }

  /** A cycle still running after k reads was running at every earlier point. */
  lemma RunningEarlier(r: Reading, ctx: Context, j: nat, k: nat)
    requires j <= k <= |READ_ORDER|
    requires Steps(r, ctx, k).Running?
    ensures Steps(r, ctx, j).Running?
  {
    if Steps(r, ctx, j).Failed? {
      FailureIsFinal(r, ctx, j, k);
    }
  }

  /** A cycle that failed within k reads failed at one read, every read before it having succeeded. */
  lemma {:induction false} FailurePoint(r: Reading, ctx: Context, k: nat)
    requires k <= |READ_ORDER|
    requires Steps(r, ctx, k).Failed?
    ensures var p := Steps(r, ctx, k);
      && p.at < k
      && Steps(r, ctx, p.at).Running?
      && p.reading == Steps(r, ctx, p.at).reading
      && Attempted(p.reading, READ_ORDER[p.at], ctx.registerMap)
      && ReadMetric(READ_ORDER[p.at], ctx) == Failure(p.error)
      && Steps(r, ctx, p.at + 1) == p
  {
    if Steps(r, ctx, k - 1).Failed? {
      FailurePoint(r, ctx, k - 1);
    }
  }

  /** Whether storing metric `m` may change the field of metric `field`. */
  predicate Touches(m: Metric, field: Metric) {
    m == field || (m == CurrentPowerConsumedGrid && field == CurrentPowerFedIn)
  }

  /** Reads j to k-1 leave alone the field of a metric that none of them touches. */
  lemma {:induction false} Untouched(r: Reading, ctx: Context, j: nat, k: nat, field: Metric)
    requires j <= k <= |READ_ORDER|
    requires forall l | j <= l < k :: !Touches(READ_ORDER[l], field)
    ensures Measured(Steps(r, ctx, k).reading, field) == Measured(Steps(r, ctx, j).reading, field)
    decreases k
  {
    if k > j {
      Untouched(r, ctx, j, k - 1, field);
    }
  }

  /** The reads never write the derived fields; only a successful cycle's derivation does. */
  lemma {:induction false} DerivedUntouched(r: Reading, ctx: Context, k: nat)
    requires k <= |READ_ORDER|
    ensures Steps(r, ctx, k).reading.currentPowerConsumedFromPvKw == r.currentPowerConsumedFromPvKw
    ensures Steps(r, ctx, k).reading.currentPowerConsumedTotalKw == r.currentPowerConsumedTotalKw
  {
    if k > 0 {
      DerivedUntouched(r, ctx, k - 1);
    }
  }

  /**
   * After a successful cycle the self-consumption is max(0, produced - fed in), never
   * negative, the total is grid draw plus self-consumption, and the client is connected
   * exactly when it was or connect() succeeded.
   */
  lemma SuccessBalance(r: Reading, connected: bool, connectOk: bool, ctx: Context)
    requires Cycle(r, connected, connectOk, ctx).error.None?
    ensures var q := Cycle(r, connected, connectOk, ctx).reading;
      && q.currentPowerConsumedFromPvKw == Max(0.0, q.currentPowerProducedKw - q.currentPowerFedInKw)
      && q.currentPowerConsumedFromPvKw >= 0.0
      && q.currentPowerConsumedTotalKw == q.currentPowerConsumedFromGridKw + q.currentPowerConsumedFromPvKw
    ensures Cycle(r, connected, connectOk, ctx).connected == (connected || connectOk)
  {
    var q := Steps(r, ctx, |READ_ORDER|).reading;
    assert Measured(Derive(q), CurrentPowerProduced) == Measured(q, CurrentPowerProduced);
    assert Measured(Derive(q), CurrentPowerFedIn) == Measured(q, CurrentPowerFedIn);
  }

  /** connect() is consulted only when the client is not connected. */
  lemma ConnectOnlyWhenDisconnected(r: Reading, connectOk: bool, ctx: Context)
    ensures Cycle(r, true, connectOk, ctx) == Cycle(r, true, !connectOk, ctx)
    ensures Cycle(r, false, connectOk, ctx).connected ==> connectOk
  {
  }

  /**
   * With the grid register configured, a successful cycle holds the register's value as the
   * grid draw when it is not negative, and zero otherwise; unconfigured, the draw is untouched.
   */
  lemma GridRead(r: Reading, connected: bool, connectOk: bool, ctx: Context)
    requires Cycle(r, connected, connectOk, ctx).error.None?
    ensures var q := Cycle(r, connected, connectOk, ctx).reading;
      && (CurrentPowerConsumedGrid.Key() in ctx.registerMap ==>
            var v := ReadMetric(CurrentPowerConsumedGrid, ctx);
            v.Success? && q.currentPowerConsumedFromGridKw == (if v.value < 0.0 then 0.0 else v.value))
      && (CurrentPowerConsumedGrid.Key() !in ctx.registerMap ==>
            q.currentPowerConsumedFromGridKw == r.currentPowerConsumedFromGridKw)
  {
    var q := Steps(r, ctx, |READ_ORDER|).reading;
    RunningEarlier(r, ctx, 4, 6);
    RunningEarlier(r, ctx, 5, 6);
    Untouched(r, ctx, 0, 4, CurrentPowerConsumedGrid);
    Untouched(r, ctx, 5, 6, CurrentPowerConsumedGrid);
    assert Measured(Derive(q), CurrentPowerConsumedGrid) == Measured(q, CurrentPowerConsumedGrid);
  }

  /** With the grid register configured, a successful cycle never leaves a negative grid draw. */
  lemma GridNeverNegative(r: Reading, connected: bool, connectOk: bool, ctx: Context)
    requires Cycle(r, connected, connectOk, ctx).error.None?
    requires CurrentPowerConsumedGrid.Key() in ctx.registerMap
    ensures Cycle(r, connected, connectOk, ctx).reading.currentPowerConsumedFromGridKw >= 0.0
  {
    GridRead(r, connected, connectOk, ctx);
  }

  /**
   * A negative grid reading v is turned into feed-in: the cycle ends with zero grid draw and
   * feed-in -v, and the separate feed-in register is skipped.
   */
  lemma NegativeGridIsFeedIn(r: Reading, connected: bool, connectOk: bool, ctx: Context)
    requires Cycle(r, connected, connectOk, ctx).error.None?
    requires CurrentPowerConsumedGrid.Key() in ctx.registerMap
    ensures var v := ReadMetric(CurrentPowerConsumedGrid, ctx);
      var q := Cycle(r, connected, connectOk, ctx).reading;
      v.Success? && v.value < 0.0 ==>
        && q.currentPowerConsumedFromGridKw == 0.0 && q.currentPowerFedInKw == -v.value && q.currentPowerFedInKw > 0.0
        && !Attempted(Steps(r, ctx, 5).reading, CurrentPowerFedIn, ctx.registerMap)
  {
    var q := Steps(r, ctx, |READ_ORDER|).reading;
    RunningEarlier(r, ctx, 4, 6);
    RunningEarlier(r, ctx, 5, 6);
    assert Measured(Derive(q), CurrentPowerConsumedGrid) == Measured(q, CurrentPowerConsumedGrid);
    assert Measured(Derive(q), CurrentPowerFedIn) == Measured(q, CurrentPowerFedIn);
  }

  /**
   * The feed-in register is read only when it is configured and the feed-in is zero after the
   * grid read; otherwise the feed-in keeps the value it has then.
   */
  lemma FeedInRule(r: Reading, connected: bool, connectOk: bool, ctx: Context)
    requires Cycle(r, connected, connectOk, ctx).error.None?
    ensures var before := Steps(r, ctx, 5).reading;
      var q := Cycle(r, connected, connectOk, ctx).reading;
      && (Attempted(before, CurrentPowerFedIn, ctx.registerMap) ==>
            ReadMetric(CurrentPowerFedIn, ctx).Success?
            && q.currentPowerFedInKw == ReadMetric(CurrentPowerFedIn, ctx).value)
      && (!Attempted(before, CurrentPowerFedIn, ctx.registerMap) ==>
            q.currentPowerFedInKw == before.currentPowerFedInKw)
  {
    var q := Steps(r, ctx, |READ_ORDER|).reading;
    RunningEarlier(r, ctx, 5, 6);
    assert Measured(Derive(q), CurrentPowerFedIn) == Measured(q, CurrentPowerFedIn);
  }

  /**
   * A feed-in left non-zero by an earlier cycle survives a successful cycle whose grid reading
   * is not negative (or absent): the feed-in register is then never read.
   */
  lemma EarlierFeedInKept(r: Reading, connected: bool, connectOk: bool, ctx: Context)
    requires Cycle(r, connected, connectOk, ctx).error.None?
    requires r.currentPowerFedInKw != 0.0
    requires CurrentPowerConsumedGrid.Key() in ctx.registerMap ==>
      ReadMetric(CurrentPowerConsumedGrid, ctx).Success? && ReadMetric(CurrentPowerConsumedGrid, ctx).value >= 0.0
    ensures Cycle(r, connected, connectOk, ctx).reading.currentPowerFedInKw == r.currentPowerFedInKw
  {
    var q := Steps(r, ctx, |READ_ORDER|).reading;
    RunningEarlier(r, ctx, 4, 6);
    RunningEarlier(r, ctx, 5, 6);
    Untouched(r, ctx, 0, 4, CurrentPowerFedIn);
    assert Measured(Derive(q), CurrentPowerFedIn) == Measured(q, CurrentPowerFedIn);
  }

  /**
   * Each of the first four metrics holds its register's value after a successful cycle when
   * its key is configured, and keeps its previous value when it is not.
   */
  lemma DirectRead(r: Reading, connected: bool, connectOk: bool, ctx: Context, i: nat)
    requires i < 4
    requires Cycle(r, connected, connectOk, ctx).error.None?
    ensures var m := READ_ORDER[i];
      var q := Cycle(r, connected, connectOk, ctx).reading;
      && (m.Key() in ctx.registerMap ==> ReadMetric(m, ctx).Success? && Measured(q, m) == ReadMetric(m, ctx).value)
      && (m.Key() !in ctx.registerMap ==> Measured(q, m) == Measured(r, m))
  {
    var m := READ_ORDER[i];
    var q := Steps(r, ctx, |READ_ORDER|).reading;
    RunningEarlier(r, ctx, i, 6);
    RunningEarlier(r, ctx, i + 1, 6);
    Untouched(r, ctx, 0, i, m);
    Untouched(r, ctx, i + 1, 6, m);
    assert Measured(Derive(q), m) == Measured(q, m);
  }

  /**
   * A failed cycle: some read k, attempted in the fixed order, raised the error. The fields
   * of the reads before it keep the values just read, the fields of read k and of every later
   * read and both derived fields are as before the cycle, and the connection ends closed.
   */
  lemma FailedCycle(r: Reading, connected: bool, connectOk: bool, ctx: Context)
    requires Cycle(r, connected, connectOk, ctx).error.Some?
    ensures var p := Steps(r, ctx, |READ_ORDER|);
      var o := Cycle(r, connected, connectOk, ctx);
      && p.Failed? && p.at < |READ_ORDER|
      && Steps(r, ctx, p.at).Running?
      && Attempted(Steps(r, ctx, p.at).reading, READ_ORDER[p.at], ctx.registerMap)
      && ReadMetric(READ_ORDER[p.at], ctx) == Failure(p.error)
      && o.error == Some(p.error)
      && o.reading == Steps(r, ctx, p.at).reading
      && (forall i | p.at <= i < |READ_ORDER| :: Measured(o.reading, READ_ORDER[i]) == Measured(r, READ_ORDER[i]))
      && o.reading.currentPowerConsumedFromPvKw == r.currentPowerConsumedFromPvKw
      && o.reading.currentPowerConsumedTotalKw == r.currentPowerConsumedTotalKw
      && !o.connected
  {
    var p := Steps(r, ctx, |READ_ORDER|);
    FailurePoint(r, ctx, |READ_ORDER|);
    DerivedUntouched(r, ctx, p.at);
    var at := p.at;
    forall i | at <= i < |READ_ORDER|
      ensures Measured(p.reading, READ_ORDER[i]) == Measured(r, READ_ORDER[i])
    {
      if at == 5 {
        RunningEarlier(r, ctx, 4, 5);
        Untouched(r, ctx, 0, 4, CurrentPowerFedIn);
      } else {
        Untouched(r, ctx, 0, at, READ_ORDER[i]);
      }
    }
  }

  /** A device answering produced 10, grid draw 1 and fed-in 3 as plain 16-bit registers. */
  function BalanceContext(float32: Float32Reader): Context {
    Context(map["current_power_produced" := RegisterConfig(3012, 1, "uint16", None),
                "current_power_consumed_grid" := RegisterConfig(3014, 1, "int16", None),
                "current_power_fed_in" := RegisterConfig(3016, 1, "uint16", None)],
            1, "big", "big", float32,
            map[Request(3012, 1, 1) := [10], Request(3014, 1, 1) := [1], Request(3016, 1, 1) := [3]])
  }

  lemma BalanceReads(float32: Float32Reader)
    ensures var ctx := BalanceContext(float32);
      && ReadMetric(CurrentPowerProduced, ctx) == Success(10.0)
      && ReadMetric(CurrentPowerConsumedGrid, ctx) == Success(1.0)
      && ReadMetric(CurrentPowerFedIn, ctx) == Success(3.0)
  {
    assert Lower("big") == "big";
    assert Decode(UInt16, [10], Big, Big, float32) == Success(10.0);
    assert Decode(Int16, [1], Big, Big, float32) == Success(1.0);
    assert Decode(UInt16, [3], Big, Big, float32) == Success(3.0);
  }

  /** Produced 10, fed in 3 and a grid draw of 1, from zeroed measurements, give self-consumption 7 and total 8. */
  lemma BalanceExample(float32: Float32Reader)
    ensures var o := Cycle(ZERO_READING, false, true, BalanceContext(float32));
      && o.error == None && o.connected
      && o.reading.currentPowerConsumedFromGridKw == 1.0 && o.reading.currentPowerFedInKw == 3.0
      && o.reading.currentPowerConsumedFromPvKw == 7.0 && o.reading.currentPowerConsumedTotalKw == 8.0
  {
    var ctx := BalanceContext(float32);
    BalanceReads(float32);
    var r4 := ZERO_READING.(currentPowerProducedKw := 10.0);
    var r5 := r4.(currentPowerConsumedFromGridKw := 1.0);
    assert "total_energy_produced" !in ctx.registerMap && "total_energy_consumed" !in ctx.registerMap;
    assert "total_energy_fed_in" !in ctx.registerMap;
    assert Steps(ZERO_READING, ctx, 1) == Running(ZERO_READING);
    assert Steps(ZERO_READING, ctx, 2) == Running(ZERO_READING);
    assert Steps(ZERO_READING, ctx, 3) == Running(ZERO_READING);
    assert Steps(ZERO_READING, ctx, 4) == Running(r4);
    assert Steps(ZERO_READING, ctx, 5) == Running(r5);
    assert Steps(ZERO_READING, ctx, 6) == Running(r5.(currentPowerFedInKw := 3.0));
  }

  /**
   * A cycle that fails part-way can leave the balance broken: the grid draw 1 is stored, then
   * the feed-in read fails, and the reader is left with grid 1 but self-consumption and total
   * still 0, so total is not grid plus self-consumption.
   */
  lemma PartialFailureExample(float32: Float32Reader)
    ensures var m := map["current_power_consumed_grid" := RegisterConfig(3014, 1, "int16", None),
                         "current_power_fed_in" := RegisterConfig(3016, 1, "uint16", None)];
      var device := map[Request(3014, 1, 1) := [1]];
      var o := Cycle(ZERO_READING, true, true, Context(m, 1, "big", "big", float32, device));
      && o.error == Some(ReadFailed(3016)) && !o.connected
      && o.reading.currentPowerConsumedFromGridKw == 1.0
      && o.reading.currentPowerConsumedFromPvKw == 0.0 && o.reading.currentPowerConsumedTotalKw == 0.0
      && o.reading.currentPowerConsumedTotalKw
         != o.reading.currentPowerConsumedFromGridKw + o.reading.currentPowerConsumedFromPvKw
  {
    var m := map["current_power_consumed_grid" := RegisterConfig(3014, 1, "int16", None),
                 "current_power_fed_in" := RegisterConfig(3016, 1, "uint16", None)];
    var device := map[Request(3014, 1, 1) := [1]];
    var ctx := Context(m, 1, "big", "big", float32, device);
    assert Lower("big") == "big";
    assert ReadMetric(CurrentPowerConsumedGrid, ctx) == Success(1.0) by {
      assert Decode(Int16, [1], Big, Big, float32) == Success(1.0);
    }
    var r5 := ZERO_READING.(currentPowerConsumedFromGridKw := 1.0);
    assert "total_energy_produced" !in m && "total_energy_consumed" !in m && "total_energy_fed_in" !in m;
    assert "current_power_produced" !in m;
    assert Steps(ZERO_READING, ctx, 1) == Running(ZERO_READING);
    assert Steps(ZERO_READING, ctx, 2) == Running(ZERO_READING);
    assert Steps(ZERO_READING, ctx, 3) == Running(ZERO_READING);
    assert Steps(ZERO_READING, ctx, 4) == Running(ZERO_READING);
    assert Steps(ZERO_READING, ctx, 5) == Running(r5);
    assert Steps(ZERO_READING, ctx, 6) == Failed(r5, 5, ReadFailed(3016));
  }

  /**
   * A grid reading of -2.5 becomes 2.5 fed in with zero grid draw, and the feed-in register,
   * which this device would not answer, is skipped.
   */
  lemma NegativeGridExample(float32: Float32Reader)
    ensures var m := map["current_power_consumed_grid" := RegisterConfig(3014, 1, "int16", Some(0.5)),
                         "current_power_fed_in" := RegisterConfig(3016, 1, "uint16", None)];
      var device := map[Request(3014, 1, 1) := [0xFFFB]];
      var o := Cycle(ZERO_READING, true, false, Context(m, 1, "big", "big", float32, device));
      && o.error == None && o.connected
      && o.reading.currentPowerConsumedFromGridKw == 0.0 && o.reading.currentPowerFedInKw == 2.5
  {
    var m := map["current_power_consumed_grid" := RegisterConfig(3014, 1, "int16", Some(0.5)),
                 "current_power_fed_in" := RegisterConfig(3016, 1, "uint16", None)];
    var device := map[Request(3014, 1, 1) := [0xFFFB]];
    var ctx := Context(m, 1, "big", "big", float32, device);
    assert Lower("big") == "big";
    assert ReadMetric(CurrentPowerConsumedGrid, ctx) == Success(-2.5) by {
      assert Decode(Int16, [0xFFFB], Big, Big, float32) == Success(-5.0);
    }
    var r5 := ZERO_READING.(currentPowerFedInKw := 2.5);
    assert "total_energy_produced" !in m && "total_energy_consumed" !in m && "total_energy_fed_in" !in m;
    assert "current_power_produced" !in m;
    assert Steps(ZERO_READING, ctx, 1) == Running(ZERO_READING);
    assert Steps(ZERO_READING, ctx, 2) == Running(ZERO_READING);
    assert Steps(ZERO_READING, ctx, 3) == Running(ZERO_READING);
    assert Steps(ZERO_READING, ctx, 4) == Running(ZERO_READING);
    assert Steps(ZERO_READING, ctx, 5) == Running(r5);
    assert Steps(ZERO_READING, ctx, 6) == Running(r5);
  }

  /** A device that does not answer the first configured register fails the cycle with its address. */
  lemma FailureExample(float32: Float32Reader)
    ensures var m := map["total_energy_produced" := RegisterConfig(3000, 2, "uint32", Some(0.001))];
      var o := Cycle(ZERO_READING, true, true, Context(m, 1, "big", "big", float32, map[]));
      o == Outcome(ZERO_READING, false, Some(ReadFailed(3000)))
  {
    var m := map["total_energy_produced" := RegisterConfig(3000, 2, "uint32", Some(0.001))];
    var ctx := Context(m, 1, "big", "big", float32, map[]);
    assert Steps(ZERO_READING, ctx, 1) == Failed(ZERO_READING, 0, ReadFailed(3000));
    FailureIsFinal(ZERO_READING, ctx, 1, |READ_ORDER|);
  }
}

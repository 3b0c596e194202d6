/**
 * The configuration globals of Firmware/MotorControl/main.cpp and the
 * functions that move them to and from the configuration manager:
 * config_push_all, config_pop_all, config_clear_all, config_apply_all,
 * ODrive::save_configuration and load_configuration.
 */
module Firmware {
  import opened ConfigSchema
  import opened Sequencing
  import opened NvmConfig

  class ODrive {
    /** AXIS_COUNT. */
    const axisCount: nat
    /** hw_configs[i].axis_config for every axis. */
    const hw: seq<HwAxisConfig>
    const manager: ConfigManager
    /** odrv.config_, can_config and the per-axis records, by slot; a slot never assigned holds `{}` (see Get). */
    var ram: map<Slot, Block>
    /** odrv.user_config_loaded_. */
    var userConfigLoaded: bool
    /** Every call made to a collaborator, with its result, oldest first. */
    ghost var calls: seq<Call>

    /** One hardware description per axis, over a manager in a consistent state. */
    ghost predicate Valid()
      reads manager
    {
      |hw| == axisCount && manager.Valid()
    }

    /** The globals at power-up: every record value-initialised. */
    constructor (axisCount: nat, hw: seq<HwAxisConfig>, manager: ConfigManager)
      requires |hw| == axisCount && manager.Valid()
      ensures Valid()
      ensures this.axisCount == axisCount && this.hw == hw && this.manager == manager
      ensures forall s :: Get(ram, s) == Empty
      ensures !userConfigLoaded && calls == []
    {
      this.axisCount, this.hw, this.manager := axisCount, hw, manager;
      ram, userConfigLoaded, calls := map[], false, [];
    }

    /** board_push_config(): board code outside this model, with a boolean result. */
    method BoardPushConfig() returns (ok: bool)
      modifies this`calls
      ensures calls == old(calls) + [Call(Transfer(Push, Board), ok)]
    {
      ok := *;
      calls := calls + [Call(Transfer(Push, Board), ok)];
    }

    /** board_pop_config(): board code outside this model, with a boolean result. */
    method BoardPopConfig() returns (ok: bool)
      modifies this`calls
      ensures calls == old(calls) + [Call(Transfer(Pop, Board), ok)]
    {
      ok := *;
      calls := calls + [Call(Transfer(Pop, Board), ok)];
    }

    /** config_manager.push(&record): hands the record of slot `s` to the manager. */
    method PushSlot(s: Slot) returns (ok: bool)
      requires Valid()
      modifies this`calls, manager`nvm
      ensures Valid()
      ensures calls == old(calls) + [Call(Transfer(Push, s), ok)]
      ensures manager.nvm == if ok && manager.phase == Writing then old(manager.nvm) + [Get(ram, s)] else old(manager.nvm)
    {
      ok := manager.Push(Get(ram, s));
      calls := calls + [Call(Transfer(Push, s), ok)];
    }

    /** config_manager.pop(&record): overwrites the record of slot `s` with the next stored block. */
    method PopSlot(s: Slot) returns (ok: bool)
      requires Valid()
      modifies this`calls, this`ram, manager`cursor
      ensures Valid()
      ensures calls == old(calls) + [Call(Transfer(Pop, s), ok)]
      ensures ok ==> old(manager.cursor) < |manager.nvm| && manager.cursor == old(manager.cursor) + 1
                     && ram == old(ram)[s := manager.nvm[old(manager.cursor)]]
      ensures !ok ==> manager.cursor == old(manager.cursor) && ram == old(ram)
    {
      var r := manager.Pop();
      ok := r.Some?;
      if ok {
        ram := ram[s := r.value];
      }
      calls := calls + [Call(Transfer(Pop, s), ok)];
    }

    /** `push(&a) && push(&b) && ...` over `slots`. */
    method PushChain(slots: seq<Slot>) returns (ok: bool, ghost t: seq<Call>)
      requires Valid()
      modifies this`calls, manager`nvm
      ensures Valid()
      ensures calls == old(calls) + t
      ensures Encoded(Transfers(Push, slots), t, ok, manager.phase == Writing, ram, slots, old(manager.nvm), manager.nvm)
    {
      ghost var ops := Transfers(Push, slots);
      ok, t := true, [];
      var j := 0;
      while j < |slots| && ok
        invariant 0 <= j <= |slots|
        invariant Valid()
        invariant calls == old(calls) + t
        invariant ShortCircuited(ops[..j], t) && ok == AllSucceeded(ops[..j], t)
        invariant manager.phase != Writing ==> manager.nvm == old(manager.nvm)
        invariant manager.phase == Writing && ok ==> manager.nvm == old(manager.nvm) + Serialize(ram, slots[..j])
      {
        ok := PushSlot(slots[j]);
        ChainExtend(ops, j, t, Call(ops[j], ok));
        assert slots[..j + 1] == slots[..j] + [slots[j]];
        SerializeAppend(ram, slots[..j], [slots[j]]);
        t := t + [Call(ops[j], ok)];
        j := j + 1;
      }
      ChainEnd(ops, j, t);
      if ok {
        assert slots[..j] == slots;
      }
    }

    /** `pop(&a) && pop(&b) && ...` over `slots`. */
    method PopChain(slots: seq<Slot>) returns (ok: bool, ghost t: seq<Call>)
      requires Valid()
      modifies this`calls, this`ram, manager`cursor
      ensures Valid()
      ensures calls == old(calls) + t
      ensures Decoded(Transfers(Pop, slots), t, ok, slots, manager.nvm, old(manager.cursor), manager.cursor, old(ram), ram)
    {
      ghost var ops := Transfers(Pop, slots);
      ghost var c0 := manager.cursor;
      ok, t := true, [];
      var j := 0;
      while j < |slots| && ok
        invariant 0 <= j <= |slots|
        invariant Valid()
        invariant calls == old(calls) + t
        invariant ShortCircuited(ops[..j], t) && ok == AllSucceeded(ops[..j], t)
        invariant ok ==> c0 + j <= |manager.nvm| && manager.cursor == c0 + j
                         && ram == Deserialize(old(ram), slots[..j], manager.nvm[c0..c0 + j])
        invariant !ok ==> 1 <= j && c0 + j - 1 <= |manager.nvm| && manager.cursor == c0 + j - 1
                          && ram == Deserialize(old(ram), slots[..j - 1], manager.nvm[c0..c0 + j - 1])
      {
        ghost var before := ram;
        ok := PopSlot(slots[j]);
        ChainExtend(ops, j, t, Call(ops[j], ok));
        if ok {
          ghost var nvm := manager.nvm;
          assert slots[..j + 1] == slots[..j] + [slots[j]];
          assert nvm[c0..c0 + j + 1] == nvm[c0..c0 + j] + [nvm[c0 + j]];
          DeserializeSnoc(old(ram), slots[..j], nvm[c0..c0 + j], slots[j], nvm[c0 + j]);
        }
        t := t + [Call(ops[j], ok)];
        j := j + 1;
      }
      ChainEnd(ops, j, t);
      if ok {
        assert slots[..j] == slots;
      }
    }

    /**
     * config_push_all: the board step, odrv.config_, can_config, then the
     * eight records of each axis, stopping at the first push that fails.
     */
    method PushAll() returns (success: bool, ghost t: seq<Call>)
      requires Valid()
      modifies this`calls, manager`nvm
      ensures Valid()
      ensures calls == old(calls) + t
      ensures ShortCircuited(Transfers(Push, Schema(axisCount)), t)
      ensures success == AllSucceeded(Transfers(Push, Schema(axisCount)), t)
      ensures manager.phase != Writing ==> manager.nvm == old(manager.nvm)
      ensures manager.phase == Writing && success ==> manager.nvm == old(manager.nvm) + Serialize(ram, DataSchema(axisCount))
    {
      SchemaBase();
      success := BoardPushConfig();
      t := [Call(Transfer(Push, Board), success)];
      if success {
        ghost var t1;
        success, t1 := PushChain([ODriveConfig, CanConfig]);
        WalkStart(Push, t1);
        AppendTwice(old(calls), t, t1);
        t := t + t1;
      } else {
        WalkBoardFailed(Push);
      }
      assert PushWalked(0, t, success, manager.phase == Writing, ram, old(manager.nvm), manager.nvm);
      var i: nat := 0;
      while i < axisCount && success
        invariant i <= axisCount
        invariant Valid()
        invariant calls == old(calls) + t
        invariant PushWalked(i, t, success, manager.phase == Writing, ram, old(manager.nvm), manager.nvm)
      {
        ghost var c1, mid := calls, manager.nvm;
        ghost var t2;
        success, t2 := PushChain(AxisSlots(i));
        PushWalkStep(i, ram, t, t2, success, old(calls), c1, calls,
                     manager.phase == Writing, old(manager.nvm), mid, manager.nvm);
        t := t + t2;
        i := i + 1;
      }
      if !success {
        WalkStopped(Push, i, axisCount, t);
      }
    }

    /**
     * config_pop_all: the same walk as config_push_all, each stored block
     * read back into the slot at the same position.
     */
    method PopAll() returns (success: bool, ghost t: seq<Call>)
      requires Valid()
      modifies this`calls, this`ram, manager`cursor
      ensures Valid()
      ensures calls == old(calls) + t
      ensures ShortCircuited(Transfers(Pop, Schema(axisCount)), t)
      ensures success == AllSucceeded(Transfers(Pop, Schema(axisCount)), t)
      ensures success ==> old(manager.cursor) + |DataSchema(axisCount)| <= |manager.nvm|
                          && manager.cursor == old(manager.cursor) + |DataSchema(axisCount)|
                          && ram == Deserialize(old(ram), DataSchema(axisCount), manager.nvm[old(manager.cursor)..manager.cursor])
      ensures ReadPrefix(DataSchema(axisCount), manager.nvm, old(manager.cursor), manager.cursor, old(ram), ram)
    {
      SchemaBase();
      success := BoardPopConfig();
      t := [Call(Transfer(Pop, Board), success)];
      if success {
        ghost var t1;
        success, t1 := PopChain([ODriveConfig, CanConfig]);
        WalkStart(Pop, t1);
        AppendTwice(old(calls), t, t1);
        t := t + t1;
      } else {
        WalkBoardFailed(Pop);
      }
      assert PopWalked(0, t, success, manager.nvm, old(manager.cursor), manager.cursor, old(ram), ram);
      var i: nat := 0;
      while i < axisCount && success
        invariant i <= axisCount
        invariant Valid()
        invariant calls == old(calls) + t
        invariant PopWalked(i, t, success, manager.nvm, old(manager.cursor), manager.cursor, old(ram), ram)
      {
        ghost var c1, cur1, ram1 := calls, manager.cursor, ram;
        ghost var t2;
        success, t2 := PopChain(AxisSlots(i));
        PopWalkStep(i, t, t2, success, old(calls), c1, calls, manager.nvm,
                    old(manager.cursor), cur1, manager.cursor, old(ram), ram1, ram);
        t := t + t2;
        i := i + 1;
      }
      if !success {
        WalkStopped(Pop, i, axisCount, t);
        SchemaPrefix(i, axisCount);
        ReadPrefixWithin(DataSchema(i), DataSchema(axisCount), manager.nvm, old(manager.cursor), manager.cursor, old(ram), ram);
      }
    }

    /**
     * config_clear_all: every record back to `{}`, then the per-axis
     * exceptions: the axis record's step/dir pins from the hardware table and
     * its CAN id from the axis index, and the controller's load_encoder_axis.
     * The board step has no counterpart here.
     */
    method ClearAll()
      requires Valid()
      modifies this`ram
      ensures forall s :: IsDataSlot(s, axisCount) ==> Get(ram, s) == DefaultBlock(s, hw)
    {
      ram := ram[ODriveConfig := Empty];
      ram := ram[CanConfig := Empty];
      var i := 0;
      while i < axisCount
        invariant 0 <= i <= axisCount
        invariant forall s :: IsDataSlot(s, i) ==> Get(ram, s) == DefaultBlock(s, hw)
      {
        ClearAxis(i);
        i := i + 1;
      }
    }

    /** One iteration of the loop in config_clear_all: the eight records of axis i. */
    method ClearAxis(i: nat)
      requires i < axisCount == |hw|
      modifies this`ram
      ensures forall b: AxisBlock :: Get(ram, PerAxis(i, b)) == DefaultBlock(PerAxis(i, b), hw)
      ensures forall s :: !OfAxis(s, i) ==> Get(ram, s) == Get(old(ram), s)
    {
      var r := ram;
      r := r[PerAxis(i, Encoder) := Empty];
      r := r[PerAxis(i, Sensorless) := Empty];
      r := r[PerAxis(i, Controller) := Empty];
      r := r[PerAxis(i, Trap) := Empty];
      r := r[PerAxis(i, Motor) := Empty];
      r := r[PerAxis(i, AxisConfig) := Empty];
      // the default step/dir pins differ per axis, so they are loaded explicitly
      r := r[PerAxis(i, AxisConfig) := LoadDefaultStepDir(hw[i], r[PerAxis(i, AxisConfig)])];
      r := r[PerAxis(i, AxisConfig) := LoadDefaultCanId(i, r[PerAxis(i, AxisConfig)])];
      r := r[PerAxis(i, MinEndstop) := Empty];
      r := r[PerAxis(i, MaxEndstop) := Empty];
      r := r[PerAxis(i, Controller) := Block(r[PerAxis(i, Controller)].values[LoadEncoderAxis := i])];
      ram := r;
      forall b: AxisBlock ensures Get(ram, PerAxis(i, b)) == DefaultBlock(PerAxis(i, b), hw) {
        match b
        case Controller =>
        case AxisConfig =>
        case _ =>
      }
    }

    /** encoders[i].apply_config(motors[i].config_.motor_type): encoder code outside this model. */
    method ApplyEncoderConfig(i: nat) returns (ok: bool)
      modifies this`calls
      ensures calls == old(calls) + [Call(ApplyEncoder(i), ok)]
    {
      ok := *;
      calls := calls + [Call(ApplyEncoder(i), ok)];
    }

    /** motors[i].apply_config(): motor code outside this model. */
    method ApplyMotorConfig(i: nat) returns (ok: bool)
      modifies this`calls
      ensures calls == old(calls) + [Call(ApplyMotor(i), ok)]
    {
      ok := *;
      calls := calls + [Call(ApplyMotor(i), ok)];
    }

    /** One iteration of config_apply_all: `encoders[i].apply_config(...) && motors[i].apply_config()`. */
    method ApplyAxis(i: nat) returns (ok: bool, ghost step: seq<Call>)
      modifies this`calls
      ensures calls == old(calls) + step
      ensures ShortCircuited([ApplyEncoder(i), ApplyMotor(i)], step)
      ensures ok == AllSucceeded([ApplyEncoder(i), ApplyMotor(i)], step)
    {
      ok := ApplyEncoderConfig(i);
      step := [Call(ApplyEncoder(i), ok)];
      SingleStage(ApplyEncoder(i), ok);
      assert [ApplyEncoder(i)] + [ApplyMotor(i)] == [ApplyEncoder(i), ApplyMotor(i)];
      if ok {
        ok := ApplyMotorConfig(i);
        SingleStage(ApplyMotor(i), ok);
        ChainThen([ApplyEncoder(i)], [ApplyMotor(i)], step, [Call(ApplyMotor(i), ok)]);
        step := step + [Call(ApplyMotor(i), ok)];
      } else {
        ChainStopped([ApplyEncoder(i)], [ApplyEncoder(i), ApplyMotor(i)], step);
      }
    }

    /**
     * config_apply_all: for each axis the encoder and then the motor,
     * stopping after the first axis whose apply fails.
     */
    method ApplyAll() returns (success: bool, ghost t: seq<Call>)
      modifies this`calls
      ensures calls == old(calls) + t
      ensures ShortCircuited(ApplyOps(axisCount), t)
      ensures success == AllSucceeded(ApplyOps(axisCount), t)
    {
      success, t := true, [];
      var i: nat := 0;
      while i < axisCount && success
        invariant i <= axisCount
        invariant calls == old(calls) + t
        invariant ShortCircuited(ApplyOps(i), t) && success == AllSucceeded(ApplyOps(i), t)
      {
        ghost var c1 := calls;
        ghost var step;
        success, step := ApplyAxis(i);
        ApplyWalkStep(i, t, step, success, old(calls), c1, calls);
        t := t + step;
        i := i + 1;
      }
      if !success {
        ApplyOpsPrefix(i, axisCount);
        ChainStopped(ApplyOps(i), ApplyOps(axisCount), t);
      }
    }

    /**
     * The sizing pass of ODrive::save_configuration,
     * `config_manager.prepare_store() && config_push_all()`: the manager
     * only measures, so storage is untouched.
     */
    method SizingPass() returns (ok: bool, ghost t: seq<Call>)
      requires Valid()
      modifies this`calls, manager`phase, manager`nvm
      ensures Valid()
      ensures calls == old(calls) + t
      ensures ShortCircuited(Concat(SizingSteps(axisCount)), t) && ok == AllSucceeded(Concat(SizingSteps(axisCount)), t)
      ensures manager.nvm == old(manager.nvm)
    {
      ghost var steps := SizingSteps(axisCount);
      SizingShape(axisCount);
      StagesStart(steps);
      ok := manager.PrepareStore();
      SingleStage(PrepareStore, ok);
      StageThen(steps, 0, [], [Call(PrepareStore, ok)], ok);
      calls, t := calls + [Call(PrepareStore, ok)], [Call(PrepareStore, ok)];
      ghost var k := 1;
      if ok {
        ghost var t1;
        ok, t1 := PushAll();
        StageThen(steps, 1, t, t1, ok);
        AppendTwice(old(calls), t, t1);
        t, k := t + t1, 2;
      }
      StagesEnd(steps, k, t, ok);
    }

    /**
     * The writing pass of ODrive::save_configuration,
     * `config_manager.start_store() && config_push_all() &&
     * config_manager.finish_store()`: once it succeeds, storage holds the
     * record of every slot, in walk order, followed by the completion marker.
     */
    method WritingPass() returns (ok: bool, ghost t: seq<Call>)
      requires Valid()
      modifies this`calls, manager
      ensures Valid()
      ensures calls == old(calls) + t
      ensures ShortCircuited(Concat(WritingSteps(axisCount)), t) && ok == AllSucceeded(Concat(WritingSteps(axisCount)), t)
      ensures ok ==> manager.committed && manager.nvm == Serialize(ram, DataSchema(axisCount))
      ensures !ok ==> !manager.committed
    {
      ghost var steps := WritingSteps(axisCount);
      ghost var image := Serialize(ram, DataSchema(axisCount));
      WritingShape(axisCount);
      StagesStart(steps);
      ok := manager.StartStore();
      SingleStage(StartStore, ok);
      StageThen(steps, 0, [], [Call(StartStore, ok)], ok);
      calls, t := calls + [Call(StartStore, ok)], [Call(StartStore, ok)];
      ghost var k := 1;
      if ok {
        ghost var t1;
        ok, t1 := PushAll();
        StageThen(steps, 1, t, t1, ok);
        AppendTwice(old(calls), t, t1);
        t, k := t + t1, 2;
        assert [] + image == image;
      }
      assert ok ==> manager.phase == Writing && manager.nvm == image;
      if ok {
        ok := manager.FinishStore();
        SingleStage(FinishStore, ok);
        StageThen(steps, 2, t, [Call(FinishStore, ok)], ok);
        AppendTwice(old(calls), t, [Call(FinishStore, ok)]);
        calls, t, k := calls + [Call(FinishStore, ok)], t + [Call(FinishStore, ok)], 3;
      }
      StagesEnd(steps, k, t, ok);
    }

    /**
     * ODrive::save_configuration: the sizing pass, then the writing pass,
     * stopping at the first failure; the flag is set only when both succeed,
     * and storage is untouched unless start_store was reached.
     */
    method SaveConfiguration() returns (ghost t: seq<Call>)
      requires Valid()
      modifies this`calls, this`userConfigLoaded, manager
      ensures Valid()
      ensures calls == old(calls) + t
      ensures ShortCircuited(SaveOps(axisCount), t)
      ensures userConfigLoaded == (old(userConfigLoaded) || AllSucceeded(SaveOps(axisCount), t))
      ensures AllSucceeded(SaveOps(axisCount), t) ==>
                manager.committed && manager.nvm == Serialize(ram, DataSchema(axisCount))
      ensures (forall k :: 0 <= k < |t| ==> t[k].op != StartStore) ==>
                manager.nvm == old(manager.nvm) && manager.committed == old(manager.committed)
      ensures (exists k :: 0 <= k < |t| && t[k].op == StartStore) && !AllSucceeded(SaveOps(axisCount), t) ==>
                !manager.committed
    {
      ghost var sizing, writing := Concat(SizingSteps(axisCount)), Concat(WritingSteps(axisCount));
      var ok;
      ok, t := SizingPass();
      if ok {
        ghost var t2;
        ok, t2 := WritingPass();
        ChainThen(sizing, writing, t, t2);
        WritingShape(axisCount);
        assert t2[0].op == StartStore;
        AppendTwice(old(calls), t, t2);
        assert (t + t2)[|t|] == t2[0];
        t := t + t2;
      } else {
        ChainStopped(sizing, SaveOps(axisCount), t);
        SizingShape(axisCount);
        ChainByPosition(sizing, t);
        forall k | 0 <= k < |t| ensures t[k].op != StartStore {
          assert t[k].op == sizing[k];
          if k > 0 {
            assert sizing[k] == Transfers(Push, Schema(axisCount))[k - 1];
          }
        }
      }
      if ok {
        userConfigLoaded := true;
      }
      // printf("saving configuration failed") and osDelay(5) are not modelled
    }

    /**
     * The reading part of load_configuration,
     * `config_manager.start_load() && config_pop_all() &&
     * config_manager.finish_load()`: once it succeeds, every slot holds the
     * block stored at its position in the walk; whatever happens, only the
     * slots at the start of the walk that a pop reached were written.
     */
    method ReadingPass() returns (ok: bool, ghost t: seq<Call>)
      requires Valid()
      modifies this`calls, this`ram, manager`phase, manager`cursor
      ensures Valid()
      ensures calls == old(calls) + t
      ensures ShortCircuited(Concat(ReadingSteps(axisCount)), t) && ok == AllSucceeded(Concat(ReadingSteps(axisCount)), t)
      ensures !old(manager.committed) ==> !ok
      ensures ok ==> |DataSchema(axisCount)| <= |manager.nvm|
                     && ram == Deserialize(old(ram), DataSchema(axisCount), manager.nvm[..|DataSchema(axisCount)|])
      ensures t != [] && ReadPrefix(DataSchema(axisCount), manager.nvm, if t[0].ok then 0 else old(manager.cursor), manager.cursor, old(ram), ram)
    {
      ghost var steps := ReadingSteps(axisCount);
      ReadingShape(axisCount);
      StagesStart(steps);
      ok := manager.StartLoad();
      SingleStage(StartLoad, ok);
      StageThen(steps, 0, [], [Call(StartLoad, ok)], ok);
      calls, t := calls + [Call(StartLoad, ok)], [Call(StartLoad, ok)];
      ghost var k := 1;
      if ok {
        ghost var t1;
        ok, t1 := PopAll();
        StageThen(steps, 1, t, t1, ok);
        AppendTwice(old(calls), t, t1);
        t, k := t + t1, 2;
        if ok {
          assert manager.nvm[0..manager.cursor] == manager.nvm[..|DataSchema(axisCount)|];
        }
      }
      if ok {
        ok := manager.FinishLoad();
        SingleStage(FinishLoad, ok);
        StageThen(steps, 2, t, [Call(FinishLoad, ok)], ok);
        AppendTwice(old(calls), t, [Call(FinishLoad, ok)]);
        calls, t, k := calls + [Call(FinishLoad, ok)], t + [Call(FinishLoad, ok)], 3;
      }
      StagesEnd(steps, k, t, ok);
    }

    /**
     * load_configuration: the reading part, then config_apply_all; on
     * success the flag is set and 0 returned, otherwise every record is reset
     * to its default, the defaults are applied and -1 returned.
     */
    method LoadConfiguration() returns (r: int, ghost chain: seq<Call>, ghost fallback: seq<Call>)
      requires Valid()
      modifies this`calls, this`ram, this`userConfigLoaded, manager`phase, manager`cursor
      ensures Valid()
      ensures calls == old(calls) + chain + fallback
      ensures ShortCircuited(LoadOps(axisCount), chain)
      ensures r == 0 || r == -1
      ensures r == 0 <==> AllSucceeded(LoadOps(axisCount), chain)
      ensures !old(manager.committed) ==> r == -1
      ensures r == 0 ==> fallback == [] && userConfigLoaded && |DataSchema(axisCount)| <= |manager.nvm|
                         && ram == Deserialize(old(ram), DataSchema(axisCount), manager.nvm[..|DataSchema(axisCount)|])
      ensures r == -1 ==> ShortCircuited(ApplyOps(axisCount), fallback) && userConfigLoaded == old(userConfigLoaded)
                          && forall s :: IsDataSlot(s, axisCount) ==> Get(ram, s) == DefaultBlock(s, hw)
    {
      ghost var reading := Concat(ReadingSteps(axisCount));
      var ok;
      ok, chain := ReadingPass();
      if ok {
        ghost var t2;
        ok, t2 := ApplyAll();
        ChainThen(reading, ApplyOps(axisCount), chain, t2);
        AppendTwice(old(calls), chain, t2);
        chain := chain + t2;
      } else {
        ChainStopped(reading, LoadOps(axisCount), chain);
      }
      fallback := [];
      if ok {
        userConfigLoaded := true;
      } else {
        ClearAll();
        var ignored;
        ignored, fallback := ApplyAll();
      }
      r := if ok then 0 else -1;
    }
  }

  /**
   * The state of config_push_all after the first i axes: the calls so far
   * follow the walk and, while storing, the records of the data slots
   * visited so far have been appended to nvm0.
   */
  ghost predicate PushWalked(i: nat, t: seq<Call>, ok: bool, writing: bool, ram: map<Slot, Block>,
                             nvm0: seq<Block>, nvm: seq<Block>)
  {
    Encoded(Transfers(Push, Schema(i)), t, ok, writing, ram, DataSchema(i), nvm0, nvm)
  }

  /**
   * The calls t of a push walk over ops follow it and ok records whether
   * all of them succeeded; storage is untouched unless the manager is
   * writing, and then, when all succeeded, the records of slots were
   * appended to nvm0 in order.
   */
  ghost predicate Encoded(ops: seq<Op>, t: seq<Call>, ok: bool, writing: bool, ram: map<Slot, Block>,
                          slots: seq<Slot>, nvm0: seq<Block>, nvm: seq<Block>)
  {
    && ShortCircuited(ops, t)
    && ok == AllSucceeded(ops, t)
    && (!writing ==> nvm == nvm0)
    && (writing && ok ==> nvm == nvm0 + Serialize(ram, slots))
  }

  lemma PushWalkStep(i: nat, ram: map<Slot, Block>, t: seq<Call>, t2: seq<Call>, ok: bool,
                     c0: seq<Call>, c1: seq<Call>, c2: seq<Call>,
                     writing: bool, nvm0: seq<Block>, mid: seq<Block>, nvm2: seq<Block>)
    requires c1 == c0 + t && c2 == c1 + t2
    requires PushWalked(i, t, true, writing, ram, nvm0, mid)
    requires Encoded(Transfers(Push, AxisSlots(i)), t2, ok, writing, ram, AxisSlots(i), mid, nvm2)
    ensures c2 == c0 + (t + t2)
    ensures PushWalked(i + 1, t + t2, ok, writing, ram, nvm0, nvm2)
  {
    AppendTwice(c0, t, t2);
    WalkStep(Push, i, t, t2);
    if writing && ok {
      SerializeStep(ram, i, nvm0, mid, nvm2);
    }
  }

  /**
   * The state of config_pop_all after the first i axes: the calls so far
   * follow the walk, and when all of them succeeded the records consumed
   * since cur0 have been decoded into ram0 to give ram.
   */
  ghost predicate PopWalked(i: nat, t: seq<Call>, ok: bool, nvm: seq<Block>,
                            cur0: nat, cur: nat, ram0: map<Slot, Block>, ram: map<Slot, Block>)
  {
    Decoded(Transfers(Pop, Schema(i)), t, ok, DataSchema(i), nvm, cur0, cur, ram0, ram)
  }

  /**
   * The calls t of a pop walk over ops follow it, ok records whether all of
   * them succeeded, and when they did the records nvm[cur0..cur] have been
   * decoded into ram0, slot by slot, to give ram.
   */
  ghost predicate Decoded(ops: seq<Op>, t: seq<Call>, ok: bool, slots: seq<Slot>, nvm: seq<Block>,
                          cur0: nat, cur: nat, ram0: map<Slot, Block>, ram: map<Slot, Block>)
  {
    && ShortCircuited(ops, t)
    && ok == AllSucceeded(ops, t)
    && (ok ==> cur0 + |slots| <= |nvm| && cur == cur0 + |slots|
               && ram == Deserialize(ram0, slots, nvm[cur0..cur]))
    && ReadPrefix(slots, nvm, cur0, cur, ram0, ram)
  }

  /**
   * Whether the reads since cur0 succeeded or not, they consumed a prefix of
   * slots: the first cur - cur0 slots received the blocks nvm[cur0..cur], in
   * order, and nothing else was written.
   */
  ghost predicate ReadPrefix(slots: seq<Slot>, nvm: seq<Block>, cur0: nat, cur: nat,
                             ram0: map<Slot, Block>, ram: map<Slot, Block>)
  {
    cur0 <= cur <= |nvm| && cur - cur0 <= |slots|
    && ram == Deserialize(ram0, slots[..cur - cur0], nvm[cur0..cur])
  }

  /** What a read of a prefix of `a` did is also a read of a prefix of any walk that `a` begins. */
  lemma ReadPrefixWithin(a: seq<Slot>, b: seq<Slot>, nvm: seq<Block>, cur0: nat, cur: nat,
                         ram0: map<Slot, Block>, ram: map<Slot, Block>)
    requires a <= b && ReadPrefix(a, nvm, cur0, cur, ram0, ram)
    ensures ReadPrefix(b, nvm, cur0, cur, ram0, ram)
  {
    assert b[..cur - cur0] == a[..cur - cur0];
  }

  /**
   * Once a pop fails, no later slot of the walk is touched: every slot the
   * reads did not reach still holds the record it held before.
   */
  lemma {:induction false} UnreadSlotsKept(slots: seq<Slot>, nvm: seq<Block>, cur0: nat, cur: nat,
                                           ram0: map<Slot, Block>, ram: map<Slot, Block>)
    requires NoDuplicates(slots) && ReadPrefix(slots, nvm, cur0, cur, ram0, ram)
    ensures forall j :: cur - cur0 <= j < |slots| ==> Get(ram, slots[j]) == Get(ram0, slots[j])
  {
    var m := cur - cur0;
    var read := slots[..m];
    assert NoDuplicates(read);
    DeserializeValues(ram0, read, nvm[cur0..cur]);
    forall j | m <= j < |slots| ensures Get(ram, slots[j]) == Get(ram0, slots[j]) {
      assert slots[j] !in read by {
        forall k | 0 <= k < m ensures read[k] != slots[j] {
          assert read[k] == slots[k];
        }
      }
    }
  }

  lemma PopWalkStep(i: nat, t: seq<Call>, t2: seq<Call>, ok: bool,
                    c0: seq<Call>, c1: seq<Call>, c2: seq<Call>, nvm: seq<Block>,
                    cur0: nat, cur1: nat, cur2: nat,
                    ram0: map<Slot, Block>, ram1: map<Slot, Block>, ram2: map<Slot, Block>)
    requires c1 == c0 + t && c2 == c1 + t2
    requires PopWalked(i, t, true, nvm, cur0, cur1, ram0, ram1)
    requires Decoded(Transfers(Pop, AxisSlots(i)), t2, ok, AxisSlots(i), nvm, cur1, cur2, ram1, ram2)
    ensures c2 == c0 + (t + t2)
    ensures PopWalked(i + 1, t + t2, ok, nvm, cur0, cur2, ram0, ram2)
  {
    AppendTwice(c0, t, t2);
    WalkStep(Pop, i, t, t2);
    ReadPrefixStep(i, nvm, cur0, cur1, cur2, ram0, ram1, ram2);
    if ok {
      assert nvm[cur0..cur2] == nvm[cur0..cur1] + nvm[cur1..cur2];
      DeserializeStep(ram0, i, nvm[cur0..cur1], nvm[cur1..cur2]);
    }
  }

  /** The reads of a whole first i axes, followed by a partial read of axis i, are a partial read of i + 1 axes. */
  lemma ReadPrefixStep(i: nat, nvm: seq<Block>, cur0: nat, cur1: nat, cur2: nat,
                       ram0: map<Slot, Block>, ram1: map<Slot, Block>, ram2: map<Slot, Block>)
    requires cur0 + |DataSchema(i)| == cur1 <= |nvm|
    requires ram1 == Deserialize(ram0, DataSchema(i), nvm[cur0..cur1])
    requires ReadPrefix(AxisSlots(i), nvm, cur1, cur2, ram1, ram2)
    ensures ReadPrefix(DataSchema(i + 1), nvm, cur0, cur2, ram0, ram2)
  {
    var m := cur2 - cur1;
    SchemaStep(i);
    assert DataSchema(i + 1)[..cur2 - cur0] == DataSchema(i) + AxisSlots(i)[..m];
    assert nvm[cur0..cur2] == nvm[cur0..cur1] + nvm[cur1..cur2];
    DeserializeAppend(ram0, DataSchema(i), AxisSlots(i)[..m], nvm[cur0..cur1], nvm[cur1..cur2]);
  }

  /** One iteration of config_apply_all, as the loop's invariant sees it. */
  lemma ApplyWalkStep(i: nat, t: seq<Call>, step: seq<Call>, ok: bool, c0: seq<Call>, c1: seq<Call>, c2: seq<Call>)
    requires c1 == c0 + t && c2 == c1 + step
    requires ShortCircuited(ApplyOps(i), t) && AllSucceeded(ApplyOps(i), t)
    requires ShortCircuited([ApplyEncoder(i), ApplyMotor(i)], step)
    requires ok == AllSucceeded([ApplyEncoder(i), ApplyMotor(i)], step)
    ensures c2 == c0 + (t + step)
    ensures ShortCircuited(ApplyOps(i + 1), t + step) && ok == AllSucceeded(ApplyOps(i + 1), t + step)
  {
    AppendTwice(c0, t, step);
    ChainThen(ApplyOps(i), [ApplyEncoder(i), ApplyMotor(i)], t, step);
  }

  /**
   * A configuration saved by save_configuration comes back unchanged: when
   * storage holds the records written for `saved` and a load decodes them,
   * every data slot holds what it held when it was saved.
   */
  lemma {:induction false} SaveLoadRoundTrip(n: nat, saved: map<Slot, Block>, before: map<Slot, Block>,
                                             nvm: seq<Block>, ram: map<Slot, Block>)
    requires nvm == Serialize(saved, DataSchema(n))
    requires |DataSchema(n)| <= |nvm| && ram == Deserialize(before, DataSchema(n), nvm[..|DataSchema(n)|])
    ensures forall s :: IsDataSlot(s, n) ==> Get(ram, s) == Get(saved, s)
  {
    assert nvm[..|DataSchema(n)|] == nvm;
    LoadAfterStore(n, saved, before);
  }
}

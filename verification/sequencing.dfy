/**
 * The calls that the configuration code of Firmware/MotorControl/main.cpp
 * makes to code outside it, and the shape of a short-circuit chain
 * `a() && b() && c()`: the calls run in order and stop right after the
 * first one that returns false.
 */
module Sequencing {
  import opened ConfigSchema

  datatype Direction = Push | Pop

  /** One call to a collaborator: the configuration manager, the board, an encoder or a motor. */
  datatype Op =
    | Transfer(dir: Direction, slot: Slot) // config_manager.push/pop, or board_push_config/board_pop_config for Board
    | PrepareStore
    | StartStore
    | FinishStore
    | StartLoad
    | FinishLoad
    | ApplyEncoder(axis: nat)              // encoders[i].apply_config(motors[i].config_.motor_type)
    | ApplyMotor(axis: nat)                // motors[i].apply_config()

  /** A call that was made, with what it returned. */
  datatype Call = Call(op: Op, ok: bool)

  /** The transfers of one walk over `slots`, in order. */
  function Transfers(dir: Direction, slots: seq<Slot>): (ops: seq<Op>)
    ensures |ops| == |slots|
  {
    seq(|slots|, j requires 0 <= j < |slots| => Transfer(dir, slots[j]))
  }

  lemma TransfersAppend(dir: Direction, a: seq<Slot>, b: seq<Slot>)
    ensures Transfers(dir, a + b) == Transfers(dir, a) + Transfers(dir, b)
  {
    assert forall j :: 0 <= j < |a| ==> (a + b)[j] == a[j];
    assert forall j :: |a| <= j < |a| + |b| ==> (a + b)[j] == b[j - |a|];
  }

  lemma TransfersPrefix(dir: Direction, a: seq<Slot>, b: seq<Slot>)
    requires a <= b
    ensures Transfers(dir, a) <= Transfers(dir, b)
  {
    assert forall j :: 0 <= j < |a| ==> a[j] == b[j];
  }

  /**
   * `calls` is what evaluating the chain `ops[0]() && ops[1]() && ...` does:
   * the first operation is called; if it returns true the rest of the chain
   * is evaluated, otherwise nothing more is called.
   */
  predicate ShortCircuited(ops: seq<Op>, calls: seq<Call>)
    decreases |ops|
  {
    if ops == [] then calls == []
    else calls != [] && calls[0].op == ops[0]
         && if calls[0].ok then ShortCircuited(ops[1..], calls[1..]) else |calls| == 1
  }

  /** The chain evaluated to true: every operation was called, in order, and returned true. */
  predicate AllSucceeded(ops: seq<Op>, calls: seq<Call>)
    decreases |ops|
  {
    if ops == [] then calls == []
    else calls != [] && calls[0] == Call(ops[0], true) && AllSucceeded(ops[1..], calls[1..])
  }

  /**
   * The same two notions stated position by position: a short-circuited
   * evaluation calls a prefix of the operations in order, every call but the
   * last returned true, and if it stopped early its last call returned false;
   * it succeeded when it called every operation and each returned true.
   */
  lemma {:induction false} ChainByPosition(ops: seq<Op>, calls: seq<Call>)
    ensures ShortCircuited(ops, calls) <==>
              |calls| <= |ops|
              && (forall j :: 0 <= j < |calls| ==> calls[j].op == ops[j])
              && (forall j :: 0 <= j < |calls| - 1 ==> calls[j].ok)
              && (|calls| < |ops| ==> |calls| > 0 && !calls[|calls| - 1].ok)
    ensures AllSucceeded(ops, calls) <==> |calls| == |ops| && forall j :: 0 <= j < |calls| ==> calls[j] == Call(ops[j], true)
    decreases |ops|
  {
    if ops != [] && calls != [] {
      ChainByPosition(ops[1..], calls[1..]);
      assert forall j :: 1 <= j < |calls| ==> calls[j] == calls[1..][j - 1];
      assert forall j :: 1 <= j < |ops| ==> ops[j] == ops[1..][j - 1];
    }
  }

  /** A chain that ran to the end with every call true, followed by a second chain, is one chain. */
  lemma {:induction false} ChainThen(a: seq<Op>, b: seq<Op>, ca: seq<Call>, cb: seq<Call>)
    requires AllSucceeded(a, ca)
    requires ShortCircuited(b, cb)
    ensures ShortCircuited(a + b, ca + cb)
    ensures AllSucceeded(a + b, ca + cb) <==> AllSucceeded(b, cb)
    decreases |a|
  {
    if a == [] {
      assert a + b == b && ca + cb == cb;
    } else {
      ChainThen(a[1..], b, ca[1..], cb);
      assert (a + b)[0] == a[0] && (a + b)[1..] == a[1..] + b;
      assert (ca + cb)[0] == ca[0] && (ca + cb)[1..] == ca[1..] + cb;
    }
  }

  /** One more call after a prefix of the chain that succeeded so far. */
  lemma ChainExtend(ops: seq<Op>, j: nat, calls: seq<Call>, c: Call)
    requires j < |ops| && c.op == ops[j]
    requires AllSucceeded(ops[..j], calls)
    ensures ShortCircuited(ops[..j + 1], calls + [c])
    ensures AllSucceeded(ops[..j + 1], calls + [c]) == c.ok
  {
    assert ops[..j + 1] == ops[..j] + [ops[j]];
    SingleStage(c.op, c.ok);
    ChainThen(ops[..j], [ops[j]], calls, [c]);
  }

  /** The loop over a chain's operations has ended: it either ran them all or stopped at a failure. */
  lemma ChainEnd(ops: seq<Op>, j: nat, calls: seq<Call>)
    requires j <= |ops| && ShortCircuited(ops[..j], calls)
    requires AllSucceeded(ops[..j], calls) ==> j == |ops|
    ensures ShortCircuited(ops, calls) && AllSucceeded(ops, calls) == AllSucceeded(ops[..j], calls)
  {
    if !AllSucceeded(ops[..j], calls) {
      ChainStopped(ops[..j], ops, calls);
    } else {
      assert ops[..j] == ops;
    }
  }

  /** The operations of a chain made of consecutive stages, in order. */
  function Concat(stages: seq<seq<Op>>): seq<Op> {
    if stages == [] then [] else Concat(stages[..|stages| - 1]) + stages[|stages| - 1]
  }

  lemma ConcatStep(stages: seq<seq<Op>>, k: nat)
    requires k < |stages|
    ensures Concat(stages[..k + 1]) == Concat(stages[..k]) + stages[k]
  {
    assert stages[..k + 1][..k] == stages[..k];
  }

  /** The stages so far are the beginning of the chain. */
  lemma {:induction false} ConcatPrefix(stages: seq<seq<Op>>, k: nat)
    requires k <= |stages|
    ensures Concat(stages[..k]) <= Concat(stages)
    decreases |stages| - k
  {
    if k < |stages| {
      ConcatPrefix(stages, k + 1);
      ConcatStep(stages, k);
    } else {
      assert stages[..k] == stages;
    }
  }

  /**
   * Where the evaluation of a chain `whole` stands after its first stages
   * `done`: while every call so far returned true (`ok`), they are exactly
   * `done`; once one returned false, the whole chain has stopped.
   */
  predicate ChainState(done: seq<Op>, whole: seq<Op>, calls: seq<Call>, ok: bool) {
    (ok ==> AllSucceeded(done, calls))
    && (!ok ==> ShortCircuited(whole, calls) && !AllSucceeded(whole, calls))
  }

  /** Before the first stage nothing has been called. */
  lemma StagesStart(stages: seq<seq<Op>>)
    ensures ChainState(Concat(stages[..0]), Concat(stages), [], true)
  {
    assert stages[..0] == [];
  }

  /** Evaluating stage k of the chain, which returned `ok`. */
  lemma StageThen(stages: seq<seq<Op>>, k: nat, t: seq<Call>, t1: seq<Call>, ok: bool)
    requires k < |stages|
    requires ChainState(Concat(stages[..k]), Concat(stages), t, true)
    requires ShortCircuited(stages[k], t1) && ok == AllSucceeded(stages[k], t1)
    ensures ChainState(Concat(stages[..k + 1]), Concat(stages), t + t1, ok)
  {
    ConcatStep(stages, k);
    ChainThen(Concat(stages[..k]), stages[k], t, t1);
    if !ok {
      ConcatPrefix(stages, k + 1);
      ChainStopped(Concat(stages[..k + 1]), Concat(stages), t + t1);
    }
  }

  /** A stage that is a single call. */
  lemma SingleStage(op: Op, ok: bool)
    ensures ShortCircuited([op], [Call(op, ok)]) && ok == AllSucceeded([op], [Call(op, ok)])
  {
    assert [op][1..] == [] && [Call(op, ok)][1..] == [];
  }

  /** A chain that evaluated to true short-circuited nowhere. */
  lemma {:induction false} SucceededChain(ops: seq<Op>, calls: seq<Call>)
    requires AllSucceeded(ops, calls)
    ensures ShortCircuited(ops, calls)
    decreases |ops|
  {
    if ops != [] {
      SucceededChain(ops[1..], calls[1..]);
    }
  }

  /** The chain has been evaluated: every stage returned true, or one stopped it. */
  lemma StagesEnd(stages: seq<seq<Op>>, k: nat, t: seq<Call>, ok: bool)
    requires k <= |stages| && (ok ==> k == |stages|)
    requires ChainState(Concat(stages[..k]), Concat(stages), t, ok)
    ensures ShortCircuited(Concat(stages), t) && ok == AllSucceeded(Concat(stages), t)
  {
    if ok {
      assert stages[..k] == stages;
      SucceededChain(Concat(stages), t);
    }
  }

  /** A chain that stopped early stays stopped whatever would have come after. */
  lemma {:induction false} ChainStopped(a: seq<Op>, whole: seq<Op>, calls: seq<Call>)
    requires a <= whole
    requires ShortCircuited(a, calls) && !AllSucceeded(a, calls)
    ensures ShortCircuited(whole, calls) && !AllSucceeded(whole, calls)
    decreases |a|
  {
    if calls[0].ok {
      assert a[1..] <= whole[1..];
      ChainStopped(a[1..], whole[1..], calls[1..]);
    }
  }

  /** A walk whose board step failed stops there. */
  lemma WalkBoardFailed(dir: Direction)
    ensures ShortCircuited(Transfers(dir, Schema(0)), [Call(Transfer(dir, Board), false)])
    ensures !AllSucceeded(Transfers(dir, Schema(0)), [Call(Transfer(dir, Board), false)])
  {
    assert Schema(0)[0] == Board;
  }

  /** After a successful board step, the walk over no axes goes on with odrv.config_ and can_config. */
  lemma WalkStart(dir: Direction, t1: seq<Call>)
    requires ShortCircuited(Transfers(dir, [ODriveConfig, CanConfig]), t1)
    ensures ShortCircuited(Transfers(dir, Schema(0)), [Call(Transfer(dir, Board), true)] + t1)
    ensures AllSucceeded(Transfers(dir, Schema(0)), [Call(Transfer(dir, Board), true)] + t1)
            == AllSucceeded(Transfers(dir, [ODriveConfig, CanConfig]), t1)
  {
    assert Schema(0) == [Board] + [ODriveConfig, CanConfig];
    TransfersAppend(dir, [Board], [ODriveConfig, CanConfig]);
    ChainThen([Transfer(dir, Board)], Transfers(dir, [ODriveConfig, CanConfig]), [Call(Transfer(dir, Board), true)], t1);
  }

  /** The walk over the first i+1 axes is the walk over the first i followed by the eight records of axis i. */
  lemma WalkStep(dir: Direction, i: nat, t: seq<Call>, t2: seq<Call>)
    requires ShortCircuited(Transfers(dir, Schema(i)), t) && AllSucceeded(Transfers(dir, Schema(i)), t)
    requires ShortCircuited(Transfers(dir, AxisSlots(i)), t2)
    ensures ShortCircuited(Transfers(dir, Schema(i + 1)), t + t2)
    ensures AllSucceeded(Transfers(dir, Schema(i + 1)), t + t2) == AllSucceeded(Transfers(dir, AxisSlots(i)), t2)
  {
    SchemaStep(i);
    TransfersAppend(dir, Schema(i), AxisSlots(i));
    ChainThen(Transfers(dir, Schema(i)), Transfers(dir, AxisSlots(i)), t, t2);
  }

  /** A walk that stopped within the first i axes is a stopped walk over all n axes. */
  lemma WalkStopped(dir: Direction, i: nat, n: nat, t: seq<Call>)
    requires i <= n
    requires ShortCircuited(Transfers(dir, Schema(i)), t) && !AllSucceeded(Transfers(dir, Schema(i)), t)
    ensures ShortCircuited(Transfers(dir, Schema(n)), t) && !AllSucceeded(Transfers(dir, Schema(n)), t)
  {
    SchemaPrefix(i, n);
    TransfersPrefix(dir, Schema(i), Schema(n));
    ChainStopped(Transfers(dir, Schema(i)), Transfers(dir, Schema(n)), t);
  }

  /**
   * In a chain, reaching the operation at position k means that every
   * operation before it was called, in order, and returned true.
   */
  lemma {:induction false} ReachedOnlyAfter(ops: seq<Op>, calls: seq<Call>, k: nat)
    requires ShortCircuited(ops, calls) && k < |calls|
    ensures k < |ops| && calls[k].op == ops[k]
    ensures calls[..k] == seq(k, j requires 0 <= j < k => Call(ops[j], true))
    decreases k
  {
    if k > 0 {
      assert calls[0] == Call(ops[0], true);
      ReachedOnlyAfter(ops[1..], calls[1..], k - 1);
      var before := seq(k - 1, j requires 0 <= j < k - 1 => Call(ops[1..][j], true));
      assert calls[..k] == [calls[0]] + calls[1..][..k - 1];
      assert calls[..k] == [Call(ops[0], true)] + before;
    }
  }

  /** config_apply_all for axes 0 .. n-1: for each axis the encoder, then the motor. */
  function ApplyOps(n: nat): (ops: seq<Op>)
    ensures |ops| == 2 * n
  {
    if n == 0 then [] else ApplyOps(n - 1) + [ApplyEncoder(n - 1), ApplyMotor(n - 1)]
  }

  /** The encoder of every axis is applied immediately before that axis's motor. */
  lemma {:induction false} ApplyOpsShape(n: nat)
    ensures forall i :: 0 <= i < n ==> ApplyOps(n)[2 * i] == ApplyEncoder(i) && ApplyOps(n)[2 * i + 1] == ApplyMotor(i)
  {
    if n > 0 {
      var prev, ops := ApplyOps(n - 1), ApplyOps(n);
      ApplyOpsShape(n - 1);
      assert ops == prev + [ApplyEncoder(n - 1), ApplyMotor(n - 1)];
      forall i | 0 <= i < n ensures ops[2 * i] == ApplyEncoder(i) && ops[2 * i + 1] == ApplyMotor(i) {
        if i < n - 1 {
          assert ops[2 * i] == prev[2 * i] && ops[2 * i + 1] == prev[2 * i + 1];
        } else {
          assert 2 * i == |prev|;
        }
      }
    }
  }

  /** The apply walk holds nothing but encoder and motor applications. */
  lemma {:induction false} ApplyOpsKinds(n: nat)
    ensures forall j :: 0 <= j < |ApplyOps(n)| ==> ApplyOps(n)[j].ApplyEncoder? || ApplyOps(n)[j].ApplyMotor?
  {
    if n > 0 {
      ApplyOpsKinds(n - 1);
      var prev, ops := ApplyOps(n - 1), ApplyOps(n);
      assert ops == prev + [ApplyEncoder(n - 1), ApplyMotor(n - 1)];
      assert forall j :: 0 <= j < |prev| ==> ops[j] == prev[j];
    }
  }

  lemma {:induction false} ApplyOpsPrefix(i: nat, n: nat)
    requires i <= n
    ensures ApplyOps(i) <= ApplyOps(n)
    decreases n - i
  {
    if i < n {
      ApplyOpsPrefix(i + 1, n);
    }
  }

  /** The sizing pass of save_configuration: prepare_store, then a push walk. */
  function SizingSteps(n: nat): seq<seq<Op>> {
    [[PrepareStore], Transfers(Push, Schema(n))]
  }

  /** The writing pass of save_configuration: start_store, a second push walk, finish_store. */
  function WritingSteps(n: nat): seq<seq<Op>> {
    [[StartStore], Transfers(Push, Schema(n)), [FinishStore]]
  }

  /** The reading part of load_configuration: start_load, a pop walk, finish_load. */
  function ReadingSteps(n: nat): seq<seq<Op>> {
    [[StartLoad], Transfers(Pop, Schema(n)), [FinishLoad]]
  }

  /** The whole chain of save_configuration. */
  function SaveOps(n: nat): seq<Op> {
    Concat(SizingSteps(n)) + Concat(WritingSteps(n))
  }

  /** The whole chain of load_configuration: the reading part, then config_apply_all. */
  function LoadOps(n: nat): seq<Op> {
    Concat(ReadingSteps(n)) + ApplyOps(n)
  }

  lemma ConcatSnoc(stages: seq<seq<Op>>, last: seq<Op>)
    ensures Concat(stages + [last]) == Concat(stages) + last
  {
    assert (stages + [last])[..|stages|] == stages;
  }

  /** A chain of two stages. */
  lemma ConcatPair(a: seq<Op>, b: seq<Op>)
    ensures Concat([a, b]) == a + b
  {
    ConcatSnoc([], a);
    assert [] + [a] == [a] && [a] + [b] == [a, b];
    ConcatSnoc([a], b);
  }

  /** A chain of three stages. */
  lemma ConcatTriple(a: seq<Op>, b: seq<Op>, c: seq<Op>)
    ensures Concat([a, b, c]) == a + b + c
  {
    ConcatPair(a, b);
    assert [a, b] + [c] == [a, b, c];
    ConcatSnoc([a, b], c);
  }

  lemma SizingShape(n: nat)
    ensures |SizingSteps(n)| == 2
    ensures SizingSteps(n)[0] == [PrepareStore] && SizingSteps(n)[1] == Transfers(Push, Schema(n))
    ensures Concat(SizingSteps(n)) == [PrepareStore] + Transfers(Push, Schema(n))
  {
    ConcatPair([PrepareStore], Transfers(Push, Schema(n)));
  }

  lemma WritingShape(n: nat)
    ensures |WritingSteps(n)| == 3
    ensures WritingSteps(n)[0] == [StartStore] && WritingSteps(n)[1] == Transfers(Push, Schema(n))
            && WritingSteps(n)[2] == [FinishStore]
    ensures Concat(WritingSteps(n)) == [StartStore] + Transfers(Push, Schema(n)) + [FinishStore]
  {
    ConcatTriple([StartStore], Transfers(Push, Schema(n)), [FinishStore]);
  }

  lemma ReadingShape(n: nat)
    ensures |ReadingSteps(n)| == 3
    ensures ReadingSteps(n)[0] == [StartLoad] && ReadingSteps(n)[1] == Transfers(Pop, Schema(n))
            && ReadingSteps(n)[2] == [FinishLoad]
    ensures Concat(ReadingSteps(n)) == [StartLoad] + Transfers(Pop, Schema(n)) + [FinishLoad]
  {
    ConcatTriple([StartLoad], Transfers(Pop, Schema(n)), [FinishLoad]);
  }

  lemma SaveOpsShape(n: nat)
    ensures SaveOps(n) == [PrepareStore] + Transfers(Push, Schema(n)) + [StartStore] + Transfers(Push, Schema(n)) + [FinishStore]
  {
    var p := Transfers(Push, Schema(n));
    SizingShape(n);
    WritingShape(n);
    assert SaveOps(n) == ([PrepareStore] + p) + ([StartStore] + p + [FinishStore]);
  }

  lemma LoadOpsShape(n: nat)
    ensures LoadOps(n) == [StartLoad] + Transfers(Pop, Schema(n)) + [FinishLoad] + ApplyOps(n)
  {
    ReadingShape(n);
  }

  /**
   * In a save, start_store is reached only after prepare_store and a whole
   * first walk returned true, and finish_store only after a whole second walk
   * as well.
   */
  lemma {:induction false} SaveStages(n: nat, calls: seq<Call>, k: nat)
    requires ShortCircuited(SaveOps(n), calls) && k < |calls|
    ensures calls[k].op == StartStore ==>
              k == 1 + |Schema(n)|
              && calls[0] == Call(PrepareStore, true)
              && forall j :: 1 <= j < k ==> calls[j] == Call(Transfer(Push, Schema(n)[j - 1]), true)
    ensures calls[k].op == FinishStore ==>
              k == 2 + 2 * |Schema(n)|
              && forall j :: 0 <= j < k ==> calls[j].ok && calls[j].op != FinishStore
  {
    var L := |Schema(n)|;
    var ops := SaveOps(n);
    var pushes := Transfers(Push, Schema(n));
    SaveOpsShape(n);
    ChainByPosition(ops, calls);
    assert |ops| == 3 + 2 * L;
    assert forall j :: 1 <= j <= L ==> ops[j] == pushes[j - 1];
    assert ops[1 + L] == StartStore;
    assert forall j :: 2 + L <= j < 2 + 2 * L ==> ops[j] == pushes[j - 2 - L];
    assert ops[2 + 2 * L] == FinishStore;
  }

  /**
   * In a load, the pops never run unless start_load returned true, and the
   * apply steps never run unless every pop and finish_load returned true.
   */
  lemma {:induction false} LoadStages(n: nat, calls: seq<Call>, k: nat)
    requires ShortCircuited(LoadOps(n), calls) && k < |calls|
    ensures calls[k].op.Transfer? ==> k >= 1 && calls[0] == Call(StartLoad, true)
    ensures (calls[k].op.ApplyEncoder? || calls[k].op.ApplyMotor?) ==>
              k >= 2 + |Schema(n)|
              && calls[0] == Call(StartLoad, true)
              && calls[1 + |Schema(n)|] == Call(FinishLoad, true)
              && forall j :: 1 <= j <= |Schema(n)| ==> calls[j] == Call(Transfer(Pop, Schema(n)[j - 1]), true)
  {
    var L := |Schema(n)|;
    var ops := LoadOps(n);
    var pops := Transfers(Pop, Schema(n));
    LoadOpsShape(n);
    ChainByPosition(ops, calls);
    assert ops[0] == StartLoad;
    assert forall j :: 1 <= j <= L ==> ops[j] == pops[j - 1];
    assert ops[1 + L] == FinishLoad;
    assert forall j :: 2 + L <= j < |ops| ==> ops[j] == ApplyOps(n)[j - 2 - L];
    ApplyOpsKinds(n);
  }
}

/**
 * The fixed, ordered list of configuration slots that `config_push_all` and
 * `config_pop_all` walk (Firmware/MotorControl/main.cpp), the records held in
 * those slots, and the in-order serialisation that the two walks perform.
 */
module ConfigSchema {

  /** The eight records kept per axis, in the order both walks visit them. */
  datatype AxisBlock = Encoder | Sensorless | Controller | Trap | MinEndstop | MaxEndstop | Motor | AxisConfig

  const AxisBlockOrder: seq<AxisBlock> :=
    [Encoder, Sensorless, Controller, Trap, MinEndstop, MaxEndstop, Motor, AxisConfig]

  /** One step of a walk over the schema. */
  datatype Slot =
    | Board                               // board_push_config / board_pop_config: no record of its own here
    | ODriveConfig                        // odrv.config_
    | CanConfig                           // can_config
    | PerAxis(axis: nat, block: AxisBlock) // encoders[i].config_, sensorless_configs[i], ...

  /** The slots that hold a record in RAM (every slot but the board step). */
  predicate IsDataSlot(s: Slot, axisCount: nat) {
    s.ODriveConfig? || s.CanConfig? || (s.PerAxis? && s.axis < axisCount)
  }

  /** The slots of the records of axis `i`. */
  predicate OfAxis(s: Slot, i: nat) {
    s.PerAxis? && s.axis == i
  }

  /** The eight per-axis slots of axis `i`, in the order of one iteration of the axis loop. */
  function AxisSlots(i: nat): (slots: seq<Slot>)
    ensures |slots| == 8
  {
    seq(8, k requires 0 <= k < 8 => PerAxis(i, AxisBlockOrder[k]))
  }

  /** The per-axis part of the schema for axes 0 .. n-1. */
  function AxesSchema(n: nat): (slots: seq<Slot>)
    ensures |slots| == 8 * n
  {
    if n == 0 then [] else AxesSchema(n - 1) + AxisSlots(n - 1)
  }

  /** The per-axis part of the walk holds exactly the records of axes 0 .. n-1. */
  lemma {:induction false} AxesSchemaMembers(n: nat)
    ensures forall s :: s in AxesSchema(n) <==> IsDataSlot(s, n) && s.PerAxis?
  {
    if n > 0 {
      var prev, last := AxesSchema(n - 1), AxisSlots(n - 1);
      AxesSchemaMembers(n - 1);
      AxisSlotsMembers(n - 1);
      assert AxesSchema(n) == prev + last;
      forall s: Slot ensures s in prev + last <==> IsDataSlot(s, n) && s.PerAxis? {
        assert s in prev + last <==> s in prev || s in last;
      }
    }
  }

  /** The slots of one axis iteration are exactly that axis's eight records. */
  lemma AxisSlotsMembers(i: nat)
    ensures forall s :: s in AxisSlots(i) <==> OfAxis(s, i)
  {
    forall s: Slot | OfAxis(s, i) ensures s in AxisSlots(i) {
      match s.block
      case Encoder => assert s == AxisSlots(i)[0];
      case Sensorless => assert s == AxisSlots(i)[1];
      case Controller => assert s == AxisSlots(i)[2];
      case Trap => assert s == AxisSlots(i)[3];
      case MinEndstop => assert s == AxisSlots(i)[4];
      case MaxEndstop => assert s == AxisSlots(i)[5];
      case Motor => assert s == AxisSlots(i)[6];
      case AxisConfig => assert s == AxisSlots(i)[7];
    }
  }

  /** The slots that go through the configuration manager: odrv.config_, can_config, then the axes. */
  function DataSchema(n: nat): (slots: seq<Slot>)
    ensures |slots| == 2 + 8 * n
  {
    [ODriveConfig, CanConfig] + AxesSchema(n)
  }

  /** The records the manager sees are exactly the configuration globals of the n axes. */
  lemma DataSchemaMembers(n: nat)
    ensures forall s :: s in DataSchema(n) <==> IsDataSlot(s, n)
  {
    AxesSchemaMembers(n);
  }

  /** The whole walk of `config_push_all` / `config_pop_all` for `n` axes. */
  function Schema(n: nat): seq<Slot> {
    [Board] + DataSchema(n)
  }

  /**
   * The walk has 3 + 8n steps: the board step, odrv.config_, can_config, then
   * for axis i the eight records of AxisBlockOrder at positions 3 + 8i .. 3 + 8i + 7.
   */
  lemma {:induction false} SchemaShape(n: nat)
    ensures |Schema(n)| == 3 + 8 * n
    ensures Schema(n)[0] == Board && Schema(n)[1] == ODriveConfig && Schema(n)[2] == CanConfig
    ensures forall j :: 3 <= j < |Schema(n)| ==>
              Schema(n)[j] == PerAxis((j - 3) / 8, AxisBlockOrder[(j - 3) % 8])
  {
    AxesSchemaShape(n);
  }

  lemma {:induction false} AxesSchemaShape(n: nat)
    ensures forall j :: 0 <= j < 8 * n ==> AxesSchema(n)[j] == PerAxis(j / 8, AxisBlockOrder[j % 8])
  {
    if n > 0 {
      AxesSchemaShape(n - 1);
      forall j | 8 * (n - 1) <= j < 8 * n
        ensures AxesSchema(n)[j] == PerAxis(j / 8, AxisBlockOrder[j % 8])
      {
        assert j / 8 == n - 1;
        assert AxesSchema(n)[j] == AxisSlots(n - 1)[j - 8 * (n - 1)];
      }
    }
  }

  /** A shorter walk is the beginning of a longer one: every prefix of the axis loop is a prefix of the walk. */
  lemma {:induction false} SchemaPrefix(i: nat, n: nat)
    requires i <= n
    ensures Schema(i) <= Schema(n)
    ensures DataSchema(i) <= DataSchema(n)
    decreases n - i
  {
    if i < n {
      SchemaPrefix(i + 1, n);
      assert DataSchema(i + 1) == DataSchema(i) + AxisSlots(i);
      assert Schema(i + 1) == Schema(i) + AxisSlots(i);
    }
  }

  /** Extending the axis loop by one iteration appends that axis's eight slots. */
  lemma SchemaStep(i: nat)
    ensures Schema(i + 1) == Schema(i) + AxisSlots(i)
    ensures DataSchema(i + 1) == DataSchema(i) + AxisSlots(i)
  {
  }

  /** With no axes, the walk is the board step, odrv.config_ and can_config. */
  lemma SchemaBase()
    ensures DataSchema(0) == [ODriveConfig, CanConfig]
    ensures Schema(0) == [Board, ODriveConfig, CanConfig]
  {
    assert AxesSchema(0) == [];
  }

  predicate NoDuplicates(slots: seq<Slot>) {
    forall j, k :: 0 <= j < k < |slots| ==> slots[j] != slots[k]
  }

  /** Every configuration global is visited exactly once by a walk. */
  lemma {:induction false} SchemaNoDuplicates(n: nat)
    ensures NoDuplicates(Schema(n))
    ensures NoDuplicates(DataSchema(n))
  {
    AxesNoDuplicates(n);
    AxesSchemaMembers(n);
    var d := DataSchema(n);
    assert d == [ODriveConfig, CanConfig] + AxesSchema(n);
    forall j, k | 0 <= j < k < |d| ensures d[j] != d[k] {
      if k >= 2 {
        assert d[k] == AxesSchema(n)[k - 2];
        assert d[k] in AxesSchema(n);
        if j >= 2 {
          assert d[j] == AxesSchema(n)[j - 2];
        }
      }
    }
    forall j, k | 0 <= j < k < |Schema(n)| ensures Schema(n)[j] != Schema(n)[k] {
      assert Schema(n)[k] == d[k - 1] && d[k - 1] in d;
      if j > 0 {
        assert Schema(n)[j] == d[j - 1];
      }
    }
  }

  lemma {:induction false} AxesNoDuplicates(n: nat)
    ensures NoDuplicates(AxesSchema(n))
  {
    if n > 0 {
      AxesNoDuplicates(n - 1);
      AxesSchemaMembers(n - 1);
      var prev, last := AxesSchema(n - 1), AxisSlots(n - 1);
      assert AxesSchema(n) == prev + last;
      forall j, k | 0 <= j < k < |prev + last| ensures (prev + last)[j] != (prev + last)[k] {
        if k >= |prev| {
          assert (prev + last)[k] == last[k - |prev|];
          if j < |prev| {
            assert (prev + last)[j] == prev[j];
            assert prev[j] in prev;
          } else {
            assert (prev + last)[j] == last[j - |prev|];
          }
        } else {
          assert (prev + last)[j] == prev[j] && (prev + last)[k] == prev[k];
        }
      }
    }
  }

  /** Fields of a record that the model names; all others are `Other`. */
  datatype Field = LoadEncoderAxis | CanNodeId | StepGpioPin | DirGpioPin | Other(id: nat)

  /**
   * A configuration record: the fields that were assigned since value
   * initialisation; a field that is absent holds its declared default.
   */
  datatype Block = Block(values: map<Field, int>)

  /** The record `{}`: every field at its declared default. */
  const Empty := Block(map[])

  /** The per-axis hardware description `hw_configs[i].axis_config` that the default step/dir pins come from. */
  datatype HwAxisConfig = HwAxisConfig(stepGpioPin: int, dirGpioPin: int)

  /** `Axis::load_default_step_dir_pin_config(hw, &cfg)`: the step/dir pins are taken from the hardware table. */
  function LoadDefaultStepDir(hw: HwAxisConfig, b: Block): (r: Block)
    ensures StepGpioPin in r.values && r.values[StepGpioPin] == hw.stepGpioPin
    ensures DirGpioPin in r.values && r.values[DirGpioPin] == hw.dirGpioPin
    ensures forall f :: f != StepGpioPin && f != DirGpioPin ==> (f in r.values <==> f in b.values)
    ensures forall f :: f != StepGpioPin && f != DirGpioPin && f in b.values ==> r.values[f] == b.values[f]
  {
    Block(b.values[StepGpioPin := hw.stepGpioPin][DirGpioPin := hw.dirGpioPin])
  }

  /** `Axis::load_default_can_id(i, cfg)`: the default CAN node id of axis i is i. */
  function LoadDefaultCanId(i: nat, b: Block): (r: Block)
    ensures CanNodeId in r.values && r.values[CanNodeId] == i
    ensures forall f :: f != CanNodeId ==> (f in r.values <==> f in b.values)
    ensures forall f :: f != CanNodeId && f in b.values ==> r.values[f] == b.values[f]
  {
    Block(b.values[CanNodeId := i])
  }

  /** What `config_clear_all` leaves in slot `s`. */
  function DefaultBlock(s: Slot, hw: seq<HwAxisConfig>): Block
    requires s.PerAxis? ==> s.axis < |hw|
  {
    match s
    case PerAxis(i, Controller) => Block(Empty.values[LoadEncoderAxis := i])
    case PerAxis(i, AxisConfig) => LoadDefaultCanId(i, LoadDefaultStepDir(hw[i], Empty))
    case _ => Empty
  }

  /**
   * After a reset to defaults every record is `{}` except, for each axis i,
   * the controller's `load_encoder_axis`, which is i, and the axis config's
   * step/dir pins and CAN id, which come from `hw[i]` and i; those are the
   * only assigned fields.
   */
  lemma DefaultBlockContents(n: nat, hw: seq<HwAxisConfig>)
    requires n <= |hw|
    ensures DefaultBlock(ODriveConfig, hw) == Empty && DefaultBlock(CanConfig, hw) == Empty
    ensures forall i: nat, b: AxisBlock :: i < n && b != Controller && b != AxisConfig ==> DefaultBlock(PerAxis(i, b), hw) == Empty
    ensures forall i: nat :: i < n ==> DefaultBlock(PerAxis(i, Controller), hw).values == map[LoadEncoderAxis := i]
    ensures forall i: nat :: i < n ==>
              DefaultBlock(PerAxis(i, AxisConfig), hw).values ==
              map[StepGpioPin := hw[i].stepGpioPin, DirGpioPin := hw[i].dirGpioPin, CanNodeId := i]
  {
  }

  /** The index-dependent defaults tell the axes apart: no two axes get the same controller record or CAN id. */
  lemma DefaultsDistinctPerAxis(hw: seq<HwAxisConfig>, i: nat, j: nat)
    requires i < |hw| && j < |hw| && i != j
    ensures DefaultBlock(PerAxis(i, Controller), hw) != DefaultBlock(PerAxis(j, Controller), hw)
    ensures DefaultBlock(PerAxis(i, AxisConfig), hw).values[CanNodeId] != DefaultBlock(PerAxis(j, AxisConfig), hw).values[CanNodeId]
  {
    assert DefaultBlock(PerAxis(i, Controller), hw).values[LoadEncoderAxis] == i;
  }

  /** The record held in slot `s`: a slot that was never assigned holds the value-initialised record `{}`. */
  function Get(ram: map<Slot, Block>, s: Slot): Block {
    if s in ram then ram[s] else Empty
  }

  /** The blocks the write pass hands to the manager: the records of `slots`, in order. */
  function Serialize(ram: map<Slot, Block>, slots: seq<Slot>): (blocks: seq<Block>)
    ensures |blocks| == |slots|
  {
    if slots == [] then [] else [Get(ram, slots[0])] + Serialize(ram, slots[1..])
  }

  /** The j-th block written is the record of the j-th slot. */
  lemma {:induction false} SerializeValues(ram: map<Slot, Block>, slots: seq<Slot>)
    ensures forall j :: 0 <= j < |slots| ==> Serialize(ram, slots)[j] == Get(ram, slots[j])
    decreases |slots|
  {
    if slots != [] {
      SerializeValues(ram, slots[1..]);
      forall j | 0 <= j < |slots| ensures Serialize(ram, slots)[j] == Get(ram, slots[j]) {
        if j > 0 {
          assert slots[j] == slots[1..][j - 1];
        }
      }
    }
  }

  /** Writing `a + b` is writing `a` then writing `b`. */
  lemma {:induction false} SerializeAppend(ram: map<Slot, Block>, a: seq<Slot>, b: seq<Slot>)
    ensures Serialize(ram, a + b) == Serialize(ram, a) + Serialize(ram, b)
    decreases |a|
  {
    if a == [] {
      assert a + b == b;
    } else {
      assert (a + b)[0] == a[0] && (a + b)[1..] == a[1..] + b;
      SerializeAppend(ram, a[1..], b);
    }
  }

  /** Appending two pieces one after the other is appending them together. */
  lemma AppendTwice<T>(s: seq<T>, a: seq<T>, b: seq<T>)
    ensures s + a + b == s + (a + b)
  {
  }

  /**
   * The stored image of the first i+1 axes is that of the first i followed by
   * the eight records of axis i: `stored` extends `before` by the first i+1
   * axes once `mid` extends it by the first i and `stored` extends `mid` by axis i.
   */
  lemma SerializeStep(ram: map<Slot, Block>, i: nat, before: seq<Block>, mid: seq<Block>, stored: seq<Block>)
    requires mid == before + Serialize(ram, DataSchema(i))
    requires stored == mid + Serialize(ram, AxisSlots(i))
    ensures stored == before + Serialize(ram, DataSchema(i + 1))
  {
    SchemaStep(i);
    SerializeAppend(ram, DataSchema(i), AxisSlots(i));
    AppendTwice(before, Serialize(ram, DataSchema(i)), Serialize(ram, AxisSlots(i)));
  }

  /** What the read pass does to RAM: the j-th block read lands in `slots[j]`, one after another. */
  function Deserialize(ram: map<Slot, Block>, slots: seq<Slot>, blocks: seq<Block>): map<Slot, Block>
    requires |blocks| == |slots|
    decreases |slots|
  {
    if slots == [] then ram else Deserialize(ram[slots[0] := blocks[0]], slots[1..], blocks[1..])
  }

  /** Reading `a + b` is reading `a` then reading `b`. */
  lemma {:induction false} DeserializeAppend(ram: map<Slot, Block>, a: seq<Slot>, b: seq<Slot>, x: seq<Block>, y: seq<Block>)
    requires |x| == |a| && |y| == |b|
    ensures Deserialize(ram, a + b, x + y) == Deserialize(Deserialize(ram, a, x), b, y)
    decreases |a|
  {
    if a == [] {
      assert a + b == b && x + y == y;
    } else {
      assert (a + b)[0] == a[0] && (x + y)[0] == x[0];
      assert (a + b)[1..] == a[1..] + b && (x + y)[1..] == x[1..] + y;
      DeserializeAppend(ram[a[0] := x[0]], a[1..], b, x[1..], y);
    }
  }

  /** Reading one more block stores it in the next slot. */
  lemma DeserializeSnoc(ram: map<Slot, Block>, a: seq<Slot>, x: seq<Block>, s: Slot, v: Block)
    requires |x| == |a|
    ensures Deserialize(ram, a + [s], x + [v]) == Deserialize(ram, a, x)[s := v]
  {
    DeserializeAppend(ram, a, [s], x, [v]);
    var m := Deserialize(ram, a, x);
    assert [s][1..] == [] && [v][1..] == [];
    assert Deserialize(m, [s], [v]) == Deserialize(m[s := v], [], []);
  }

  /** Reading the first i+1 axes is reading the first i, then the eight records of axis i. */
  lemma DeserializeStep(ram: map<Slot, Block>, i: nat, x: seq<Block>, y: seq<Block>)
    requires |x| == |DataSchema(i)| && |y| == |AxisSlots(i)|
    ensures Deserialize(ram, DataSchema(i + 1), x + y) == Deserialize(Deserialize(ram, DataSchema(i), x), AxisSlots(i), y)
  {
    SchemaStep(i);
    DeserializeAppend(ram, DataSchema(i), AxisSlots(i), x, y);
  }

  /**
   * With a walk that visits no slot twice, reading `blocks` puts the j-th block
   * into the j-th slot and leaves every other slot as it was.
   */
  lemma {:induction false} DeserializeValues(ram: map<Slot, Block>, slots: seq<Slot>, blocks: seq<Block>)
    requires |blocks| == |slots| && NoDuplicates(slots)
    ensures forall s :: s in Deserialize(ram, slots, blocks) <==> s in ram || s in slots
    ensures forall j :: 0 <= j < |slots| ==> Deserialize(ram, slots, blocks)[slots[j]] == blocks[j]
    ensures forall s :: s in ram && s !in slots ==> Deserialize(ram, slots, blocks)[s] == ram[s]
    decreases |slots|
  {
    if slots != [] {
      var rest := slots[1..];
      assert NoDuplicates(rest) by {
        forall j, k | 0 <= j < k < |rest| ensures rest[j] != rest[k] {
          assert rest[j] == slots[j + 1] && rest[k] == slots[k + 1];
        }
      }
      DeserializeValues(ram[slots[0] := blocks[0]], rest, blocks[1..]);
      assert slots[0] !in rest by {
        forall k | 0 <= k < |rest| ensures rest[k] != slots[0] {
          assert rest[k] == slots[k + 1];
        }
      }
      forall j | 0 <= j < |slots| ensures Deserialize(ram, slots, blocks)[slots[j]] == blocks[j] {
        if j > 0 {
          assert slots[j] == rest[j - 1];
        }
      }
      forall s ensures s in slots <==> s == slots[0] || s in rest {
        assert slots == [slots[0]] + rest;
      }
    }
  }

  /**
   * Round trip, load after store: reading back what the write pass produced
   * from a RAM image `saved` gives every configuration global the record it
   * had in `saved`, whatever RAM held before.
   */
  lemma LoadAfterStore(n: nat, saved: map<Slot, Block>, before: map<Slot, Block>)
    ensures forall s :: IsDataSlot(s, n) ==>
              Get(Deserialize(before, DataSchema(n), Serialize(saved, DataSchema(n))), s) == Get(saved, s)
  {
    var d := DataSchema(n);
    SchemaNoDuplicates(n);
    DataSchemaMembers(n);
    SerializeValues(saved, d);
    var r := Deserialize(before, d, Serialize(saved, d));
    DeserializeValues(before, d, Serialize(saved, d));
    forall s | IsDataSlot(s, n) ensures Get(r, s) == Get(saved, s) {
      var j :| 0 <= j < |d| && d[j] == s;
      assert r[d[j]] == Serialize(saved, d)[j];
    }
  }

  /**
   * Round trip, store after load: writing out what was just read gives back
   * the same block sequence.
   */
  lemma StoreAfterLoad(n: nat, before: map<Slot, Block>, blocks: seq<Block>)
    requires |blocks| == |DataSchema(n)|
    ensures Serialize(Deserialize(before, DataSchema(n), blocks), DataSchema(n)) == blocks
  {
    var d := DataSchema(n);
    SchemaNoDuplicates(n);
    DeserializeValues(before, d, blocks);
    SerializeValues(Deserialize(before, d, blocks), d);
  }
}

# ODrive configuration sequencing, in Dafny

This project models the configuration transaction core of the ODrive motor
controller firmware, `Firmware/MotorControl/main.cpp`:

- the fixed walk that `config_push_all` and `config_pop_all` make over the
  configuration globals: the board step, `odrv.config_`, `can_config`, then
  eight records per axis;
- `config_clear_all` (reset to defaults, with the per-axis exceptions) and
  `config_apply_all` (encoder, then motor, axis by axis);
- `ODrive::save_configuration`, a two-pass store:
  `prepare_store && push_all && start_store && push_all && finish_store`;
- `load_configuration`, `start_load && pop_all && finish_load && apply_all`,
  with a fallback to defaults;
- the I2C slave address and bus selection in `construct_objects`;
- the boot order of `odrive_main` and the `fully_booted` flag, together with
  the one idle-hook statistic that the flag gates.

The files:

- `config_schema.dfy` (module `ConfigSchema`): slots, records, the schema, defaults, and in-order serialisation with its round-trip lemmas.
- `sequencing.dfy` (module `Sequencing`): what a `&&` chain of calls does (`ShortCircuited`, `AllSucceeded`), and the call chains of save and load.
- `nvm_config.dfy` (module `NvmConfig`): the configuration manager as an abstract class. Each operation may fail, and its effect on success is fixed.
- `firmware.dfy` (module `Firmware`): class `ODrive`, which holds the configuration globals and the methods for the main.cpp functions. Every method keeps a ghost log `calls` of the external calls it made and their results.
- `i2c_address.dfy` (module `I2cAddress`): the address arithmetic and bus choice.
- `boot.dfy` (module `Boot`): the boot trace of `odrive_main`, and the axis stack statistic of `vApplicationIdleHook`.

Code outside main.cpp has boolean results chosen nondeterministically. This
covers the configuration manager, `board_push_config` and `board_pop_config`,
`apply_config`, and `Axis::setup`. `AXIS_COUNT` is a parameter (`axisCount`).
A record is a map from the fields that were assigned to their values, and `{}` is the empty map.
A slot that was never assigned reads as `{}` (`ConfigSchema.Get`).

Two points about main.cpp that shape the model:

- `load_configuration` ignores the result of the fallback `config_apply_all`
  (main.cpp:114-115), and that call can fail. `LoadConfiguration` therefore
  promises only that the fallback is a short-circuited apply walk over the
  default records. It does not promise that the fallback succeeds.
- The axis objects are built in `construct_objects`, not in `odrive_main`.
  The comment at main.cpp:281 requires them to exist before
  `init_communication()`. The boot trace holds only what `odrive_main` does.
  Its first step, `board_init()` (main.cpp:251), includes the synchronised
  timer start, and the `BoardInit` event stands for all of it.

## Model

| member | source | states |
|---|---|---|
| ConfigSchema.SchemaShape | Firmware/MotorControl/main.cpp:28-60 | a walk has 3 + 8·n steps: board step, `odrv.config_`, `can_config`, then for axis i the eight records encoder, sensorless, controller, trap, min endstop, max endstop, motor, axis at positions 3+8i … 3+8i+7 |
| ConfigSchema.AxisSlotsMembers | Firmware/MotorControl/main.cpp:33-40 | one iteration of the axis loop touches exactly the eight records of that axis |
| ConfigSchema.AxesSchemaMembers | Firmware/MotorControl/main.cpp:32-41 | the axis loop touches exactly the records of axes 0 … n-1 |
| ConfigSchema.DataSchemaMembers | Firmware/MotorControl/main.cpp:29-41 | the records handed to the manager are exactly `odrv.config_`, `can_config` and the records of the n axes |
| ConfigSchema.SchemaNoDuplicates | Firmware/MotorControl/main.cpp:28-60 | no record is visited twice by a walk |
| ConfigSchema.SchemaPrefix | Firmware/MotorControl/main.cpp:32 | a walk stopped after i axes is a prefix of the full walk |
| ConfigSchema.LoadDefaultStepDir | Firmware/MotorControl/main.cpp:73 | the step and dir pins are set from the axis's hardware description; all other fields are left as they were |
| ConfigSchema.LoadDefaultCanId | Firmware/MotorControl/main.cpp:74 | the CAN node id is set to the axis index; all other fields are left as they were |
| ConfigSchema.DefaultBlockContents | Firmware/MotorControl/main.cpp:62-79 | after a reset, every record is `{}` except two per axis i: the controller record holds only `load_encoder_axis = i`, and the axis record holds only the step/dir pins from `hw[i]` and CAN id i |
| ConfigSchema.DefaultsDistinctPerAxis | Firmware/MotorControl/main.cpp:74-77 | two different axes get different controller records and different CAN ids |
| ConfigSchema.SerializeValues | Firmware/MotorControl/main.cpp:45-60 | the j-th block pushed is the record of the j-th slot of the walk |
| ConfigSchema.SerializeAppend | Firmware/MotorControl/main.cpp:49-57 | pushing a + b pushes a, then b |
| ConfigSchema.DeserializeAppend | Firmware/MotorControl/main.cpp:32-40 | popping a + b pops a, then b |
| ConfigSchema.DeserializeValues | Firmware/MotorControl/main.cpp:28-43 | over a walk without repeats, popping puts the j-th block into the j-th slot and leaves every other record unchanged |
| ConfigSchema.LoadAfterStore | Firmware/MotorControl/main.cpp:28-60 | pop and push share one order, so reading back what was pushed restores every record, whatever RAM held before |
| ConfigSchema.StoreAfterLoad | Firmware/MotorControl/main.cpp:28-60 | pushing what was just popped reproduces the stored block sequence |
| Sequencing.ChainByPosition | Firmware/MotorControl/main.cpp:93-97 | a `&&` chain calls a prefix of its operations in order, and every call but the last returned true; if it stopped early, the last call returned false. The chain is true iff it called all operations and each returned true. Both directions are proved |
| Sequencing.ChainThen | Firmware/MotorControl/main.cpp:93-97 | a chain that ran through with every call true, followed by another chain, is one chain; the whole is true iff the second part is |
| Sequencing.ChainStopped | Firmware/MotorControl/main.cpp:29-31 | once a call returns false nothing after it runs, however long the rest of the chain |
| Sequencing.SucceededChain | Firmware/MotorControl/main.cpp:93-97 | a chain that evaluated to true was not cut short anywhere |
| Sequencing.ReachedOnlyAfter | Firmware/MotorControl/main.cpp:93-97 | reaching position k of a chain means that every earlier operation was called in order and returned true |
| Sequencing.WalkStopped | Firmware/MotorControl/main.cpp:32 | a walk that failed within the first i axes leaves the axis loop: it is a finished, failed walk over all axes |
| Sequencing.ApplyOpsShape | Firmware/MotorControl/main.cpp:83-86 | `config_apply_all` calls axis i's encoder apply at position 2i and its motor apply at position 2i+1 |
| Sequencing.ApplyOpsKinds | Firmware/MotorControl/main.cpp:81-88 | `config_apply_all` calls nothing but encoder and motor applies |
| Sequencing.SaveOpsShape | Firmware/MotorControl/main.cpp:93-97 | the save chain is `prepare_store`, a push walk, `start_store`, a second push walk over the same slots, then `finish_store` |
| Sequencing.LoadOpsShape | Firmware/MotorControl/main.cpp:107-110 | the load chain is `start_load`, a pop walk, `finish_load`, then the apply walk |
| Sequencing.SaveStages | Firmware/MotorControl/main.cpp:93-97 | `start_store` is reached only at position 1 + walk length, after `prepare_store` and a whole first walk returned true; `finish_store` is reached only after every earlier call returned true |
| Sequencing.LoadStages | Firmware/MotorControl/main.cpp:107-110 | no pop happens unless `start_load` returned true; no apply happens unless every pop and `finish_load` returned true |
| NvmConfig.ConfigManager.PrepareStore | Firmware/MotorControl/main.cpp:93 | sizing the store leaves storage untouched |
| NvmConfig.ConfigManager.StartStore | Firmware/MotorControl/main.cpp:95 | on success, the region is opened for writing and is empty; in every case the completion marker is gone |
| NvmConfig.ConfigManager.Push | Firmware/MotorControl/main.cpp:47-57 | a pushed block reaches storage only while a store is being written, and is appended there |
| NvmConfig.ConfigManager.FinishStore | Firmware/MotorControl/main.cpp:97 | on success the completion marker is written; on failure nothing changes |
| NvmConfig.ConfigManager.StartLoad | Firmware/MotorControl/main.cpp:107 | a region without a completion marker cannot be opened; on success, reading starts at the first block |
| NvmConfig.ConfigManager.Pop | Firmware/MotorControl/main.cpp:30-40 | a pop yields the next stored block and advances the cursor; a failed pop changes nothing |
| NvmConfig.ConfigManager.FinishLoad | Firmware/MotorControl/main.cpp:109 | the read session is closed |
| Firmware.ODrive.constructor | Firmware/MotorControl/main.cpp:13-23 | at power-up every configuration global reads as `{}`, and `user_config_loaded_` is false |
| Firmware.ODrive.BoardPushConfig | Firmware/MotorControl/main.cpp:46 | the board step of a push walk is one logged call |
| Firmware.ODrive.BoardPopConfig | Firmware/MotorControl/main.cpp:29 | the board step of a pop walk is one logged call |
| Firmware.ODrive.PushSlot | Firmware/MotorControl/main.cpp:47 | `config_manager.push(&record)` hands over the current record of the slot |
| Firmware.ODrive.PopSlot | Firmware/MotorControl/main.cpp:30 | `config_manager.pop(&record)` overwrites exactly that record with the next stored block; a failed pop changes no record |
| Firmware.ODrive.PushChain | Firmware/MotorControl/main.cpp:50-57 | the push chain over a list of slots short-circuits; while writing, on success it appends their records in order; outside a write, storage is untouched |
| Firmware.ODrive.PopChain | Firmware/MotorControl/main.cpp:33-40 | the pop chain over a list of slots short-circuits; on success it consumed exactly that many blocks and decoded them into those slots in order; whatever the outcome, it consumed blocks only for a prefix of the slots, decoded in order, and wrote no other record |
| Firmware.ODrive.PushAll | Firmware/MotorControl/main.cpp:45-60 | `config_push_all` is a short-circuited walk over the schema; it returns true iff every call returned true; while writing, on success storage gains the records of every slot in walk order; outside a write, storage is unchanged |
| Firmware.ODrive.PopAll | Firmware/MotorControl/main.cpp:28-43 | `config_pop_all` is a short-circuited walk over the same schema; it returns true iff every call returned true; on success RAM is the stored blocks decoded in walk order; after a failure, only a prefix of the walk received blocks and every other record is unchanged |
| Firmware.ODrive.ClearAll | Firmware/MotorControl/main.cpp:62-79 | afterwards every record holds its default (see DefaultBlockContents) |
| Firmware.ODrive.ClearAxis | Firmware/MotorControl/main.cpp:65-78 | one iteration resets the eight records of axis i to their defaults and changes no other record |
| Firmware.ODrive.ApplyEncoderConfig | Firmware/MotorControl/main.cpp:84 | the encoder apply of axis i is one logged call |
| Firmware.ODrive.ApplyMotorConfig | Firmware/MotorControl/main.cpp:85 | the motor apply of axis i is one logged call |
| Firmware.ODrive.ApplyAxis | Firmware/MotorControl/main.cpp:84-85 | the encoder is applied before the motor; the motor is applied only if the encoder apply returned true |
| Firmware.ODrive.ApplyAll | Firmware/MotorControl/main.cpp:81-88 | `config_apply_all` is the short-circuited apply walk; it returns true iff every apply returned true |
| Firmware.ODrive.SizingPass | Firmware/MotorControl/main.cpp:93-94 | `prepare_store && config_push_all` is a short-circuited chain and leaves storage unchanged |
| Firmware.ODrive.WritingPass | Firmware/MotorControl/main.cpp:95-97 | `start_store && config_push_all && finish_store` is a short-circuited chain; on success storage holds exactly the records of the walk in order, with the completion marker; on failure the completion marker is absent |
| Firmware.ODrive.SaveConfiguration | Firmware/MotorControl/main.cpp:92-104 | the five steps form one short-circuited chain. `user_config_loaded_` is set iff all five succeed, and otherwise keeps its value. On success, storage holds the serialised configuration and is committed. If `start_store` was never reached, storage and its marker are unchanged. A save that reaches `start_store` and then fails leaves storage uncommitted, so a later load fails and falls back to defaults |
| Firmware.ODrive.ReadingPass | Firmware/MotorControl/main.cpp:107-109 | `start_load && config_pop_all && finish_load` is a short-circuited chain; it fails when nothing was committed; on success RAM is the stored blocks decoded in walk order; after a failure, only a prefix of the walk received blocks and every other record is unchanged |
| Firmware.ODrive.LoadConfiguration | Firmware/MotorControl/main.cpp:106-118 | it returns 0 or -1, and 0 iff all four steps succeed. On 0, the flag is set and RAM holds the stored configuration. On -1, the flag keeps its value and every record holds its default, after which a short-circuited apply walk runs. A load never succeeds on uncommitted storage. Storage is never changed |
| Firmware.UnreadSlotsKept | Firmware/MotorControl/main.cpp:29-40 | once a pop fails, every slot after it in the walk still holds the record it held before the walk |
| Firmware.SaveLoadRoundTrip | Firmware/MotorControl/main.cpp:92-118 | after a successful save and a successful load, every configuration global holds the record it had when saved |
| I2cAddress.AddressOf | Firmware/MotorControl/main.cpp:165-168 | the address `0x68 \| A0 \| A1<<1 \| A2<<2` lies in 0x68 … 0x6F, its top five bits are 0b01101, and its low three bits are the pins |
| I2cAddress.ReadAddress | Firmware/MotorControl/main.cpp:165-168 | starting from `0xD << 3` and OR-ing in 0x1, 0x2, 0x4 gives `AddressOf` of the pins, and the pins can be read back from it |
| I2cAddress.PinsOfAddress | Firmware/MotorControl/main.cpp:165-168 | reading the pins back from the address gives the levels it was built from |
| I2cAddress.AddressOfPins | Firmware/MotorControl/main.cpp:165-168 | every address in 0x68 … 0x6F is produced by exactly the pins read back from it |
| I2cAddress.AddressInjective | Firmware/MotorControl/main.cpp:165-168 | boards whose address pins differ get different addresses |
| I2cAddress.SelectBus | Firmware/MotorControl/main.cpp:150-172 | I2C is chosen iff the board is v3 with minor version 3 or more and `enable_i2c_instead_of_can` is set, and then at the pin-derived address; otherwise CAN |
| Boot.BeforeThreadsStartsNothing | Firmware/MotorControl/main.cpp:249-300 | before the thread loop, every axis and every encoder has been set up and PWM and communication have started, and no thread has started |
| Boot.ThreadsStartLast | Firmware/MotorControl/main.cpp:289-317 | in a complete boot every other step precedes every thread start. Threads start in axis order, only for axes < AXIS_COUNT, and the analog thread starts last |
| Boot.TimersStartBeforePwm | Firmware/MotorControl/main.cpp:251-300 | `board_init`, which starts the timers, is the first step of a complete boot, and PWM is started only after it |
| Boot.BootTraceCovers | Firmware/MotorControl/main.cpp:289-315 | in a complete boot every axis is set up, gets its encoder set up and has its thread started |
| Boot.BootTraceClean | Firmware/MotorControl/main.cpp:257-292 | a complete boot contains no failed axis setup, and contains the UART pin routing exactly when it was asked for (`UartRouted`: a v3 board with minor version 3 or more, with UART enabled) |
| Boot.HungStopsAtFailure | Firmware/MotorControl/main.cpp:289-293 | a boot that hangs stops at the first failed axis: every earlier axis succeeded, and no encoder setup, PWM start or thread start happened |
| Boot.System.constructor | Firmware/MotorControl/main.cpp:23 | before boot, `fully_booted` is false and nothing has run |
| Boot.System.SetupAxis | Firmware/MotorControl/main.cpp:290 | `axes[i]->setup()` is one logged step with its result |
| Boot.System.SetupAxes | Firmware/MotorControl/main.cpp:289-293 | the setup loop either sets up every axis or stops at the first failing one |
| Boot.System.SetupEncoders | Firmware/MotorControl/main.cpp:295-297 | every encoder is set up, in axis order, with its result ignored |
| Boot.System.StartThreads | Firmware/MotorControl/main.cpp:313-315 | every axis thread is started, in axis order |
| Boot.System.OdriveMain | Firmware/MotorControl/main.cpp:249-321 | a boot either performs exactly the complete trace and sets `fully_booted`, or hangs at some axis < AXIS_COUNT with the flag unchanged and the trace ending at that failed setup |
| Boot.MinOf | Firmware/MotorControl/main.cpp:230 | the minimum of a non-empty sequence is one of its elements and no element is smaller |
| Boot.MinElement | Firmware/MotorControl/main.cpp:230 | the scan of `std::min_element` returns `MinOf` of the range |
| Boot.MinStackSpaceIsLeast | Firmware/MotorControl/main.cpp:228-230 | the corrected statistic is the headroom of some axis thread, and no axis thread has less |
| Boot.AsWrittenReportsAxisOne | Firmware/MotorControl/main.cpp:229-230 | as written, the statistic is axis 1's headroom whatever the other axes report |
| Boot.StackSpaceMisreported | Firmware/MotorControl/main.cpp:229 | with 10 and 50 words of headroom, the code as written reports 200 bytes, while the least headroom is 40 bytes |
| Boot.System.IdleHookAsWritten | Firmware/MotorControl/main.cpp:224-230 | the statistic is updated only when `fully_booted` is set, and then to axis 1's headroom in bytes |
| Boot.System.IdleHook | Firmware/MotorControl/main.cpp:224-230 | the statistic is updated only when `fully_booted` is set, and then to the least headroom over the axis threads |

## Left out

- `Firmware/Board/v3/board.cpp`: the hardware tables and GPIO maps, interrupt dispatch, the SPI arbiter and the synchronised timer start. Their implementations are not part of this model.
- HAL peripheral setup: GPIO modes, UART baud rate, the ADC pins, and CAN/I2C peripheral init. The model keeps only the bus choice and the address arithmetic, with the pin readings as inputs.
- Object construction with `new` and the `parent` back-pointers in `construct_objects`: heap wiring to classes that are not part of this model.
- The stack overflow hook's endless loop, and every idle-hook statistic except the axis stack space. The others are FreeRTOS queries copied into fields. This includes the `stack_usage_*` subtractions, which are unsigned 32-bit in the source.
- `osDelay`, the `printf` on a failed save, and timing in general.
- `erase_configuration` and `enter_dfu_mode`: each is a storage erase or flag write followed by a system reset.
- The configuration manager's implementation and the storage format, including checksums and the byte layout of the completion marker. The manager is modelled only through the effects of its operations. Its `start_store` drops the completion marker even when it fails, which is the cautious reading of an implementation this model does not see.
- `board_push_config` and `board_pop_config` are modelled as calls that never push or pop a block through the configuration manager. The round-trip lemmas (`ConfigSchema.LoadAfterStore`, `Firmware.SaveLoadRoundTrip`) rely on this. Board code is not part of this model.
- `Firmware.ODrive.PopSlot` and `NvmConfig.ConfigManager.Pop`: a failed pop is assumed to write nothing into the record or the cursor. This belongs to the manager's implementation, which is not part of this model. `Firmware.UnreadSlotsKept` relies on it for the slot whose pop failed.
- `Axis::load_default_step_dir_pin_config` and `Axis::load_default_can_id` are not shown in main.cpp. The model assumes they set the step/dir pins from the hardware description and the CAN node id to the axis index, and leave other fields alone.
- Record contents beyond the four fields named above (`load_encoder_axis`, CAN node id, step and dir pins); floating-point fields and constants.
- `axes[i]->setup()` and `start_thread()` are only logged: their effect on the axis objects is not modelled. A failed setup spins forever in `for (;;)`, which the model reports as the outcome `Hung`.
- `Boot.System.OdriveMain`: requires an empty trace, since `odrive_main` runs once, at start-up.
- `Boot.StackWordBytes`: `sizeof(StackType_t)` is taken to be 4, the word size of the Cortex-M4 FreeRTOS port. The statistic is unbounded here, while the source stores it in a 32-bit field.
- `I2cAddress.ReadAddress`: `i2c_stats_.addr` is taken to be an 8-bit field, since its declaration is not part of this model.

## Findings

| source | as written | input that shows it | evidently intended | confidence | as-written member | corrected member |
|---|---|---|---|---|---|---|
| Firmware/MotorControl/main.cpp:229 | The lambda passed to `std::transform` ignores its `axis` argument. It queries `axes[1]->thread_id_` for every axis, so `min_stack_space_axis` is always axis 1's headroom. | Stack high-water marks of 10 words for axis 0 and 50 words for axis 1. The code reports 200 bytes, but axis 0 has only 40 bytes left. | Query `axis->thread_id_` for each axis, so that the statistic is the least headroom over all axis threads. | high; not executed | Boot.System.IdleHookAsWritten, Boot.StackSpaceMisreported | Boot.System.IdleHook, Boot.MinStackSpaceIsLeast |

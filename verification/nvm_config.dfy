/**
 * The configuration manager that main.cpp drives through `prepare_store`,
 * `start_store`, `push`, `finish_store`, `start_load`, `pop` and
 * `finish_load`. Its implementation and the storage format are not part of
 * this model: each call may succeed or fail, and only its effect on the
 * abstract state when it succeeds is fixed.
 */
module NvmConfig {
  import opened ConfigSchema

  datatype Option<T> = None | Some(value: T)

  /** What the manager is doing: nothing, sizing a store, writing a store, or reading. */
  datatype Phase = Idle | Sizing | Writing | Reading

  class ConfigManager {
    var phase: Phase
    /** The blocks of the persisted region, in the order they were written. */
    var nvm: seq<Block>
    /** The region ends in the completion marker that finish_store writes. */
    var committed: bool
    /** Index of the block the next pop reads. */
    var cursor: nat

    /** A region that is being written never carries a completion marker, and reads stay inside the region. */
    ghost predicate Valid()
      reads this
    {
      (phase == Writing ==> !committed) && cursor <= |nvm|
    }

    /** The manager at power-up, over whatever the region held. */
    constructor (persisted: seq<Block>, complete: bool)
      ensures Valid()
      ensures phase == Idle && nvm == persisted && committed == complete && cursor == 0
    {
      phase, nvm, committed, cursor := Idle, persisted, complete, 0;
    }

    /** Starts a sizing pass; storage is not touched. */
    method PrepareStore() returns (ok: bool)
      requires Valid()
      modifies this`phase
      ensures Valid()
      ensures phase == if ok then Sizing else old(phase)
    {
      ok := *;
      if ok {
        phase := Sizing;
      }
    }

    /** Opens the region for writing: the old contents and their marker are gone. */
    method StartStore() returns (ok: bool)
      requires Valid()
      modifies this`phase, this`nvm, this`committed, this`cursor
      ensures Valid()
      ensures !committed
      ensures ok ==> phase == Writing && nvm == [] && cursor == 0
      ensures !ok ==> phase == old(phase) && nvm == old(nvm) && cursor == old(cursor)
    {
      ok := *;
      committed := false;
      if ok {
        phase, nvm, cursor := Writing, [], 0;
      }
    }

    /** Hands one block to the manager; it reaches storage only while a store is being written. */
    method Push(b: Block) returns (ok: bool)
      requires Valid()
      modifies this`nvm
      ensures Valid()
      ensures nvm == if ok && phase == Writing then old(nvm) + [b] else old(nvm)
    {
      ok := *;
      if ok && phase == Writing {
        nvm := nvm + [b];
      }
    }

    /** Writes the completion marker. */
    method FinishStore() returns (ok: bool)
      requires Valid()
      modifies this`committed, this`phase
      ensures Valid()
      ensures ok ==> committed && phase == Idle
      ensures !ok ==> committed == old(committed) && phase == old(phase)
    {
      ok := *;
      if ok {
        committed, phase := true, Idle;
      }
    }

    /** Opens the region for reading; fails when it carries no completion marker. */
    method StartLoad() returns (ok: bool)
      requires Valid()
      modifies this`phase, this`cursor
      ensures Valid()
      ensures ok ==> committed && phase == Reading && cursor == 0
      ensures !ok ==> phase == old(phase) && cursor == old(cursor)
    {
      ok := *;
      if !committed {
        ok := false;
      }
      if ok {
        phase, cursor := Reading, 0;
      }
    }

    /** Reads the next block; fails past the end of the region. */
    method Pop() returns (r: Option<Block>)
      requires Valid()
      modifies this`cursor
      ensures Valid()
      ensures r.Some? ==> old(cursor) < |nvm| && r.value == nvm[old(cursor)] && cursor == old(cursor) + 1
      ensures r.None? ==> cursor == old(cursor)
    {
      var ok: bool := *;
      if ok && cursor < |nvm| {
        r := Some(nvm[cursor]);
        cursor := cursor + 1;
      } else {
        r := None;
      }
    }

    /** Closes a read session. */
    method FinishLoad() returns (ok: bool)
      requires Valid()
      modifies this`phase
      ensures Valid()
      ensures phase == Idle
    {
      ok := *;
      phase := Idle;
    }
  }
}

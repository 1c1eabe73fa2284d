/**
 * The discovery cursor (`DorkState` in discovery.py): which dork query the
 * next batch starts at, when a batch last ran and how many domains all
 * batches have found. The state file is a value: `None` when it is missing
 * or does not parse, and otherwise the keys it holds, each possibly absent.
 */
module Cursor {

  import opened Wrappers

  /** The keys of the state file: `query_index`, `last_run`, `total_discovered`. */
  datatype StateFile = StateFile(
    queryIndex: Option<int>,
    lastRun: Option<string>,
    totalDiscovered: Option<int>)

  /** The fields of a `DorkState`. */
  datatype Position = Position(queryIndex: int, lastRun: Option<string>, totalDiscovered: int)

  /** Where a run starts from: every key the file lacks takes its default, and no file means the defaults throughout. */
  function Load(stored: Option<StateFile>): (p: Position)
    ensures stored.None? ==> p == Position(0, None, 0)
    ensures stored.Some? ==> p.queryIndex == stored.value.queryIndex.GetOr(0)
    ensures stored.Some? ==> p.lastRun == stored.value.lastRun
    ensures stored.Some? ==> p.totalDiscovered == stored.value.totalDiscovered.GetOr(0)
  {
    match stored
    case None => Position(0, None, 0)
    case Some(f) => Position(f.queryIndex.GetOr(0), f.lastRun, f.totalDiscovered.GetOr(0))
  }

  /** A file with none of the keys starts a run exactly where a missing file does. */
  lemma EmptyFileIsFresh()
    ensures Load(Some(StateFile(None, None, None))) == Load(None)
    ensures Load(None).queryIndex == 0 && Load(None).totalDiscovered == 0 && Load(None).lastRun.None?
  {
  }

  /**
   * Every position is recorded by a file holding all three keys, and loading
   * that file gives the position back; one key missing resets just that field.
   */
  lemma LoadRecorded(p: Position)
    ensures Load(Some(StateFile(Some(p.queryIndex), p.lastRun, Some(p.totalDiscovered)))) == p
    ensures Load(Some(StateFile(None, p.lastRun, Some(p.totalDiscovered)))) == p.(queryIndex := 0)
    ensures Load(Some(StateFile(Some(p.queryIndex), p.lastRun, None))) == p.(totalDiscovered := 0)
  {
  }

  /** `DorkState`. */
  class DorkState {
    var queryIndex: int
    var lastRun: Option<string>
    var totalDiscovered: int

    /** The fields, as one value. */
    function Current(): Position
      reads this
    {
      Position(queryIndex, lastRun, totalDiscovered)
    }

    /** `DorkState(filepath)`: the position the state file records, or the start when there is none. */
    constructor(stored: Option<StateFile>)
      ensures Current() == Load(stored)
    {
      var p := Load(stored);
      queryIndex := p.queryIndex;
      lastRun := p.lastRun;
      totalDiscovered := p.totalDiscovered;
    }

    /** `advance(steps)`: the cursor moves on by exactly `steps`; nothing else changes. */
    method Advance(steps: int)
      modifies this
      ensures queryIndex == old(queryIndex) + steps
      ensures lastRun == old(lastRun) && totalDiscovered == old(totalDiscovered)
    {
      queryIndex := queryIndex + steps;
    }

    /** `reset`: back to the first query with nothing discovered; the last run time is kept. */
    method Reset()
      modifies this
      ensures Current() == Position(0, old(lastRun), 0)
    {
      queryIndex := 0;
      totalDiscovered := 0;
    }

    /**
     * `save`: the file records the cursor, the count and the time of saving,
     * so that loading it again gives back the cursor and the count. The object
     * itself keeps its old `last_run`.
     */
    method Save(now: string) returns (file: StateFile)
      ensures Load(Some(file)) == Current().(lastRun := Some(now))
      ensures file.queryIndex.Some? && file.lastRun.Some? && file.totalDiscovered.Some?
    {
      file := StateFile(Some(queryIndex), Some(now), Some(totalDiscovered));
    }
  }
}

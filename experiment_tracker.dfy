/**
 * `ExperimentTracker` (cafe/experiments/experiment_tracker.py): an append-only log of model
 * runs. The uuid4 run id and the ISO timestamp of the clock are given by the caller.
 */
module Experiments {
  import opened Py

  /** One logged run, the dict `log_run` appends. */
  datatype Run = Run(runId: string, model: string, parameters: Obj, metrics: Obj, notes: string, timestamp: string)

  class ExperimentTracker {
    /** `self.runs`, in logging order. */
    var runs: seq<Run>

    constructor()
      ensures runs == []
    {
      runs := [];
    }

    /**
     * `log_run`: append a run recording the arguments as given, under the id `runId`, and
     * return that id; earlier runs stay as they were, in their order.
     */
    method LogRun(model: string, parameters: Obj, metrics: Obj, runId: string, timestamp: string, notes: string := "")
      returns (id: string)
      modifies this
      ensures id == runId
      ensures |runs| == |old(runs)| + 1 && runs[..|old(runs)|] == old(runs)
      ensures runs[|runs| - 1] == Run(id, model, parameters, metrics, notes, timestamp)
    {
      runs := runs + [Run(runId, model, parameters, metrics, notes, timestamp)];
      id := runId;
    }

    /** `list_runs`: the runs in the order they were logged. */
    method ListRuns() returns (r: seq<Run>)
      ensures r == runs
    {
      r := runs;
    }
  }

  /**
   * One run logged on a fresh tracker is its only run, under the returned id, with the model
   * and notes it was given.
   */
  method SingleRunScenario(runId: string, timestamp: string) returns (id: string, listed: seq<Run>)
    ensures |listed| == 1
    ensures listed[0].runId == id && listed[0].model == "test-model" && listed[0].notes == "Test run"
    ensures listed[0].parameters == map["param1" := Int(1)]
  {
    var tracker := new ExperimentTracker();
    id := tracker.LogRun("test-model", map["param1" := Int(1)], map[], runId, timestamp, "Test run");
    listed := tracker.ListRuns();
  }

  /** Two runs are listed in the order they were logged; a run logged without notes has "". */
  method TwoRunsScenario(firstId: string, secondId: string, timestamp: string) returns (listed: seq<Run>)
    ensures |listed| == 2
    ensures listed[0].runId == firstId && listed[0].model == "a"
    ensures listed[1].runId == secondId && listed[1].model == "b" && listed[1].notes == ""
  {
    var tracker := new ExperimentTracker();
    var a := tracker.LogRun("a", map[], map[], firstId, timestamp, "first");
    var b := tracker.LogRun("b", map[], map[], secondId, timestamp);
    listed := tracker.ListRuns();
  }
}

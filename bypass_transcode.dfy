/** The bypass-transcode task registry (`BypassTranscodeManager`): relay tasks
    that forward a stream from one protocol to another without re-encoding,
    validated against three fixed vocabularies and mirrored into the store
    under `bypass_transcode:<id>`. */
module BypassTranscode {
  import opened Common
  import opened KeyValue

  datatype BypassTranscodeConfig = BypassTranscodeConfig(
    id: string,
    name: string,
    inputType: string,    // hls, srt, rtmp
    inputUrl: string,
    outputType: string,   // rtmp, hls, srt
    outputUrl: string,
    enabled: bool,
    createdAt: int,
    updatedAt: int,
    status: string,       // active, inactive, error
    lastError: string,
    bypassMode: string,   // passthrough, filter
    filters: seq<string>)

  const KeyPrefix: string := "bypass_transcode:"

  function StoreKey(id: string): string {
    PrefixedKey(KeyPrefix, id)
  }

  const InputTypes: set<string> := {"hls", "srt", "rtmp"}
  const OutputTypes: set<string> := {"rtmp", "hls", "srt"}
  const BypassModes: set<string> := {"passthrough", "filter"}

  /** `validateConfig`: the three switches, checked in order; the first one
      that fails names the offending field. */
  function ValidateConfig(config: BypassTranscodeConfig): (r: Outcome)
    ensures r.Ok? <==>
      config.inputType in InputTypes && config.outputType in OutputTypes && config.bypassMode in BypassModes
    ensures config.inputType !in InputTypes ==> r == Fail(InvalidValue("input type", config.inputType))
    ensures config.inputType in InputTypes && config.outputType !in OutputTypes ==>
      r == Fail(InvalidValue("output type", config.outputType))
    ensures config.inputType in InputTypes && config.outputType in OutputTypes && config.bypassMode !in BypassModes ==>
      r == Fail(InvalidValue("bypass mode", config.bypassMode))
  {
    if !(config.inputType == "hls" || config.inputType == "srt" || config.inputType == "rtmp") then
      Fail(InvalidValue("input type", config.inputType))
    else if !(config.outputType == "rtmp" || config.outputType == "hls" || config.outputType == "srt") then
      Fail(InvalidValue("output type", config.outputType))
    else if !(config.bypassMode == "passthrough" || config.bypassMode == "filter") then
      Fail(InvalidValue("bypass mode", config.bypassMode))
    else
      Ok
  }

  /** Validation looks only at the three typed fields: time stamps, status,
      id and everything else a manager rewrites leave the verdict unchanged. */
  lemma ValidationIgnoresOtherFields(a: BypassTranscodeConfig, b: BypassTranscodeConfig)
    requires a.inputType == b.inputType && a.outputType == b.outputType && a.bypassMode == b.bypassMode
    ensures ValidateConfig(a) == ValidateConfig(b)
  {
  }

  /** `ApplyFilters`: the filter stage is a placeholder that hands the stream
      data back unchanged and never reports an error, whatever the filters. */
  function ApplyFilters(data: seq<bv8>, filters: seq<string>): (r: (seq<bv8>, Option<Error>))
    ensures r.0 == data && r.1 == None
  {
    (data, None)
  }

  /** Every stored task is filed under its own, non-empty id and passes
      validation. */
  ghost predicate ValidState(tasks: map<string, BypassTranscodeConfig>) {
    && "" !in tasks
    && forall id :: id in tasks ==> tasks[id].id == id && ValidateConfig(tasks[id]).Ok?
  }

  class BypassTranscodeManager {
    var tasks: map<string, BypassTranscodeConfig>
    const rdb: Store<BypassTranscodeConfig>

    ghost predicate Valid()
      reads this
    {
      ValidState(tasks)
    }

    ghost predicate Mirrored()
      reads this, rdb
    {
      Mirrors(KeyPrefix, rdb.data, tasks)
    }

    constructor (rdb: Store<BypassTranscodeConfig>)
      ensures Valid() && Mirrored()
      ensures this.rdb == rdb && tasks == map[]
    {
      this.rdb := rdb;
      tasks := map[];
    }

    /** `CreateTask`: fill the id, time stamps and status, validate, write the
        store, then install. The filled-in record is returned whatever the
        outcome, as the caller's record is rewritten in place. */
    method CreateTask(config: BypassTranscodeConfig, freshId: Uuid, now: int, online: bool)
      returns (out: BypassTranscodeConfig, err: Outcome)
      requires Valid()
      modifies this, rdb
      ensures Valid()
      ensures out == config.(id := if config.id == "" then freshId else config.id,
                             createdAt := now, updatedAt := now, status := "inactive")
      ensures err ==
        if ValidateConfig(config).Fail? then ValidateConfig(config)
        else if !online then Fail(StoreWrite)
        else Ok
      ensures err.Ok? ==> out.id != "" && tasks == old(tasks)[out.id := out]
                          && rdb.data == old(rdb.data)[StoreKey(out.id) := out]
      ensures err.Fail? ==> tasks == old(tasks) && rdb.data == old(rdb.data)
      ensures old(Mirrored()) ==> Mirrored()
    {
      out := config;
      if out.id == "" {
        out := out.(id := freshId);
      }
      out := out.(createdAt := now, updatedAt := now, status := "inactive");
      ValidationIgnoresOtherFields(config, out);
      err := ValidateConfig(out);
      if err.Ok? {
        var ok := rdb.Set(StoreKey(out.id), out, online);
        if !ok {
          err := Fail(StoreWrite);
        } else {
          tasks := tasks[out.id := out];
          if old(Mirrored()) {
            MirrorsAfterInstall(KeyPrefix, old(rdb.data), old(tasks), out.id, out);
          }
        }
      }
    }

    /** `UpdateTask`: the id must name an existing task; the creation time of
        the existing task is kept; the new record must validate. */
    method UpdateTask(config: BypassTranscodeConfig, now: int, online: bool)
      returns (out: BypassTranscodeConfig, err: Outcome)
      requires Valid()
      modifies this, rdb
      ensures Valid()
      ensures err ==
        if config.id == "" then Fail(Required("task ID"))
        else if config.id !in old(tasks) then Fail(NotFound("task", config.id))
        else if ValidateConfig(config).Fail? then ValidateConfig(config)
        else if !online then Fail(StoreWrite)
        else Ok
      ensures config.id in old(tasks) ==>
        out == config.(updatedAt := now, createdAt := old(tasks)[config.id].createdAt)
      ensures config.id !in old(tasks) ==> out == config
      ensures err.Ok? ==> tasks == old(tasks)[config.id := out] && rdb.data == old(rdb.data)[StoreKey(config.id) := out]
      ensures err.Fail? ==> tasks == old(tasks) && rdb.data == old(rdb.data)
      ensures old(Mirrored()) ==> Mirrored()
    {
      out := config;
      if config.id == "" {
        return out, Fail(Required("task ID"));
      }
      if config.id !in tasks {
        return out, Fail(NotFound("task", config.id));
      }
      out := out.(updatedAt := now, createdAt := tasks[config.id].createdAt);
      ValidationIgnoresOtherFields(config, out);
      err := ValidateConfig(out);
      if err.Ok? {
        var ok := rdb.Set(StoreKey(out.id), out, online);
        if !ok {
          err := Fail(StoreWrite);
        } else {
          tasks := tasks[out.id := out];
          if old(Mirrored()) {
            MirrorsAfterInstall(KeyPrefix, old(rdb.data), old(tasks), out.id, out);
          }
        }
      }
    }

    /** `DeleteTask`: an empty id is refused; otherwise the store entry is
        removed and then the task, whether or not it existed. */
    method DeleteTask(taskID: string, online: bool) returns (err: Outcome)
      requires Valid()
      modifies this, rdb
      ensures Valid()
      ensures err ==
        if taskID == "" then Fail(Required("task ID"))
        else if !online then Fail(StoreDelete)
        else Ok
      ensures err.Ok? ==> tasks == old(tasks) - {taskID} && rdb.data == old(rdb.data) - {StoreKey(taskID)}
      ensures err.Fail? ==> tasks == old(tasks) && rdb.data == old(rdb.data)
      ensures old(Mirrored()) ==> Mirrored()
    {
      if taskID == "" {
        return Fail(Required("task ID"));
      }
      var ok := rdb.Del(StoreKey(taskID), online);
      if !ok {
        return Fail(StoreDelete);
      }
      tasks := tasks - {taskID};
      err := Ok;
      if old(Mirrored()) {
        MirrorsAfterDelete(KeyPrefix, old(rdb.data), old(tasks), taskID);
      }
    }

    /** `GetAllTasks`: every task once, in no particular order. */
    method GetAllTasks() returns (r: seq<BypassTranscodeConfig>)
      ensures exists ks :: Enumerates(ks, tasks.Keys) && ListsValues(r, tasks, ks)
      ensures |r| == |tasks|
    {
      r := [];
      ghost var ks: seq<string> := [];
      var rest := tasks.Keys;
      while rest != {}
        invariant rest <= tasks.Keys
        invariant Enumerates(ks, tasks.Keys - rest)
        invariant ListsValues(r, tasks, ks)
        decreases rest
      {
        var k :| k in rest;
        r := r + [tasks[k]];
        ks := ks + [k];
        rest := rest - {k};
      }
      assert tasks.Keys - rest == tasks.Keys;
      EnumerationLength(ks, tasks.Keys);
    }

    /** `GetTask`: the task filed under `taskID`, if any. */
    function GetTask(taskID: string): (r: Option<BypassTranscodeConfig>)
      reads this
      ensures r.Some? <==> taskID in tasks
      ensures r.Some? ==> r.value == tasks[taskID]
    {
      if taskID in tasks then Some(tasks[taskID]) else None
    }

    /** `StartTask` together with the effect of `processBypassTranscode`, run
        here to completion: the stored task itself is marked active and then
        handed to `UpdateTask`, whose result is dropped. */
    method StartTask(taskID: string, now: int, online: bool) returns (err: Outcome)
      requires Valid()
      modifies this, rdb
      ensures Valid()
      ensures err == if taskID in old(tasks) then Ok else Fail(NotFound("task", taskID))
      ensures err.Ok? ==>
        var active := old(tasks)[taskID].(status := "active", updatedAt := now);
        && tasks == old(tasks)[taskID := active]
        && rdb.data == if online then old(rdb.data)[StoreKey(taskID) := active] else old(rdb.data)
      ensures err.Fail? ==> tasks == old(tasks) && rdb.data == old(rdb.data)
      ensures online && old(Mirrored()) ==> Mirrored()
    {
      if GetTask(taskID).None? {
        return Fail(NotFound("task", taskID));
      }
      var task := tasks[taskID].(status := "active", updatedAt := now);
      ValidationIgnoresOtherFields(tasks[taskID], task);
      tasks := tasks[taskID := task];
      var _, _ := UpdateTask(task, now, online);
      err := Ok;
      if online && old(Mirrored()) {
        MirrorsAfterInstall(KeyPrefix, old(rdb.data), old(tasks), task.id, task);
      }
    }
  }

  const TaskA: Uuid := "7a7a7a7a-0000-4000-8000-000000000001"

  /** A relay whose bypass mode is not one of the two known ones is refused
      and leaves nothing behind; with the mode corrected it is installed. */
  method ValidationScenario() returns (refused: Outcome, accepted: Outcome, stored: Option<BypassTranscodeConfig>)
    ensures refused == Fail(InvalidValue("bypass mode", "transcode"))
    ensures accepted == Ok
    ensures stored.Some? && stored.value.status == "inactive" && stored.value.id == TaskA
  {
    var store := new Store<BypassTranscodeConfig>();
    var m := new BypassTranscodeManager(store);
    var relay := BypassTranscodeConfig("", "relay", "srt", "srt://in", "rtmp", "rtmp://out",
                                       true, 0, 0, "", "", "transcode", ["scte35"]);
    var _, r := m.CreateTask(relay, TaskA, 100, true);
    refused := r;
    assert m.tasks == map[];
    var _, a := m.CreateTask(relay.(bypassMode := "passthrough"), TaskA, 100, true);
    accepted := a;
    stored := m.GetTask(TaskA);
  }
}

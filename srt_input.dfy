/** The SRT input registry (`SRTInputManager`): SRT input descriptors mirrored
    into the store under `srt_input:<id>`, and the ephemeral sessions bound to
    them, admitted at most `MaxStreams` (always 2) per input. */
module SrtInput {
  import opened Common
  import opened KeyValue

  datatype SrtInputConfig = SrtInputConfig(
    id: string,
    name: string,
    port: int,             // SRT with stream id
    portNoStreamId1: int,  // SRT without stream id, stream 1
    portNoStreamId2: int,  // SRT without stream id, stream 2
    enabled: bool,
    createdAt: int,
    updatedAt: int,
    status: string,        // active, inactive, error
    lastError: string,
    streamCount: int,      // cached number of sessions
    maxStreams: int)

  /** One connected SRT session; never persisted. */
  datatype SrtStream = SrtStream(
    id: string,
    inputId: string,
    streamId: string,
    status: string,        // connected, disconnected
    connected: int,
    ip: string,
    port: int)

  const KeyPrefix: string := "srt_input:"
  const FixedMaxStreams: int := 2
  const DefaultPort: int := 10080
  const DefaultPortNoStreamId1: int := 10081
  const DefaultPortNoStreamId2: int := 10082

  function StoreKey(id: string): string {
    KeyPrefix + id
  }

  /** The keys among `ks` of the sessions bound to input `id`. */
  function SessionsIn(streams: map<string, SrtStream>, id: string, ks: set<string>): set<string> {
    set k | k in ks && k in streams && streams[k].inputId == id
  }

  /** The keys of all sessions bound to input `id`. */
  function SessionsOf(streams: map<string, SrtStream>, id: string): set<string> {
    SessionsIn(streams, id, streams.Keys)
  }

  function SessionCount(streams: map<string, SrtStream>, id: string): nat {
    |SessionsOf(streams, id)|
  }

  /** The sessions left once those of input `id` are dropped. */
  function SessionsWithout(streams: map<string, SrtStream>, id: string): map<string, SrtStream> {
    map k | k in streams && streams[k].inputId != id :: streams[k]
  }

  /** Installing a session adds at most one to the count of its own input and
      nothing to any other's; exactly one when the session id is new. */
  lemma SessionCountAfterInsert(streams: map<string, SrtStream>, k: string, s: SrtStream, id: string)
    ensures SessionCount(streams[k := s], id) <= SessionCount(streams, id) + (if s.inputId == id then 1 else 0)
    ensures k !in streams ==>
      SessionCount(streams[k := s], id) == SessionCount(streams, id) + (if s.inputId == id then 1 else 0)
  {
    var before := SessionsOf(streams, id);
    var after := SessionsOf(streams[k := s], id);
    var kept := before - {k};
    assert after == if s.inputId == id then kept + {k} else kept;
    assert |kept| <= |before|;
    if k !in streams {
      assert kept == before;
    }
  }

  /** Dropping a session takes exactly one off the count of its own input. */
  lemma SessionCountAfterRemove(streams: map<string, SrtStream>, k: string, id: string)
    requires k in streams
    ensures SessionCount(streams - {k}, id) ==
            SessionCount(streams, id) - (if streams[k].inputId == id then 1 else 0)
  {
    var before := SessionsOf(streams, id);
    var after := SessionsOf(streams - {k}, id);
    assert after == before - {k};
  }

  /** The inputs with the cached session count of input `id` set to `c`. */
  function Recounted(inputs: map<string, SrtInputConfig>, id: string, c: int): map<string, SrtInputConfig>
    requires id in inputs
  {
    inputs[id := inputs[id].(streamCount := c)]
  }

  /** The capacity invariant: no input has more sessions than its ceiling. */
  ghost predicate WithinCeiling(inputs: map<string, SrtInputConfig>, streams: map<string, SrtStream>) {
    forall id :: id in inputs ==> SessionCount(streams, id) <= inputs[id].maxStreams
  }

  /** Admitting a session to an input below its ceiling (and refreshing that
      input's cached count) keeps every input within its ceiling, even if the
      session id were already in use. */
  lemma AdmitWithinCeiling(inputs: map<string, SrtInputConfig>, streams: map<string, SrtStream>,
                           sid: string, s: SrtStream, refreshed: SrtInputConfig)
    requires WithinCeiling(inputs, streams)
    requires s.inputId in inputs && SessionCount(streams, s.inputId) < inputs[s.inputId].maxStreams
    requires refreshed.maxStreams == inputs[s.inputId].maxStreams
    ensures WithinCeiling(inputs[s.inputId := refreshed], streams[sid := s])
  {
    forall id | id in inputs
      ensures SessionCount(streams[sid := s], id) <= inputs[id].maxStreams
    {
      SessionCountAfterInsert(streams, sid, s, id);
    }
  }

  /** No input id is empty; every input is filed under its own id with the
      fixed ceiling; every session is filed under its own id and bound to an
      existing input; and no input has more sessions than its ceiling. */
  ghost predicate ValidState(inputs: map<string, SrtInputConfig>, streams: map<string, SrtStream>) {
    && "" !in inputs
    && (forall id :: id in inputs ==> inputs[id].id == id && inputs[id].maxStreams == FixedMaxStreams)
    && (forall k :: k in streams ==> streams[k].id == k && streams[k].inputId in inputs)
    && WithinCeiling(inputs, streams)
  }

  /** Installing (creating or replacing) an input with the fixed ceiling keeps
      the invariant: a new input has no sessions yet. */
  lemma InstallKeepsValid(inputs: map<string, SrtInputConfig>, streams: map<string, SrtStream>, rec: SrtInputConfig)
    requires ValidState(inputs, streams)
    requires rec.id != "" && rec.maxStreams == FixedMaxStreams
    ensures ValidState(inputs[rec.id := rec], streams)
  {
    if rec.id !in inputs {
      assert SessionsOf(streams, rec.id) == {};
    }
  }

  /** Admitting a session below the ceiling keeps the invariant. */
  lemma AdmitKeepsValid(inputs: map<string, SrtInputConfig>, streams: map<string, SrtStream>,
                        sid: string, s: SrtStream, refreshed: SrtInputConfig)
    requires ValidState(inputs, streams)
    requires s.id == sid && s.inputId in inputs && SessionCount(streams, s.inputId) < inputs[s.inputId].maxStreams
    requires refreshed == inputs[s.inputId].(streamCount := refreshed.streamCount)
    ensures ValidState(inputs[s.inputId := refreshed], streams[sid := s])
  {
    AdmitWithinCeiling(inputs, streams, sid, s, refreshed);
  }

  /** Releasing a session keeps the invariant. */
  lemma ReleaseKeepsValid(inputs: map<string, SrtInputConfig>, streams: map<string, SrtStream>, sid: string)
    requires ValidState(inputs, streams) && sid in streams
    ensures ValidState(inputs, streams - {sid})
  {
    forall id | id in inputs
      ensures SessionCount(streams - {sid}, id) <= inputs[id].maxStreams
    {
      SessionCountAfterRemove(streams, sid, id);
    }
  }

  /** Changing the cached session count of an input keeps the invariant. */
  lemma RecountKeepsValid(inputs: map<string, SrtInputConfig>, streams: map<string, SrtStream>, id: string, c: int)
    requires ValidState(inputs, streams) && id in inputs
    ensures ValidState(Recounted(inputs, id, c), streams)
  {
    assert Recounted(inputs, id, c).Keys == inputs.Keys;
  }

  /** Dropping an input together with its sessions keeps the invariant. */
  lemma DeleteKeepsValid(inputs: map<string, SrtInputConfig>, streams: map<string, SrtStream>, id: string)
    requires ValidState(inputs, streams)
    ensures ValidState(inputs - {id}, SessionsWithout(streams, id))
  {
    forall other | other in inputs - {id}
      ensures SessionCount(SessionsWithout(streams, id), other) <= inputs[other].maxStreams
    {
      assert SessionsOf(SessionsWithout(streams, id), other) == SessionsOf(streams, other);
    }
  }

  class SrtInputManager {
    var inputs: map<string, SrtInputConfig>
    var streams: map<string, SrtStream>
    const rdb: Store<SrtInputConfig>

    /** The registry invariant, `ValidState`, of the two maps. */
    ghost predicate Valid()
      reads this
    {
      ValidState(inputs, streams)
    }

    /** The store holds the in-memory record of every input, except that the
        cached session count is only kept in memory. */
    ghost predicate Mirrored()
      reads this, rdb
    {
      MirroredState(rdb.data, inputs)
    }

    constructor (rdb: Store<SrtInputConfig>)
      ensures Valid() && Mirrored()
      ensures this.rdb == rdb && inputs == map[] && streams == map[]
    {
      this.rdb := rdb;
      inputs := map[];
      streams := map[];
    }

    /** `CreateInput`: fill the id, time stamps, status, ceiling and default
        ports, check the three ports, write the store, then install. */
    method CreateInput(config: SrtInputConfig, freshId: Uuid, now: int, online: bool)
      returns (out: SrtInputConfig, err: Outcome)
      requires Valid()
      modifies this, rdb
      ensures Valid()
      ensures out == config.(
        id := if config.id == "" then freshId else config.id,
        createdAt := now, updatedAt := now, status := "inactive", maxStreams := FixedMaxStreams,
        port := if config.port <= 0 then DefaultPort else config.port,
        portNoStreamId1 := if config.portNoStreamId1 <= 0 then DefaultPortNoStreamId1 else config.portNoStreamId1,
        portNoStreamId2 := if config.portNoStreamId2 <= 0 then DefaultPortNoStreamId2 else config.portNoStreamId2)
      ensures err ==
        if config.port > MaxPort then Fail(InvalidPort("port", config.port))
        else if config.portNoStreamId1 > MaxPort then Fail(InvalidPort("portNoStreamId1", config.portNoStreamId1))
        else if config.portNoStreamId2 > MaxPort then Fail(InvalidPort("portNoStreamId2", config.portNoStreamId2))
        else if !online then Fail(StoreWrite)
        else Ok
      ensures err.Ok? ==> out.id != "" && PortInRange(out.port) && PortInRange(out.portNoStreamId1) && PortInRange(out.portNoStreamId2)
      ensures err.Ok? ==> inputs == old(inputs)[out.id := out] && rdb.data == old(rdb.data)[StoreKey(out.id) := out]
      ensures err.Fail? ==> inputs == old(inputs) && rdb.data == old(rdb.data)
      ensures streams == old(streams)
      ensures old(Mirrored()) ==> Mirrored()
    {
      out := config;
      if out.id == "" {
        out := out.(id := freshId);
      }
      out := out.(createdAt := now, updatedAt := now, status := "inactive", maxStreams := FixedMaxStreams);
      if out.port <= 0 {
        out := out.(port := DefaultPort);
      }
      if out.portNoStreamId1 <= 0 {
        out := out.(portNoStreamId1 := DefaultPortNoStreamId1);
      }
      if out.portNoStreamId2 <= 0 {
        out := out.(portNoStreamId2 := DefaultPortNoStreamId2);
      }
      assert out.id != "" && out.maxStreams == FixedMaxStreams;
      if out.port <= 0 || out.port > MaxPort {
        err := Fail(InvalidPort("port", out.port));
      } else if out.portNoStreamId1 <= 0 || out.portNoStreamId1 > MaxPort {
        err := Fail(InvalidPort("portNoStreamId1", out.portNoStreamId1));
      } else if out.portNoStreamId2 <= 0 || out.portNoStreamId2 > MaxPort {
        err := Fail(InvalidPort("portNoStreamId2", out.portNoStreamId2));
      } else {
        var ok := rdb.Set(StoreKey(out.id), out, online);
        if !ok {
          err := Fail(StoreWrite);
        } else {
          InstallKeepsValid(inputs, streams, out);
          inputs := inputs[out.id := out];
          err := Ok;
          if old(Mirrored()) {
            MirrorAfterInstall(old(rdb.data), old(inputs), out);
          }
        }
      }
    }

    /** `UpdateInput`: the id must name an existing input; the original
        creation time and the fixed ceiling are kept whatever the caller sent. */
    method UpdateInput(config: SrtInputConfig, now: int, online: bool)
      returns (out: SrtInputConfig, err: Outcome)
      requires Valid()
      modifies this, rdb
      ensures Valid()
      ensures err ==
        if config.id == "" then Fail(Required("input ID"))
        else if config.id !in old(inputs) then Fail(NotFound("input", config.id))
        else if !online then Fail(StoreWrite)
        else Ok
      ensures config.id in old(inputs) ==>
        out == config.(updatedAt := now, createdAt := old(inputs)[config.id].createdAt, maxStreams := FixedMaxStreams)
      ensures config.id !in old(inputs) ==> out == config
      ensures err.Ok? ==> inputs == old(inputs)[config.id := out] && rdb.data == old(rdb.data)[StoreKey(config.id) := out]
      ensures err.Fail? ==> inputs == old(inputs) && rdb.data == old(rdb.data)
      ensures streams == old(streams)
      ensures old(Mirrored()) ==> Mirrored()
    {
      out := config;
      if config.id == "" {
        return out, Fail(Required("input ID"));
      }
      if config.id !in inputs {
        return out, Fail(NotFound("input", config.id));
      }
      var existing := inputs[config.id];
      out := out.(updatedAt := now, createdAt := existing.createdAt, maxStreams := FixedMaxStreams);
      var ok := rdb.Set(StoreKey(out.id), out, online);
      if !ok {
        return out, Fail(StoreWrite);
      }
      InstallKeepsValid(inputs, streams, out);
      inputs := inputs[out.id := out];
      err := Ok;
      if old(Mirrored()) {
        MirrorAfterInstall(old(rdb.data), old(inputs), out);
      }
    }

    /** `DeleteInput`: remove the store entry first; only then drop every
        session of the input and the input itself. */
    method DeleteInput(inputID: string, online: bool) returns (err: Outcome)
      requires Valid()
      modifies this, rdb
      ensures Valid()
      ensures err ==
        if inputID == "" then Fail(Required("input ID"))
        else if !online then Fail(StoreDelete)
        else Ok
      ensures err.Ok? ==>
        && inputs == old(inputs) - {inputID}
        && streams == SessionsWithout(old(streams), inputID)
        && rdb.data == old(rdb.data) - {StoreKey(inputID)}
      ensures err.Fail? ==> inputs == old(inputs) && streams == old(streams) && rdb.data == old(rdb.data)
      ensures old(Mirrored()) ==> Mirrored()
    {
      if inputID == "" {
        return Fail(Required("input ID"));
      }
      var ok := rdb.Del(StoreKey(inputID), online);
      if !ok {
        return Fail(StoreDelete);
      }
      ghost var before := streams;
      ghost var data := rdb.data;
      var rest := streams.Keys;
      while rest != {}
        invariant rest <= before.Keys
        invariant inputs == old(inputs) && rdb.data == data
        invariant streams == PrunedExcept(before, inputID, rest)
        decreases rest
      {
        var k :| k in rest;
        PruneStep(before, inputID, rest, k);
        if streams[k].inputId == inputID {
          streams := streams - {k};
        }
        rest := rest - {k};
      }
      assert PrunedExcept(before, inputID, {}) == SessionsWithout(before, inputID);
      DeleteKeepsValid(inputs, before, inputID);
      inputs := inputs - {inputID};
      err := Ok;
      if old(Mirrored()) {
        MirrorAfterDelete(old(rdb.data), old(inputs), inputID);
      }
    }

    /** `GetAllInputs`: every input once, in no particular order. */
    method GetAllInputs() returns (r: seq<SrtInputConfig>)
      ensures exists ks :: Enumerates(ks, inputs.Keys) && ListsValues(r, inputs, ks)
    {
      r := [];
      ghost var ks: seq<string> := [];
      var rest := inputs.Keys;
      while rest != {}
        invariant rest <= inputs.Keys
        invariant Enumerates(ks, inputs.Keys - rest)
        invariant ListsValues(r, inputs, ks)
        decreases rest
      {
        var k :| k in rest;
        r := r + [inputs[k]];
        ks := ks + [k];
        rest := rest - {k};
      }
      assert inputs.Keys - rest == inputs.Keys;
    }

    /** `GetInput`: the record filed under `inputID`, if any. */
    function GetInput(inputID: string): (r: Option<SrtInputConfig>)
      reads this
      ensures r.Some? <==> inputID in inputs
      ensures r.Some? ==> r.value == inputs[inputID]
    {
      if inputID in inputs then Some(inputs[inputID]) else None
    }

    /** `GetStreamsByInput`: exactly the sessions bound to `inputID`. */
    method GetStreamsByInput(inputID: string) returns (r: seq<SrtStream>)
      ensures exists ks :: Enumerates(ks, SessionsOf(streams, inputID)) && ListsValues(r, streams, ks)
      ensures |r| == SessionCount(streams, inputID)
      ensures forall s :: s in r ==> s.inputId == inputID
    {
      r := [];
      ghost var ks: seq<string> := [];
      var rest := streams.Keys;
      while rest != {}
        invariant rest <= streams.Keys
        invariant Enumerates(ks, SessionsIn(streams, inputID, streams.Keys - rest))
        invariant ListsValues(r, streams, ks)
        invariant forall s :: s in r ==> s.inputId == inputID
        decreases rest
      {
        var k :| k in rest;
        ghost var done := streams.Keys - rest;
        assert k !in SessionsIn(streams, inputID, done);
        if streams[k].inputId == inputID {
          assert SessionsIn(streams, inputID, done + {k}) == SessionsIn(streams, inputID, done) + {k};
          r := r + [streams[k]];
          ks := ks + [k];
        } else {
          assert SessionsIn(streams, inputID, done + {k}) == SessionsIn(streams, inputID, done);
        }
        rest := rest - {k};
        assert streams.Keys - rest == done + {k};
      }
      assert SessionsIn(streams, inputID, streams.Keys - rest) == SessionsOf(streams, inputID);
      EnumerationLength(ks, SessionsOf(streams, inputID));
    }

    /** The counting loop of `AddStream`: how many sessions are bound to `inputID`. */
    method CountSessions(inputID: string) returns (streamCount: nat)
      ensures streamCount == SessionCount(streams, inputID)
    {
      streamCount := 0;
      var rest := streams.Keys;
      while rest != {}
        invariant rest <= streams.Keys
        invariant streamCount == |SessionsIn(streams, inputID, streams.Keys - rest)|
        decreases rest
      {
        var k :| k in rest;
        ghost var done := streams.Keys - rest;
        if streams[k].inputId == inputID {
          assert SessionsIn(streams, inputID, done + {k}) == SessionsIn(streams, inputID, done) + {k};
          streamCount := streamCount + 1;
        } else {
          assert SessionsIn(streams, inputID, done + {k}) == SessionsIn(streams, inputID, done);
        }
        rest := rest - {k};
        assert streams.Keys - rest == done + {k};
      }
      assert SessionsIn(streams, inputID, streams.Keys - rest) == SessionsOf(streams, inputID);
    }

    /** `AddStream`: admit a session when the input exists and has fewer than
        `MaxStreams` sessions; the count and the insert form one step. */
    method AddStream(inputID: string, streamID: string, ip: string, port: int, sid: Uuid, now: int)
      returns (err: Outcome)
      requires Valid()
      modifies this
      ensures Valid()
      ensures err ==
        if inputID !in old(inputs) then Fail(NotFound("input", inputID))
        else if SessionCount(old(streams), inputID) >= old(inputs)[inputID].maxStreams then Fail(MaxStreamsReached(inputID))
        else Ok
      ensures err.Ok? ==>
        && streams == old(streams)[sid := SrtStream(sid, inputID, streamID, "connected", now, ip, port)]
        && inputs == old(inputs)[inputID := old(inputs)[inputID].(streamCount := SessionCount(old(streams), inputID) + 1)]
      ensures err.Ok? && sid !in old(streams) ==>
        SessionCount(streams, inputID) == SessionCount(old(streams), inputID) + 1
      ensures err.Fail? ==> inputs == old(inputs) && streams == old(streams)
      ensures old(Mirrored()) ==> Mirrored()
    {
      if inputID !in inputs {
        return Fail(NotFound("input", inputID));
      }
      var input := inputs[inputID];
      var streamCount := CountSessions(inputID);
      if streamCount >= input.maxStreams {
        return Fail(MaxStreamsReached(inputID));
      }
      var stream := SrtStream(sid, inputID, streamID, "connected", now, ip, port);
      AdmitKeepsValid(inputs, streams, sid, stream, input.(streamCount := streamCount + 1));
      SessionCountAfterInsert(streams, sid, stream, inputID);
      if old(Mirrored()) {
        MirrorAfterRecount(rdb.data, inputs, inputID, streamCount + 1);
      }
      streams := streams[sid := stream];
      inputs := inputs[inputID := input.(streamCount := streamCount + 1)];
      err := Ok;
    }

    /** `RemoveStream`: drop a session; decrement the cached count of its input
        if that input is still there. */
    method RemoveStream(sid: string) returns (err: Outcome)
      requires Valid()
      modifies this
      ensures Valid()
      ensures err == if sid !in old(streams) then Fail(NotFound("stream", sid)) else Ok
      ensures err.Ok? ==> streams == old(streams) - {sid}
      ensures err.Ok? ==>
        SessionCount(streams, old(streams)[sid].inputId) == SessionCount(old(streams), old(streams)[sid].inputId) - 1
      ensures err.Ok? ==> old(streams)[sid].inputId in old(inputs)
      ensures err.Ok? ==> var owner := old(streams)[sid].inputId;
        inputs == Recounted(old(inputs), owner, old(inputs)[owner].streamCount - 1)
      ensures err.Fail? ==> inputs == old(inputs) && streams == old(streams)
      ensures old(Mirrored()) ==> Mirrored()
    {
      if sid !in streams {
        err := Fail(NotFound("stream", sid));
      } else {
        var owner := streams[sid].inputId;
        ghost var sessions := streams;
        ReleaseKeepsValid(inputs, sessions, sid);
        SessionCountAfterRemove(sessions, sid, owner);
        var recounted := inputs;
        if owner in inputs {
          var input := inputs[owner];
          RecountKeepsValid(inputs, streams - {sid}, owner, input.streamCount - 1);
          if old(Mirrored()) {
            MirrorAfterRecount(rdb.data, inputs, owner, input.streamCount - 1);
          }
          recounted := Recounted(inputs, owner, input.streamCount - 1);
        }
        streams, inputs := streams - {sid}, recounted;
        err := Ok;
      }
    }

    /** `StartInput` together with the effect of `processSRTInput`, run here to
        completion: the stored record itself is marked active (through the
        shared pointer) and then handed to `UpdateInput`, whose result is
        dropped. */
    method StartInput(inputID: string, now: int, online: bool) returns (err: Outcome)
      requires Valid()
      modifies this, rdb
      ensures Valid()
      ensures err == if inputID in old(inputs) then Ok else Fail(NotFound("input", inputID))
      ensures err.Ok? ==>
        var active := old(inputs)[inputID].(status := "active", updatedAt := now);
        && inputs == old(inputs)[inputID := active]
        && rdb.data == if online then old(rdb.data)[StoreKey(inputID) := active] else old(rdb.data)
      ensures err.Fail? ==> inputs == old(inputs) && rdb.data == old(rdb.data)
      ensures streams == old(streams)
      ensures online && old(Mirrored()) ==> Mirrored()
    {
      if GetInput(inputID).None? {
        return Fail(NotFound("input", inputID));
      }
      var input := inputs[inputID].(status := "active", updatedAt := now);
      inputs := inputs[inputID := input];
      var _, _ := UpdateInput(input, now, online);
      err := Ok;
      if online && old(Mirrored()) {
        MirrorAfterInstall(old(rdb.data), old(inputs), input);
      }
    }
  }

  /** The store holds every input's record, up to the cached session count. */
  ghost predicate MirroredState(data: map<string, SrtInputConfig>, inputs: map<string, SrtInputConfig>) {
    forall id {:trigger StoreKey(id)} :: id in inputs ==>
      && StoreKey(id) in data
      && data[StoreKey(id)] == inputs[id].(streamCount := data[StoreKey(id)].streamCount)
  }

  lemma MirrorAfterInstall(data: map<string, SrtInputConfig>, inputs: map<string, SrtInputConfig>, rec: SrtInputConfig)
    requires MirroredState(data, inputs)
    ensures MirroredState(data[StoreKey(rec.id) := rec], inputs[rec.id := rec])
  {
    forall id | id in inputs && id != rec.id
      ensures StoreKey(id) != StoreKey(rec.id)
    {
      if StoreKey(id) == StoreKey(rec.id) {
        KeyInjective(KeyPrefix, id, rec.id);
      }
    }
  }

  lemma MirrorAfterDelete(data: map<string, SrtInputConfig>, inputs: map<string, SrtInputConfig>, gone: string)
    requires MirroredState(data, inputs)
    ensures MirroredState(data - {StoreKey(gone)}, inputs - {gone})
  {
    forall id | id in inputs && id != gone
      ensures StoreKey(id) != StoreKey(gone)
    {
      if StoreKey(id) == StoreKey(gone) {
        KeyInjective(KeyPrefix, id, gone);
      }
    }
  }

  /** Changing the cached session count of an input keeps the store mirrored. */
  lemma MirrorAfterRecount(data: map<string, SrtInputConfig>, inputs: map<string, SrtInputConfig>, id: string, c: int)
    requires MirroredState(data, inputs) && id in inputs
    ensures MirroredState(data, Recounted(inputs, id, c))
  {
  }

  /** The sessions still present while `DeleteInput` walks the session map:
      those of input `id` not in `rest` are gone. */
  function PrunedExcept(streams: map<string, SrtStream>, id: string, rest: set<string>): map<string, SrtStream> {
    map k | k in streams && (k in rest || streams[k].inputId != id) :: streams[k]
  }

  lemma PruneStep(streams: map<string, SrtStream>, id: string, rest: set<string>, k: string)
    requires k in rest && k in streams
    ensures k in PrunedExcept(streams, id, rest) && PrunedExcept(streams, id, rest)[k] == streams[k]
    ensures PrunedExcept(streams, id, rest - {k}) ==
      if streams[k].inputId == id then PrunedExcept(streams, id, rest) - {k} else PrunedExcept(streams, id, rest)
  {
  }

  const InputA: Uuid := "0a0a0a0a-0000-4000-8000-000000000001"
  const SessionA: Uuid := "5e5e5e5e-0000-4000-8000-00000000000a"
  const SessionB: Uuid := "5e5e5e5e-0000-4000-8000-00000000000b"
  const SessionC: Uuid := "5e5e5e5e-0000-4000-8000-00000000000c"

  /** A blank descriptor: no id, no ports, so every default applies. */
  const Blank: SrtInputConfig := SrtInputConfig("", "studio", 0, 0, 0, true, 0, 0, "", "", 0, 0)

  /** Two sessions are admitted to a fresh input, the third is refused, and
      once one leaves a new one is admitted again. */
  method AdmissionScenario() returns (first: Outcome, second: Outcome, third: Outcome, released: Outcome, again: Outcome)
    ensures first == Ok && second == Ok
    ensures third == Fail(MaxStreamsReached(InputA))
    ensures released == Ok && again == Ok
  {
    var store := new Store<SrtInputConfig>();
    var m := new SrtInputManager(store);
    var created, err := m.CreateInput(Blank, InputA, 100, true);
    assert SessionsOf(m.streams, InputA) == {};
    first := m.AddStream(InputA, "cam", "10.0.0.1", 5000, SessionA, 101);
    second := m.AddStream(InputA, "cam", "10.0.0.2", 5001, SessionB, 102);
    third := m.AddStream(InputA, "cam", "10.0.0.3", 5002, SessionC, 103);
    released := m.RemoveStream(SessionA);
    again := m.AddStream(InputA, "cam", "10.0.0.3", 5002, SessionC, 104);
  }

  /** Deleting an input takes its sessions with it. */
  method DeleteScenario() returns (gone: Option<SrtInputConfig>, orphans: seq<SrtStream>)
    ensures gone == None && orphans == []
  {
    var store := new Store<SrtInputConfig>();
    var m := new SrtInputManager(store);
    var created, err := m.CreateInput(Blank, InputA, 100, true);
    var added := m.AddStream(InputA, "cam", "10.0.0.1", 5000, SessionA, 101);
    var deleted := m.DeleteInput(InputA, true);
    assert SessionsOf(m.streams, InputA) == {};
    gone := m.GetInput(InputA);
    orphans := m.GetStreamsByInput(InputA);
  }

  /** With the store unreachable, starting an input still marks the record in
      memory active, while the stored copy stays inactive. */
  method OfflineStartScenario() returns (err: Outcome, inMemory: string, stored: string)
    ensures err == Ok && inMemory == "active" && stored == "inactive"
  {
    var store := new Store<SrtInputConfig>();
    var m := new SrtInputManager(store);
    var created, _ := m.CreateInput(Blank, InputA, 100, true);
    err := m.StartInput(InputA, 200, false);
    inMemory := m.inputs[InputA].status;
    stored := store.data[StoreKey(InputA)].status;
  }
}

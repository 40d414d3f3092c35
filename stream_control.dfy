/** The generic stream registry (`StreamManager`): input and output stream
    descriptors of any protocol, mirrored into the store under
    `stream:<id>` and rebuilt from it at start-up. */
module StreamControl {
  import opened Common
  import opened KeyValue

  datatype StreamConfig = StreamConfig(
    id: string,
    name: string,
    streamType: string,   // rtmp, srt, hls, webrtc
    direction: string,    // input, output
    url: string,
    port: int,
    enabled: bool,
    description: string,
    createdAt: int,
    updatedAt: int,
    status: string,       // active, inactive, error, connecting
    connected: bool,
    lastError: string)

  const KeyPrefix: string := "stream:"

  function StoreKey(id: string): string {
    KeyPrefix + id
  }

  /** The keys `LoadStreamsFromRedis` asks for with the pattern `stream:*`. */
  function StreamKeys(data: map<string, StreamConfig>): set<string> {
    set k | k in data && HasPrefix(k, KeyPrefix)
  }

  /** Every record is filed under its own id. No id is excluded: an update
      may file a record under the empty id. */
  ghost predicate ValidState(streams: map<string, StreamConfig>) {
    forall id :: id in streams ==> streams[id].id == id
  }

  /** The store holds exactly the in-memory record of every stream, and every
      `stream:` key of the store belongs to a stream in memory. */
  ghost predicate SyncedState(data: map<string, StreamConfig>, streams: map<string, StreamConfig>) {
    && (forall id {:trigger StoreKey(id)} :: id in streams ==> StoreKey(id) in data && data[StoreKey(id)] == streams[id])
    && (forall k {:trigger k in StreamKeys(data)} :: k in StreamKeys(data) ==> k[|KeyPrefix|..] in streams)
  }

  /** A `stream:` key is the store key of its own suffix. */
  lemma StreamKeyOfSuffix(data: map<string, StreamConfig>, k: string)
    requires k in StreamKeys(data)
    ensures k == StoreKey(k[|KeyPrefix|..])
  {
    assert k == k[..|KeyPrefix|] + k[|KeyPrefix|..];
  }

  lemma SyncAfterInstall(data: map<string, StreamConfig>, streams: map<string, StreamConfig>, rec: StreamConfig)
    requires SyncedState(data, streams)
    ensures SyncedState(data[StoreKey(rec.id) := rec], streams[rec.id := rec])
  {
    var data' := data[StoreKey(rec.id) := rec];
    forall id | id in streams && id != rec.id
      ensures StoreKey(id) != StoreKey(rec.id)
    {
      if StoreKey(id) == StoreKey(rec.id) {
        KeyInjective(KeyPrefix, id, rec.id);
      }
    }
    forall k | k in StreamKeys(data')
      ensures k[|KeyPrefix|..] in streams[rec.id := rec]
    {
      if k == StoreKey(rec.id) {
        PrefixedKeyHasPrefix(KeyPrefix, rec.id);
      } else {
        assert k in StreamKeys(data);
      }
    }
  }

  lemma SyncAfterDelete(data: map<string, StreamConfig>, streams: map<string, StreamConfig>, gone: string)
    requires SyncedState(data, streams)
    ensures SyncedState(data - {StoreKey(gone)}, streams - {gone})
  {
    var data' := data - {StoreKey(gone)};
    forall id | id in streams && id != gone
      ensures StoreKey(id) != StoreKey(gone)
    {
      if StoreKey(id) == StoreKey(gone) {
        KeyInjective(KeyPrefix, id, gone);
      }
    }
    forall k | k in StreamKeys(data')
      ensures k[|KeyPrefix|..] in streams - {gone}
    {
      assert k in StreamKeys(data);
      StreamKeyOfSuffix(data, k);
    }
  }

  /** The port `CreateStream` picks for a stream given without one; only the
      four known protocols have a default. */
  function DefaultPort(streamType: string): (r: Option<int>)
    ensures r.Some? <==> streamType == "rtmp" || streamType == "srt" || streamType == "hls" || streamType == "webrtc"
    ensures r.Some? ==> PortInRange(r.value)
  {
    if streamType == "rtmp" then Some(1935)
    else if streamType == "srt" then Some(10080)
    else if streamType == "hls" then Some(8080)
    else if streamType == "webrtc" then Some(8000)
    else None
  }

  /** `out` is `config` with the defaults of `CreateStream` filled in: a
      fresh id when none was given, both time stamps set to `now`, inactive
      and not connected, type rtmp when none was given, and the type's
      default port when the port is not positive and the type has one. */
  predicate Defaulted(config: StreamConfig, freshId: Uuid, now: int, out: StreamConfig) {
    && out.id == (if config.id == "" then freshId else config.id)
    && out.createdAt == now && out.updatedAt == now && out.status == "inactive" && !out.connected
    && out.streamType == (if config.streamType == "" then "rtmp" else config.streamType)
    && (config.port > 0 ==> out.port == config.port)
    && (config.port <= 0 && DefaultPort(out.streamType).Some? ==> out.port == DefaultPort(out.streamType).value)
    && (config.port <= 0 && DefaultPort(out.streamType).None? ==> out.port == config.port)
    && out == config.(id := out.id, createdAt := now, updatedAt := now, status := "inactive",
                      connected := false, streamType := out.streamType, port := out.port)
  }

  /** A store entry `LoadStreamsFromRedis` can fetch and decode. */
  predicate Readable(data: map<string, StreamConfig>, unreadable: set<string>, k: string) {
    k in data && k !in unreadable
  }

  /** The map `LoadStreamsFromRedis` leaves after visiting the keys `ks` in
      order, starting from `m`: each readable entry is installed under the
      id it carries, a later one replacing an earlier one. */
  function Loaded(m: map<string, StreamConfig>, data: map<string, StreamConfig>, unreadable: set<string>,
                  ks: seq<string>): map<string, StreamConfig>
    decreases |ks|
  {
    if ks == [] then m
    else
      var prev := Loaded(m, data, unreadable, ks[..|ks| - 1]);
      var k := ks[|ks| - 1];
      if Readable(data, unreadable, k) then prev[data[k].id := data[k]] else prev
  }

  /** The ids present after loading: those already in memory and those of the
      readable entries. */
  lemma {:induction false} LoadedKeys(m: map<string, StreamConfig>, data: map<string, StreamConfig>,
                                      unreadable: set<string>, ks: seq<string>)
    ensures Loaded(m, data, unreadable, ks).Keys ==
            m.Keys + (set i | 0 <= i < |ks| && Readable(data, unreadable, ks[i]) :: data[ks[i]].id)
    decreases |ks|
  {
    if ks != [] {
      var init := ks[..|ks| - 1];
      LoadedKeys(m, data, unreadable, init);
      var before := set i | 0 <= i < |init| && Readable(data, unreadable, init[i]) :: data[init[i]].id;
      var after := set i | 0 <= i < |ks| && Readable(data, unreadable, ks[i]) :: data[ks[i]].id;
      var last := |ks| - 1;
      if Readable(data, unreadable, ks[last]) {
        assert after == before + {data[ks[last]].id} by {
          forall x | x in after ensures x in before + {data[ks[last]].id} {
            var i :| 0 <= i < |ks| && Readable(data, unreadable, ks[i]) && data[ks[i]].id == x;
            if i < last { assert init[i] == ks[i]; }
          }
          forall x | x in before ensures x in after {
            var i :| 0 <= i < |init| && Readable(data, unreadable, init[i]) && data[init[i]].id == x;
            assert ks[i] == init[i];
          }
        }
      } else {
        assert after == before by {
          forall x | x in after ensures x in before {
            var i :| 0 <= i < |ks| && Readable(data, unreadable, ks[i]) && data[ks[i]].id == x;
            assert i < last;
            assert init[i] == ks[i];
          }
          forall x | x in before ensures x in after {
            var i :| 0 <= i < |init| && Readable(data, unreadable, init[i]) && data[init[i]].id == x;
            assert ks[i] == init[i];
          }
        }
      }
    }
  }

  /** The last readable entry carrying an id decides that id's record. */
  lemma {:induction false} LoadedLastWins(m: map<string, StreamConfig>, data: map<string, StreamConfig>,
                                          unreadable: set<string>, ks: seq<string>, i: nat)
    requires i < |ks| && Readable(data, unreadable, ks[i])
    requires forall j :: i < j < |ks| && Readable(data, unreadable, ks[j]) ==> data[ks[j]].id != data[ks[i]].id
    ensures data[ks[i]].id in Loaded(m, data, unreadable, ks)
    ensures Loaded(m, data, unreadable, ks)[data[ks[i]].id] == data[ks[i]]
    decreases |ks|
  {
    var init := ks[..|ks| - 1];
    if i < |ks| - 1 {
      assert init[i] == ks[i];
      forall j | i < j < |init| && Readable(data, unreadable, init[j])
        ensures data[init[j]].id != data[init[i]].id
      {
        assert init[j] == ks[j];
      }
      LoadedLastWins(m, data, unreadable, init, i);
    }
  }

  /** An id no readable entry carries keeps the record it had in memory. */
  lemma {:induction false} LoadedUntouched(m: map<string, StreamConfig>, data: map<string, StreamConfig>,
                                           unreadable: set<string>, ks: seq<string>, id: string)
    requires forall j :: 0 <= j < |ks| && Readable(data, unreadable, ks[j]) ==> data[ks[j]].id != id
    ensures id in Loaded(m, data, unreadable, ks) <==> id in m
    ensures id in m ==> Loaded(m, data, unreadable, ks)[id] == m[id]
    decreases |ks|
  {
    if ks != [] {
      var init := ks[..|ks| - 1];
      forall j | 0 <= j < |init| && Readable(data, unreadable, init[j])
        ensures data[init[j]].id != id
      {
        assert init[j] == ks[j];
      }
      LoadedUntouched(m, data, unreadable, init, id);
    }
  }

  /** Loading files every record under the id it carries, so it keeps the
      registry invariant. */
  lemma {:induction false} LoadedKeepsValid(m: map<string, StreamConfig>, data: map<string, StreamConfig>,
                                            unreadable: set<string>, ks: seq<string>)
    requires ValidState(m)
    ensures ValidState(Loaded(m, data, unreadable, ks))
    decreases |ks|
  {
    if ks != [] {
      LoadedKeepsValid(m, data, unreadable, ks[..|ks| - 1]);
    }
  }

  /** The records of `streams` whose store keys occur in `ks`. */
  function Restricted(streams: map<string, StreamConfig>, ks: seq<string>): map<string, StreamConfig> {
    map id | id in streams && StoreKey(id) in ks :: streams[id]
  }

  /** Loading a synchronized store into an empty map gives back, key by key,
      the records the keys visited so far stand for. */
  lemma {:induction false} LoadedFromSynced(data: map<string, StreamConfig>, streams: map<string, StreamConfig>,
                                            ks: seq<string>)
    requires SyncedState(data, streams) && ValidState(streams)
    requires forall i :: 0 <= i < |ks| ==> ks[i] in StreamKeys(data)
    ensures Loaded(map[], data, {}, ks) == Restricted(streams, ks)
    decreases |ks|
  {
    if ks != [] {
      var init := ks[..|ks| - 1];
      var k := ks[|ks| - 1];
      LoadedFromSynced(data, streams, init);
      var id0 := k[|KeyPrefix|..];
      StreamKeyOfSuffix(data, k);
      assert id0 in streams;
      assert data[StoreKey(id0)] == streams[id0];
      forall id | id in streams
        ensures StoreKey(id) in ks <==> StoreKey(id) in init || id == id0
      {
        if StoreKey(id) == k {
          KeyInjective(KeyPrefix, id, id0);
        }
        assert ks == init + [k];
      }
    }
  }

  /** A restart loses nothing: when the store was in step with the map, every
      enumeration of its `stream:` keys rebuilds the original map. */
  lemma RestoreAfterRestart(data: map<string, StreamConfig>, streams: map<string, StreamConfig>, ks: seq<string>)
    requires SyncedState(data, streams) && ValidState(streams)
    requires Enumerates(ks, StreamKeys(data))
    ensures Loaded(map[], data, {}, ks) == streams
  {
    LoadedFromSynced(data, streams, ks);
    forall id | id in streams
      ensures StoreKey(id) in ks
    {
      PrefixedKeyHasPrefix(KeyPrefix, id);
      assert StoreKey(id) in StreamKeys(data);
    }
  }

  class StreamManager {
    var streams: map<string, StreamConfig>
    const rdb: Store<StreamConfig>

    ghost predicate Valid()
      reads this
    {
      ValidState(streams)
    }

    ghost predicate Synced()
      reads this, rdb
    {
      SyncedState(rdb.data, streams)
    }

    constructor (rdb: Store<StreamConfig>)
      ensures Valid()
      ensures this.rdb == rdb && streams == map[]
    {
      this.rdb := rdb;
      streams := map[];
    }

    /** The first half of `CreateStream`: fill the id, time stamps and
        status, then default the type and, for the four known protocols, the
        port. */
    static method FillDefaults(config: StreamConfig, freshId: Uuid, now: int) returns (out: StreamConfig)
      ensures Defaulted(config, freshId, now, out)
    {
      out := config;
      if out.id == "" {
        out := out.(id := freshId);
      }
      out := out.(createdAt := now, updatedAt := now, status := "inactive", connected := false);
      if out.streamType == "" {
        out := out.(streamType := "rtmp");
      }
      if out.port <= 0 {
        if out.streamType == "rtmp" {
          out := out.(port := 1935);
        } else if out.streamType == "srt" {
          out := out.(port := 10080);
        } else if out.streamType == "hls" {
          out := out.(port := 8080);
        } else if out.streamType == "webrtc" {
          out := out.(port := 8000);
        }
      }
    }

    /** `CreateStream`: fill in the defaults, check the name and the port,
        write the store, then install. The filled-in record is returned
        whatever the outcome, as the caller's record is rewritten in place;
        a stream of an unknown type given without a port is refused. */
    method CreateStream(config: StreamConfig, freshId: Uuid, now: int, online: bool)
      returns (out: StreamConfig, err: Outcome)
      requires Valid()
      modifies this, rdb
      ensures Valid()
      ensures Defaulted(config, freshId, now, out)
      ensures err ==
        if config.name == "" then Fail(Required("stream name"))
        else if !PortInRange(out.port) then Fail(InvalidPort("port", out.port))
        else if !online then Fail(StoreWrite)
        else Ok
      ensures err.Ok? ==> streams == old(streams)[out.id := out] && rdb.data == old(rdb.data)[StoreKey(out.id) := out]
      ensures err.Fail? ==> streams == old(streams) && rdb.data == old(rdb.data)
      ensures old(Synced()) ==> Synced()
    {
      out := FillDefaults(config, freshId, now);
      if out.name == "" {
        err := Fail(Required("stream name"));
      } else if out.port <= 0 || out.port > MaxPort {
        err := Fail(InvalidPort("port", out.port));
      } else {
        var ok := rdb.Set(StoreKey(out.id), out, online);
        if !ok {
          err := Fail(StoreWrite);
        } else {
          streams := streams[out.id := out];
          err := Ok;
          if old(Synced()) {
            SyncAfterInstall(old(rdb.data), old(streams), out);
          }
        }
      }
    }

    /** `UpdateStream`: an upsert. No existence check and no validation: the
        record is stamped and written under whatever id it carries. */
    method UpdateStream(config: StreamConfig, now: int, online: bool)
      returns (out: StreamConfig, err: Outcome)
      requires Valid()
      modifies this, rdb
      ensures Valid()
      ensures out == config.(updatedAt := now)
      ensures err == if online then Ok else Fail(StoreWrite)
      ensures err.Ok? ==> streams == old(streams)[config.id := out] && rdb.data == old(rdb.data)[StoreKey(config.id) := out]
      ensures err.Fail? ==> streams == old(streams) && rdb.data == old(rdb.data)
      ensures old(Synced()) ==> Synced()
    {
      out := config.(updatedAt := now);
      var ok := rdb.Set(StoreKey(out.id), out, online);
      if !ok {
        return out, Fail(StoreWrite);
      }
      streams := streams[out.id := out];
      err := Ok;
      if old(Synced()) {
        SyncAfterInstall(old(rdb.data), old(streams), out);
      }
    }

    /** `DeleteStream`: no check of the id at all; the store entry goes first. */
    method DeleteStream(id: string, online: bool) returns (err: Outcome)
      requires Valid()
      modifies this, rdb
      ensures Valid()
      ensures err == if online then Ok else Fail(StoreDelete)
      ensures err.Ok? ==> streams == old(streams) - {id} && rdb.data == old(rdb.data) - {StoreKey(id)}
      ensures err.Fail? ==> streams == old(streams) && rdb.data == old(rdb.data)
      ensures old(Synced()) ==> Synced()
    {
      var ok := rdb.Del(StoreKey(id), online);
      if !ok {
        return Fail(StoreDelete);
      }
      streams := streams - {id};
      err := Ok;
      if old(Synced()) {
        SyncAfterDelete(old(rdb.data), old(streams), id);
      }
    }

    /** `GetStreamsByDirection`: exactly the streams whose direction is
        `direction`, each once. */
    method GetStreamsByDirection(direction: string) returns (r: seq<StreamConfig>)
      ensures exists ks :: Enumerates(ks, WithDirection(direction)) && ListsValues(r, streams, ks)
      ensures forall s :: s in r ==> s.direction == direction
      ensures forall id :: id in streams && streams[id].direction == direction ==> streams[id] in r
    {
      r := [];
      ghost var ks: seq<string> := [];
      var rest := streams.Keys;
      while rest != {}
        invariant rest <= streams.Keys
        invariant Enumerates(ks, WithDirectionIn(direction, streams.Keys - rest))
        invariant ListsValues(r, streams, ks)
        invariant forall s :: s in r ==> s.direction == direction
        decreases rest
      {
        var k :| k in rest;
        ghost var done := streams.Keys - rest;
        assert k !in WithDirectionIn(direction, done);
        if streams[k].direction == direction {
          assert WithDirectionIn(direction, done + {k}) == WithDirectionIn(direction, done) + {k};
          r := r + [streams[k]];
          ks := ks + [k];
        } else {
          assert WithDirectionIn(direction, done + {k}) == WithDirectionIn(direction, done);
        }
        rest := rest - {k};
        assert streams.Keys - rest == done + {k};
      }
      assert WithDirectionIn(direction, streams.Keys - rest) == WithDirection(direction);
      forall id | id in streams && streams[id].direction == direction
        ensures streams[id] in r
      {
        assert id in WithDirection(direction);
        var i :| 0 <= i < |ks| && ks[i] == id;
        assert r[i] == streams[id];
      }
    }

    /** The ids among `ks` of the streams with direction `direction`. */
    ghost function WithDirectionIn(direction: string, ks: set<string>): set<string>
      reads this
    {
      set k | k in ks && k in streams && streams[k].direction == direction
    }

    ghost function WithDirection(direction: string): set<string>
      reads this
    {
      WithDirectionIn(direction, streams.Keys)
    }

    /** `GetAllStreams`: every stream once, in no particular order. */
    method GetAllStreams() returns (r: seq<StreamConfig>)
      ensures exists ks :: Enumerates(ks, streams.Keys) && ListsValues(r, streams, ks)
      ensures |r| == |streams|
    {
      r := [];
      ghost var ks: seq<string> := [];
      var rest := streams.Keys;
      while rest != {}
        invariant rest <= streams.Keys
        invariant Enumerates(ks, streams.Keys - rest)
        invariant ListsValues(r, streams, ks)
        decreases rest
      {
        var k :| k in rest;
        r := r + [streams[k]];
        ks := ks + [k];
        rest := rest - {k};
      }
      assert streams.Keys - rest == streams.Keys;
      EnumerationLength(ks, streams.Keys);
    }

    /** `GetStream`: the stream filed under `id`, if any. */
    function GetStream(id: string): (r: Option<StreamConfig>)
      reads this
      ensures r.Some? <==> id in streams
      ensures r.Some? ==> r.value == streams[id]
    {
      if id in streams then Some(streams[id]) else None
    }

    /** `LoadStreamsFromRedis`: list the `stream:` keys, then install every
        entry that can be fetched and decoded under the id it carries,
        skipping the rest. The map is merged into, not cleared. Whether the
        key listing answers is `keysOnline`; the entries whose fetch or decode
        fails are `unreadable`. */
    method LoadStreamsFromRedis(keysOnline: bool, unreadable: set<string>) returns (err: Outcome)
      requires Valid()
      modifies this
      ensures Valid()
      ensures err == if keysOnline then Ok else Fail(StoreKeys)
      ensures err.Ok? ==>
        exists ks :: Enumerates(ks, StreamKeys(rdb.data)) && streams == Loaded(old(streams), rdb.data, unreadable, ks)
      ensures err.Fail? ==> streams == old(streams)
    {
      if !keysOnline {
        return Fail(StoreKeys);
      }
      var keys := set k | k in rdb.data && HasPrefix(k, KeyPrefix);
      ghost var ks: seq<string> := [];
      var rest := keys;
      while rest != {}
        invariant rest <= keys
        invariant Enumerates(ks, keys - rest)
        invariant streams == Loaded(old(streams), rdb.data, unreadable, ks)
        decreases rest
      {
        var k :| k in rest;
        if k !in unreadable {
          var config := rdb.data[k];
          streams := streams[config.id := config];
        }
        ghost var visited := ks;
        ks := ks + [k];
        assert ks[..|ks| - 1] == visited;
        rest := rest - {k};
      }
      assert keys - rest == StreamKeys(rdb.data);
      LoadedKeepsValid(old(streams), rdb.data, unreadable, ks);
      err := Ok;
    }
  }

  const StreamA: Uuid := "57575757-0000-4000-8000-000000000001"

  /** A stream created before a restart is found again, unchanged, by a fresh
      manager that loads the same store. */
  method RestartScenario() returns (before: Option<StreamConfig>, after: Option<StreamConfig>)
    ensures before.Some? && before.value.port == 1935 && after == before
  {
    var store := new Store<StreamConfig>();
    var m := new StreamManager(store);
    assert m.Synced();
    var camera := StreamConfig("", "camera", "", "input", "rtmp://cam", 0, true, "", 0, 0, "", false, "");
    var _, _ := m.CreateStream(camera, StreamA, 100, true);
    before := m.GetStream(StreamA);
    var restarted := new StreamManager(store);
    var _ := restarted.LoadStreamsFromRedis(true, {});
    ghost var ks :| Enumerates(ks, StreamKeys(store.data)) && restarted.streams == Loaded(map[], store.data, {}, ks);
    RestoreAfterRestart(store.data, m.streams, ks);
    after := restarted.GetStream(StreamA);
  }
}

/** The HLS input registry (`HLSInputManager`): HLS pull sources, checked to
    be `http://` or `https://` addresses when created and mirrored into the
    store under `hls_input:<id>`. */
module HlsInput {
  import opened Common
  import opened KeyValue

  datatype HlsInputConfig = HlsInputConfig(
    id: string,
    name: string,
    url: string,
    enabled: bool,
    createdAt: int,
    updatedAt: int,
    status: string,       // active, inactive, error
    lastError: string,
    streamCount: int)

  const KeyPrefix: string := "hls_input:"

  function StoreKey(id: string): string {
    PrefixedKey(KeyPrefix, id)
  }

  /** The address check of `CreateInput`. */
  predicate IsHttpUrl(url: string) {
    HasPrefix(url, "http://") || HasPrefix(url, "https://")
  }

  /** Every input is filed under its own, non-empty id. */
  ghost predicate ValidState(inputs: map<string, HlsInputConfig>) {
    && "" !in inputs
    && forall id :: id in inputs ==> inputs[id].id == id
  }

  class HlsInputManager {
    var inputs: map<string, HlsInputConfig>
    const rdb: Store<HlsInputConfig>

    ghost predicate Valid()
      reads this
    {
      ValidState(inputs)
    }

    ghost predicate Mirrored()
      reads this, rdb
    {
      Mirrors(KeyPrefix, rdb.data, inputs)
    }

    constructor (rdb: Store<HlsInputConfig>)
      ensures Valid() && Mirrored()
      ensures this.rdb == rdb && inputs == map[]
    {
      this.rdb := rdb;
      inputs := map[];
    }

    /** `CreateInput`: fill the id, time stamps and status, check the address,
        write the store, then install. The filled-in record is returned
        whatever the outcome. */
    method CreateInput(config: HlsInputConfig, freshId: Uuid, now: int, online: bool)
      returns (out: HlsInputConfig, err: Outcome)
      requires Valid()
      modifies this, rdb
      ensures Valid()
      ensures out == config.(id := if config.id == "" then freshId else config.id,
                             createdAt := now, updatedAt := now, status := "inactive")
      ensures err ==
        if !IsHttpUrl(config.url) then Fail(InvalidValue("HLS URL", config.url))
        else if !online then Fail(StoreWrite)
        else Ok
      ensures err.Ok? ==> out.id != "" && inputs == old(inputs)[out.id := out]
                          && rdb.data == old(rdb.data)[StoreKey(out.id) := out]
      ensures err.Fail? ==> inputs == old(inputs) && rdb.data == old(rdb.data)
      ensures old(Mirrored()) ==> Mirrored()
    {
      out := config;
      if out.id == "" {
        out := out.(id := freshId);
      }
      out := out.(createdAt := now, updatedAt := now, status := "inactive");
      if !HasPrefix(out.url, "http://") && !HasPrefix(out.url, "https://") {
        return out, Fail(InvalidValue("HLS URL", out.url));
      }
      var ok := rdb.Set(StoreKey(out.id), out, online);
      if !ok {
        return out, Fail(StoreWrite);
      }
      inputs := inputs[out.id := out];
      err := Ok;
      if old(Mirrored()) {
        MirrorsAfterInstall(KeyPrefix, old(rdb.data), old(inputs), out.id, out);
      }
    }

    /** `UpdateInput`: the id must name an existing input, whose creation time
        is kept. The address is not checked again. */
    method UpdateInput(config: HlsInputConfig, now: int, online: bool)
      returns (out: HlsInputConfig, err: Outcome)
      requires Valid()
      modifies this, rdb
      ensures Valid()
      ensures err ==
        if config.id == "" then Fail(Required("input ID"))
        else if config.id !in old(inputs) then Fail(NotFound("input", config.id))
        else if !online then Fail(StoreWrite)
        else Ok
      ensures config.id in old(inputs) ==>
        out == config.(updatedAt := now, createdAt := old(inputs)[config.id].createdAt)
      ensures config.id !in old(inputs) ==> out == config
      ensures err.Ok? ==> inputs == old(inputs)[config.id := out] && rdb.data == old(rdb.data)[StoreKey(config.id) := out]
      ensures err.Fail? ==> inputs == old(inputs) && rdb.data == old(rdb.data)
      ensures old(Mirrored()) ==> Mirrored()
    {
      out := config;
      if config.id == "" {
        return out, Fail(Required("input ID"));
      }
      if config.id !in inputs {
        return out, Fail(NotFound("input", config.id));
      }
      out := out.(updatedAt := now, createdAt := inputs[config.id].createdAt);
      var ok := rdb.Set(StoreKey(out.id), out, online);
      if !ok {
        return out, Fail(StoreWrite);
      }
      inputs := inputs[out.id := out];
      err := Ok;
      if old(Mirrored()) {
        MirrorsAfterInstall(KeyPrefix, old(rdb.data), old(inputs), out.id, out);
      }
    }

    /** `DeleteInput`: an empty id is refused; otherwise the store entry is
        removed and then the input, whether or not it existed. */
    method DeleteInput(inputID: string, online: bool) returns (err: Outcome)
      requires Valid()
      modifies this, rdb
      ensures Valid()
      ensures err ==
        if inputID == "" then Fail(Required("input ID"))
        else if !online then Fail(StoreDelete)
        else Ok
      ensures err.Ok? ==> inputs == old(inputs) - {inputID} && rdb.data == old(rdb.data) - {StoreKey(inputID)}
      ensures err.Fail? ==> inputs == old(inputs) && rdb.data == old(rdb.data)
      ensures old(Mirrored()) ==> Mirrored()
    {
      if inputID == "" {
        return Fail(Required("input ID"));
      }
      var ok := rdb.Del(StoreKey(inputID), online);
      if !ok {
        return Fail(StoreDelete);
      }
      inputs := inputs - {inputID};
      err := Ok;
      if old(Mirrored()) {
        MirrorsAfterDelete(KeyPrefix, old(rdb.data), old(inputs), inputID);
      }
    }

    /** `GetAllInputs`: every input once, in no particular order. */
    method GetAllInputs() returns (r: seq<HlsInputConfig>)
      ensures exists ks :: Enumerates(ks, inputs.Keys) && ListsValues(r, inputs, ks)
      ensures |r| == |inputs|
    {
      r := [];
      ghost var ks: seq<string> := [];
      var rest := inputs.Keys;
      while rest != {}
        invariant rest <= inputs.Keys
        invariant Enumerates(ks, inputs.Keys - rest)
        invariant ListsValues(r, inputs, ks)
        decreases rest
      {
        var k :| k in rest;
        r := r + [inputs[k]];
        ks := ks + [k];
        rest := rest - {k};
      }
      assert inputs.Keys - rest == inputs.Keys;
      EnumerationLength(ks, inputs.Keys);
    }

    /** `GetInput`: the input filed under `inputID`, if any. */
    function GetInput(inputID: string): (r: Option<HlsInputConfig>)
      reads this
      ensures r.Some? <==> inputID in inputs
      ensures r.Some? ==> r.value == inputs[inputID]
    {
      if inputID in inputs then Some(inputs[inputID]) else None
    }

    /** `StartInput` together with the effect of `processHLSInput`, run here
        to completion: the stored input itself is marked active and then
        handed to `UpdateInput`, whose result is dropped. */
    method StartInput(inputID: string, now: int, online: bool) returns (err: Outcome)
      requires Valid()
      modifies this, rdb
      ensures Valid()
      ensures err == if inputID in old(inputs) then Ok else Fail(NotFound("input", inputID))
      ensures err.Ok? ==>
        var active := old(inputs)[inputID].(status := "active", updatedAt := now);
        && inputs == old(inputs)[inputID := active]
        && rdb.data == if online then old(rdb.data)[StoreKey(inputID) := active] else old(rdb.data)
      ensures err.Fail? ==> inputs == old(inputs) && rdb.data == old(rdb.data)
      ensures online && old(Mirrored()) ==> Mirrored()
    {
      if GetInput(inputID).None? {
        return Fail(NotFound("input", inputID));
      }
      var input := inputs[inputID].(status := "active", updatedAt := now);
      inputs := inputs[inputID := input];
      var _, _ := UpdateInput(input, now, online);
      err := Ok;
      if online && old(Mirrored()) {
        MirrorsAfterInstall(KeyPrefix, old(rdb.data), old(inputs), input.id, input);
      }
    }
  }

  const InputA: Uuid := "4c4c4c4c-0000-4000-8000-000000000001"

  /** An address that is not HTTP is refused at creation, but an update can
      still install one, since `UpdateInput` does not check it again. */
  method UnvalidatedUpdateScenario() returns (created: Outcome, refused: Outcome, updated: Outcome, url: string)
    ensures created == Ok
    ensures refused == Fail(InvalidValue("HLS URL", "rtmp://x"))
    ensures updated == Ok && url == "rtmp://x" && !IsHttpUrl(url)
  {
    var store := new Store<HlsInputConfig>();
    var m := new HlsInputManager(store);
    var feed := HlsInputConfig("", "feed", "https://cdn/live.m3u8", true, 0, 0, "", "", 0);
    var out, c := m.CreateInput(feed, InputA, 100, true);
    created := c;
    assert !IsHttpUrl("rtmp://x") by {
      assert "rtmp://x"[..7][0] == 'r' != "http://"[0];
      assert "rtmp://x"[..8][0] == 'r' != "https://"[0];
    }
    var _, r := m.CreateInput(feed.(url := "rtmp://x"), InputA, 100, true);
    refused := r;
    var _, u := m.UpdateInput(out.(url := "rtmp://x"), 200, true);
    updated := u;
    url := m.inputs[InputA].url;
  }
}

/** The durable key-value service (Redis) the managers mirror their maps into.
    Only the part of it the managers use is modelled: a map from keys to stored
    records, with `Set` and `Del` calls that either take effect or fail. Whether
    the service answers is not something the model can know, so each call takes
    it as a parameter `online`. Expiry (TTL) and serialization are not modelled:
    a stored value is the record itself. */
module KeyValue {

  class Store<V> {
    var data: map<string, V>

    constructor ()
      ensures data == map[]
    {
      data := map[];
    }

    /** `rdb.Set(ctx, key, value, ttl)`: on success the key holds `value`. */
    method Set(key: string, value: V, online: bool) returns (ok: bool)
      modifies this
      ensures ok == online
      ensures data == if online then old(data)[key := value] else old(data)
    {
      ok := online;
      if online {
        data := data[key := value];
      }
    }

    /** `rdb.Del(ctx, key)`: deleting an absent key is not an error. */
    method Del(key: string, online: bool) returns (ok: bool)
      modifies this
      ensures ok == online
      ensures data == if online then old(data) - {key} else old(data)
    {
      ok := online;
      if online {
        data := data - {key};
      }
    }
  }
}

/** The key-value store the tasks share (a Redis instance behind
    internal/service/redis/client.go), as an in-memory map. Every operation takes a
    `fault` flag: when it is set the call fails as a store error would, and the
    store is left as it was. Entries keep the TTL they were written with; expiry
    itself is not simulated. */
module KeyValue {
  import opened Wrappers
  import opened Errors

  /** A stored string and the TTL, in minutes, it was written with. */
  datatype Entry = Entry(value: string, ttlMinutes: int)

  /** Why a `Get` failed: the key is absent (redis.Nil) or the store is unreachable. */
  datatype StoreError = Missing | Unavailable

  /** The raw error a failing store call returns to a caller that passes it on. */
  const StoreFailure := OtherError("store unavailable")

  class Store {
    var data: map<string, Entry>

    constructor ()
      ensures data == map[]
    {
      data := map[];
    }

    method Set(key: string, value: string, ttlMinutes: int, fault: bool) returns (ok: bool)
      modifies this
      ensures ok == !fault
      ensures data == if fault then old(data) else old(data)[key := Entry(value, ttlMinutes)]
    {
      ok := !fault;
      if ok {
        data := data[key := Entry(value, ttlMinutes)];
      }
    }

    method Get(key: string, fault: bool) returns (r: Result<string, StoreError>)
      ensures fault ==> r == Err(Unavailable)
      ensures !fault && key in data ==> r == Ok(data[key].value)
      ensures !fault && key !in data ==> r == Err(Missing)
    {
      if fault {
        r := Err(Unavailable);
      } else if key in data {
        r := Ok(data[key].value);
      } else {
        r := Err(Missing);
      }
    }

    /** `Exists` reports the key's presence (`val > 0` in the client). */
    method Exists(key: string, fault: bool) returns (r: Result<bool, StoreError>)
      ensures r == if fault then Err(Unavailable) else Ok(key in data)
    {
      if fault {
        r := Err(Unavailable);
      } else {
        r := Ok(key in data);
      }
    }

    method Del(key: string, fault: bool) returns (ok: bool)
      modifies this
      ensures ok == !fault
      ensures data == if fault then old(data) else old(data) - {key}
    {
      ok := !fault;
      if ok {
        data := data - {key};
      }
    }
  }
}

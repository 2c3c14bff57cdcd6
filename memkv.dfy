/**
 * The in-memory store (cachekv/mem.go): a value table and an expiry table.
 * `Get` evicts an expired key lazily, `Set` overwrites. Instants and
 * durations are integers (nanoseconds) and the clock is the `now` parameter.
 */
module MemKV {
  import opened Wrappers
  import opened Errors

  const Second: int := 1_000_000_000

  /** `Mdb`. */
  class Mdb {
    var data: map<string, string>
    var expires: map<string, int>

    /**
     * Both tables hold the same keys, so while it holds a key with an expiry
     * always has a value and `Get` decides by the expiry alone.
     */
    ghost predicate Valid()
      reads this
    {
      data.Keys == expires.Keys
    }

    /** `Get(key)` at instant `at` finds a value: the expiry is not before `at`. */
    predicate Live(key: string, at: int)
      reads this
    {
      key in expires && !(expires[key] < at) && key in data
    }

    /** `MemKV()`: two empty tables. */
    constructor ()
      ensures Valid()
      ensures data == map[] && expires == map[]
    {
      data := map[];
      expires := map[];
    }

    /**
     * `Get`: an expired key is deleted from both tables and reported missing;
     * otherwise nothing changes and the stored value is returned when the key
     * is live. Never an error.
     */
    method Get(key: string, now: int) returns (ok: bool, val: string, err: Option<Error>)
      modifies this
      ensures err.None?
      ensures ok == old(Live(key, now))
      ensures ok ==> val == old(data)[key]
      ensures !ok ==> val == ""
      ensures key in old(expires) && old(expires)[key] < now ==>
                data == old(data) - {key} && expires == old(expires) - {key}
      ensures !(key in old(expires) && old(expires)[key] < now) ==>
                data == old(data) && expires == old(expires)
      ensures old(Valid()) ==> Valid()
      ensures old(Valid()) ==> (ok <==> key in old(expires) && !(old(expires)[key] < now))
    {
      if key in expires {
        var ext := expires[key];
        if ext < now {
          expires := expires - {key};
          data := data - {key};
          return false, "", None;
        }
        if key in data {
          return true, data[key], None;
        }
      }
      return false, "", None;
    }

    /**
     * `Set`: store the value and the expiry `now + exp` for `key` only; the
     * key is then live exactly up to and including that instant.
     */
    method Set(key: string, value: string, exp: int, now: int) returns (err: Option<Error>)
      modifies this
      ensures err.None?
      ensures data == old(data)[key := value] && expires == old(expires)[key := now + exp]
      ensures forall at :: Live(key, at) <==> at <= now + exp
      ensures old(Valid()) ==> Valid()
    {
      data := data[key := value];
      expires := expires[key := now + exp];
      return None;
    }
  }

  /**
   * A value set at `t` with expiry `exp` is read back by any `Get` at
   * `now <= t + exp`, the last instant included because the expiry is compared
   * with a strict "before"; a later `Get` misses and evicts the key.
   */
  method SetThenGet(kv: Mdb, key: string, value: string, exp: int, t: int, now: int)
    returns (ok: bool, val: string, err: Option<Error>)
    modifies kv
    ensures old(kv.Valid()) ==> kv.Valid()
    ensures err.None?
    ensures ok <==> now <= t + exp
    ensures ok ==> val == value && kv.data == old(kv.data)[key := value] && kv.expires == old(kv.expires)[key := t + exp]
    ensures !ok ==> val == "" && kv.data == old(kv.data) - {key} && kv.expires == old(kv.expires) - {key}
  {
    var setErr := kv.Set(key, value, exp, t);
    ok, val, err := kv.Get(key, now);
  }

  /**
   * The store's unit test: a fresh store misses on a key never set, and a
   * value set with a one-second expiry is found again by a read within that
   * second, including at its last instant.
   */
  method MemKVScenario(setAt: int, getAt: int) returns (ok1: bool, val1: string, err1: Option<Error>, ok2: bool, val2: string, err2: Option<Error>)
    requires setAt <= getAt <= setAt + Second
    ensures !ok1 && val1 == "" && err1.None?
    ensures ok2 && val2 == "asd" && err2.None?
  {
    var kv := new Mdb();
    ok1, val1, err1 := kv.Get("aaa", setAt);
    var err := kv.Set("bbb", "asd", Second, setAt);
    ok2, val2, err2 := kv.Get("bbb", getAt);
  }
}

/**
 * The key-value store the lock coordinates through (a Redis server reached
 * with Jedis), reduced to the four commands the lock issues: SETNX, GET,
 * GETSET and DEL. Other clients share the store: `others[i]` is the list of
 * writes they land between this client's (i-1)-th and i-th command, and none
 * land once the schedule ends. Each command is atomic, so every interleaving
 * of their writes with ours is one such schedule.
 */
module Store {
  import opened Wrappers

  /** A write made by another client of the same store. */
  datatype Write = Put(key: string, value: string) | Delete(key: string)

  /** What `GET key` answers on a store holding `m`: the value, or `null`. */
  function Lookup(m: map<string, string>, key: string): Option<string> {
    if key in m then Some(m[key]) else None
  }

  /** The writes other clients land just before this client's i-th command. */
  function Pending(others: seq<seq<Write>>, i: nat): seq<Write> {
    if i < |others| then others[i] else []
  }

  /** The store after the writes `ws`, in order. Keys none of them names keep their value. */
  function Apply(m: map<string, string>, ws: seq<Write>): (r: map<string, string>)
    ensures forall k :: (forall i :: 0 <= i < |ws| ==> ws[i].key != k) ==> Lookup(r, k) == Lookup(m, k)
    decreases |ws|
  {
    if ws == [] then m
    else
      var next := match ws[0]
        case Put(k, v) => m[k := v]
        case Delete(k) => m - {k};
      Apply(next, ws[1..])
  }

  /** The store holding `data` as this client's `ops`-th command finds it, once the other clients' pending writes have landed. */
  function Arrived(data: map<string, string>, others: seq<seq<Write>>, ops: nat): map<string, string> {
    Apply(data, Pending(others, ops))
  }

  class Store {
    var data: map<string, string>
    /** Number of commands this client has issued so far. */
    var ops: nat
    const others: seq<seq<Write>>

    constructor (data: map<string, string>, others: seq<seq<Write>>)
      ensures this.data == data && this.others == others && ops == 0
    {
      this.data := data;
      this.others := others;
      ops := 0;
    }

    /** SETNX: 1 and the key set if it was absent, 0 and nothing changed if it was present. */
    method SetNx(key: string, value: string) returns (r: int)
      modifies this
      ensures var found := old(Arrived(data, others, ops));
        && r == (if key in found then 0 else 1)
        && data == (if key in found then found else found[key := value])
      ensures ops == old(ops) + 1
    {
      data := Arrived(data, others, ops);
      if key in data {
        r := 0;
      } else {
        r := 1;
        data := data[key := value];
      }
      ops := ops + 1;
    }

    /** GET: the value held, or `null`. */
    method Get(key: string) returns (r: Option<string>)
      modifies this
      ensures r == Lookup(old(Arrived(data, others, ops)), key)
      ensures data == old(Arrived(data, others, ops)) && ops == old(ops) + 1
    {
      data := Arrived(data, others, ops);
      r := Lookup(data, key);
      ops := ops + 1;
    }

    /** GETSET: stores the new value unconditionally and answers the one it replaced, or `null`. */
    method GetSet(key: string, value: string) returns (r: Option<string>)
      modifies this
      ensures r == Lookup(old(Arrived(data, others, ops)), key)
      ensures data == old(Arrived(data, others, ops))[key := value] && ops == old(ops) + 1
    {
      data := Arrived(data, others, ops);
      r := Lookup(data, key);
      data := data[key := value];
      ops := ops + 1;
    }

    /** DEL: removes the key if present; answers how many keys it removed. */
    method Del(key: string) returns (r: int)
      modifies this
      ensures r == (if key in old(Arrived(data, others, ops)) then 1 else 0)
      ensures data == old(Arrived(data, others, ops)) - {key} && ops == old(ops) + 1
    {
      data := Arrived(data, others, ops);
      r := if key in data then 1 else 0;
      data := data - {key};
      ops := ops + 1;
    }
  }
}

/** The Hyperledger Fabric world state as the chaincode sees it through its stub:
    a map from key to stored record, read with GetState, written with PutState,
    removed with DelState and enumerated by a range query. Records are stored as
    values, not as their JSON bytes. */
module WorldState {
  import opened Wrappers

  /** One key/value pair produced by a state iterator. */
  datatype KV<V> = KV(key: string, value: V)

  /** The keys of an iteration, in iteration order. */
  function KeysOf<V>(kvs: seq<KV<V>>): (keys: seq<string>)
    ensures |keys| == |kvs|
    ensures forall i :: 0 <= i < |kvs| ==> keys[i] == kvs[i].key
  {
    seq(|kvs|, i requires 0 <= i < |kvs| => kvs[i].key)
  }

  /** `kvs` lists every entry of `m` exactly once (in some order). */
  ghost predicate Enumerates<V>(kvs: seq<KV<V>>, m: map<string, V>)
  {
    && (forall i, j :: 0 <= i < j < |kvs| ==> kvs[i].key != kvs[j].key)
    && (forall i :: 0 <= i < |kvs| ==> kvs[i].key in m && m[kvs[i].key] == kvs[i].value)
    && (forall k :: k in m ==> k in KeysOf(kvs))
  }

  /** `vals` holds the record of every key of `m` exactly once, the i-th one
      being the record stored under `keys[i]`. */
  ghost predicate Lists<V>(vals: seq<V>, keys: seq<string>, m: map<string, V>)
  {
    && |vals| == |keys|
    && (forall i, j :: 0 <= i < j < |keys| ==> keys[i] != keys[j])
    && (forall i :: 0 <= i < |keys| ==> keys[i] in m && m[keys[i]] == vals[i])
    && (forall k :: k in m ==> k in keys)
  }

  /** Produces an iteration over all entries of `m`. */
  method Enumerate<V>(m: map<string, V>) returns (kvs: seq<KV<V>>)
    ensures Enumerates(kvs, m)
  {
    var rest := m.Keys;
    kvs := [];
    while rest != {}
      invariant rest <= m.Keys
      invariant forall i, j :: 0 <= i < j < |kvs| ==> kvs[i].key != kvs[j].key
      invariant forall i :: 0 <= i < |kvs| ==> kvs[i].key in m && m[kvs[i].key] == kvs[i].value
      invariant forall i :: 0 <= i < |kvs| ==> kvs[i].key !in rest
      invariant forall k :: k in m ==> k in rest || k in KeysOf(kvs)
      decreases |rest|
    {
      var k :| k in rest;
      ghost var prev := kvs;
      kvs := kvs + [KV(k, m[k])];
      assert KeysOf(kvs) == KeysOf(prev) + [k];
      rest := rest - {k};
    }
  }

  /** The chaincode stub: the part of the ledger this chaincode can see. */
  class Stub<V> {
    var state: map<string, V>

    constructor (initial: map<string, V>)
      ensures state == initial
    {
      state := initial;
    }

    /** GetState: the stored record, or nothing (Go `nil`) for an absent key. */
    method GetState(key: string) returns (v: Option<V>)
      ensures key in state ==> v == Some(state[key])
      ensures key !in state ==> v == None
    {
      v := if key in state then Some(state[key]) else None;
    }

    /** PutState: writes one key. */
    method PutState(key: string, value: V)
      modifies this
      ensures state == old(state)[key := value]
    {
      state := state[key := value];
    }

    /** DelState: removes one key. */
    method DelState(key: string)
      modifies this
      ensures state == old(state) - {key}
    {
      state := state - {key};
    }

    /** GetStateByRange("", ""): an iterator over every key of the namespace. */
    method GetStateByRange() returns (kvs: seq<KV<V>>)
      ensures Enumerates(kvs, state)
    {
      kvs := Enumerate(state);
    }
  }
}

/** The passport chaincode's unsigned operations (dpp-chaincode.go): seeding the
    ledger, existence test, create, read, update, delete, and the two listing
    queries. Each operation is a pure transition of the world state (the
    functions below, which carry the properties) and an imperative method over
    the stub that is proved to perform exactly that transition. */
module DppChaincode {
  import opened Wrappers
  import opened Models
  import opened WorldState

  /** The world state: DPP records by key. */
  type World = map<string, DPP>

  /** The errors the chaincode returns (the texts of its `fmt.Errorf` calls). */
  datatype Error =
    | AlreadyExists(id: string)        // "the DPP <id> already exists"
    | DoesNotExist(id: string)         // "the DPP <id> does not exist"
    | Unauthorized                     // "unauthorized: not current owner"
    | SignatureFailed(reason: string)  // "signature verification failed: <reason>"
    | KeyLengthPanic(length: nat)      // ed25519.Verify panics: "bad public key length"
    | QueryFailed(reason: string)      // "failed to query DPPs by owner_did: <reason>"

  /** What one chaincode call returns, and the world state it leaves behind. */
  datatype Step = Step(outcome: Outcome<Error>, world: World)

  /** Every record is stored under its own DPPID. Each operation keeps it. */
  ghost predicate IdsMatchKeys(w: World)
  {
    forall k :: k in w ==> w[k].dppId == k
  }

  // ---------------------------------------------------------------- InitLedger

  /** The world after writing `dpps` one by one, each under its own DPPID. */
  function Seeded(w: World, dpps: seq<DPP>): (r: World)
    ensures IdsMatchKeys(w) ==> IdsMatchKeys(r)
    decreases |dpps|
  {
    if dpps == [] then w
    else
      var last := dpps[|dpps| - 1];
      Seeded(w, dpps[..|dpps| - 1])[last.dppId := last]
  }

  /** A key that no seeded record carries keeps its old value (or stays absent). */
  lemma {:induction false} SeededElsewhere(w: World, dpps: seq<DPP>, k: string)
    requires forall i :: 0 <= i < |dpps| ==> dpps[i].dppId != k
    ensures k in Seeded(w, dpps) <==> k in w
    ensures k in w ==> Seeded(w, dpps)[k] == w[k]
    decreases |dpps|
  {
    if dpps != [] {
      SeededElsewhere(w, dpps[..|dpps| - 1], k);
    }
  }

  /** After seeding, an id maps to the LAST record that carries it. */
  lemma {:induction false} SeededLast(w: World, dpps: seq<DPP>, i: nat)
    requires i < |dpps|
    requires forall j :: i < j < |dpps| ==> dpps[j].dppId != dpps[i].dppId
    ensures dpps[i].dppId in Seeded(w, dpps)
    ensures Seeded(w, dpps)[dpps[i].dppId] == dpps[i]
    decreases |dpps|
  {
    if i < |dpps| - 1 {
      SeededLast(w, dpps[..|dpps| - 1], i);
    }
  }

  /** InitLedger: writes every record of the (already parsed) mock file. */
  method InitLedger(stub: Stub<DPP>, dpps: seq<DPP>)
    modifies stub
    ensures stub.state == Seeded(old(stub.state), dpps)
  {
    var i := 0;
    while i < |dpps|
      invariant 0 <= i <= |dpps|
      invariant stub.state == Seeded(old(stub.state), dpps[..i])
    {
      assert dpps[..i + 1][..i] == dpps[..i];
      stub.PutState(dpps[i].dppId, dpps[i]);
      i := i + 1;
    }
    assert dpps[..i] == dpps;
  }

  // ------------------------------------------------------- DPPExists, ReadDPP

  /** DPPExists: whether the key holds a record. */
  method DPPExists(stub: Stub<DPP>, dppId: string) returns (present: bool)
    ensures present <==> dppId in stub.state
  {
    var v := stub.GetState(dppId);
    present := v.Some?;
  }

  /** ReadDPP: the stored record, or "does not exist". */
  function Read(w: World, dppId: string): (r: Result<DPP, Error>)
    ensures r.Ok? <==> dppId in w
    ensures r.Ok? ==> r.value == w[dppId]
    ensures r.Err? ==> r.error == DoesNotExist(dppId)
  {
    if dppId in w then Ok(w[dppId]) else Err(DoesNotExist(dppId))
  }

  method ReadDPP(stub: Stub<DPP>, dppId: string) returns (r: Result<DPP, Error>)
    ensures r == Read(stub.state, dppId)
  {
    var v := stub.GetState(dppId);
    if v.None? {
      return Err(DoesNotExist(dppId));
    }
    return Ok(v.value);
  }

  // ----------------------------------------------------------------- CreateDPP

  /** CreateDPP: refuses a present key; otherwise stores the given fields, with
      the one given audit entry as the whole log. Only that key is written. */
  function Create(w: World, dppId: string, ownerDid: string, serialNumber: string, status: string,
                  permissions: seq<string>, productName: string, components: seq<string>,
                  auditLog: AuditLogEntry, updatedAt: Time): (s: Step)
    ensures s.outcome.Fail? <==> dppId in w
    ensures s.outcome.Fail? ==> s.outcome.error == AlreadyExists(dppId) && s.world == w
    ensures s.outcome.Pass? ==> s.world.Keys == w.Keys + {dppId}
    ensures s.outcome.Pass? ==>
              var d := s.world[dppId];
              && d.dppId == dppId && d.ownerDid == ownerDid && d.serialNumber == serialNumber
              && d.status == status && d.permissions == permissions && d.productName == productName
              && d.components == components && d.auditLog == [auditLog] && d.updatedAt == updatedAt
    ensures s.world - {dppId} == w - {dppId}
    ensures IdsMatchKeys(w) ==> IdsMatchKeys(s.world)
  {
    if dppId in w then Step(Fail(AlreadyExists(dppId)), w)
    else
      Step(Pass, w[dppId := DPP(auditLog := [auditLog], components := components, dppId := dppId,
                                ownerDid := ownerDid, permissions := permissions, productName := productName,
                                serialNumber := serialNumber, status := status, updatedAt := updatedAt)])
  }

  method CreateDPP(stub: Stub<DPP>, dppId: string, ownerDid: string, serialNumber: string, status: string,
                   permissions: seq<string>, productName: string, components: seq<string>,
                   auditLog: AuditLogEntry, updatedAt: Time) returns (r: Outcome<Error>)
    modifies stub
    ensures Step(r, stub.state) == Create(old(stub.state), dppId, ownerDid, serialNumber, status,
                                          permissions, productName, components, auditLog, updatedAt)
  {
    var present := DPPExists(stub, dppId);
    if present {
      return Fail(AlreadyExists(dppId));
    }
    var dpp := DPP(auditLog := [auditLog], components := components, dppId := dppId,
                   ownerDid := ownerDid, permissions := permissions, productName := productName,
                   serialNumber := serialNumber, status := status, updatedAt := updatedAt);
    stub.PutState(dppId, dpp);
    return Pass;
  }

  /** A record created and then read back is the record that was created. */
  lemma CreateThenRead(w: World, dppId: string, ownerDid: string, serialNumber: string, status: string,
                       permissions: seq<string>, productName: string, components: seq<string>,
                       auditLog: AuditLogEntry, updatedAt: Time)
    requires dppId !in w
    ensures var s := Create(w, dppId, ownerDid, serialNumber, status, permissions, productName,
                            components, auditLog, updatedAt);
            && s.outcome == Pass
            && Read(s.world, dppId) == Ok(DPP(auditLog := [auditLog], components := components,
                                              dppId := dppId, ownerDid := ownerDid,
                                              permissions := permissions, productName := productName,
                                              serialNumber := serialNumber, status := status,
                                              updatedAt := updatedAt))
  {
  }

  // ----------------------------------------------------------------- UpdateDPP

  /** UpdateDPP: refuses an absent key; otherwise replaces the record wholesale.
      The old audit history is discarded: the log becomes the one given entry. */
  function Update(w: World, dppId: string, ownerDid: string, serialNumber: string, status: string,
                  permissions: seq<string>, productName: string, components: seq<string>,
                  auditLog: AuditLogEntry, updatedAt: Time): (s: Step)
    ensures s.outcome.Fail? <==> dppId !in w
    ensures s.outcome.Fail? ==> s.outcome.error == DoesNotExist(dppId) && s.world == w
    ensures s.world.Keys == w.Keys
    ensures s.outcome.Pass? ==>
              var d := s.world[dppId];
              && d.dppId == dppId && d.ownerDid == ownerDid && d.serialNumber == serialNumber
              && d.status == status && d.permissions == permissions && d.productName == productName
              && d.components == components && d.auditLog == [auditLog] && d.updatedAt == updatedAt
    ensures s.world - {dppId} == w - {dppId}
    ensures IdsMatchKeys(w) ==> IdsMatchKeys(s.world)
  {
    if dppId !in w then Step(Fail(DoesNotExist(dppId)), w)
    else
      Step(Pass, w[dppId := DPP(auditLog := [auditLog], components := components, dppId := dppId,
                                ownerDid := ownerDid, permissions := permissions, productName := productName,
                                serialNumber := serialNumber, status := status, updatedAt := updatedAt)])
  }

  method UpdateDPP(stub: Stub<DPP>, dppId: string, ownerDid: string, serialNumber: string, status: string,
                   permissions: seq<string>, productName: string, components: seq<string>,
                   auditLog: AuditLogEntry, updatedAt: Time) returns (r: Outcome<Error>)
    modifies stub
    ensures Step(r, stub.state) == Update(old(stub.state), dppId, ownerDid, serialNumber, status,
                                          permissions, productName, components, auditLog, updatedAt)
  {
    var present := DPPExists(stub, dppId);
    if !present {
      return Fail(DoesNotExist(dppId));
    }
    var dpp := DPP(auditLog := [auditLog], components := components, dppId := dppId,
                   ownerDid := ownerDid, permissions := permissions, productName := productName,
                   serialNumber := serialNumber, status := status, updatedAt := updatedAt);
    stub.PutState(dppId, dpp);
    return Pass;
  }

  // ----------------------------------------------------------------- DeleteDPP

  /** DeleteDPP: refuses an absent key; otherwise removes exactly that key. */
  function Delete(w: World, dppId: string): (s: Step)
    ensures s.outcome.Fail? <==> dppId !in w
    ensures s.outcome.Fail? ==> s.outcome.error == DoesNotExist(dppId)
    ensures s.world.Keys == w.Keys - {dppId}
    ensures forall k :: k in s.world ==> s.world[k] == w[k]
    ensures IdsMatchKeys(w) ==> IdsMatchKeys(s.world)
  {
    if dppId !in w then Step(Fail(DoesNotExist(dppId)), w)
    else Step(Pass, w - {dppId})
  }

  method DeleteDPP(stub: Stub<DPP>, dppId: string) returns (r: Outcome<Error>)
    modifies stub
    ensures Step(r, stub.state) == Delete(old(stub.state), dppId)
  {
    var present := DPPExists(stub, dppId);
    if !present {
      return Fail(DoesNotExist(dppId));
    }
    stub.DelState(dppId);
    return Pass;
  }

  /** After a successful delete the record can no longer be read, and can be created anew. */
  lemma DeleteThenRead(w: World, dppId: string, ownerDid: string, serialNumber: string, status: string,
                       permissions: seq<string>, productName: string, components: seq<string>,
                       auditLog: AuditLogEntry, updatedAt: Time)
    requires dppId in w
    ensures Delete(w, dppId).outcome == Pass
    ensures Read(Delete(w, dppId).world, dppId) == Err(DoesNotExist(dppId))
    ensures Create(Delete(w, dppId).world, dppId, ownerDid, serialNumber, status, permissions,
                   productName, components, auditLog, updatedAt).outcome == Pass
  {
  }

  // ---------------------------------------------------------- the two listings

  /** The records collected from an iteration, in iteration order. */
  method Collect(kvs: seq<KV<DPP>>) returns (dpps: seq<DPP>)
    ensures |dpps| == |kvs|
    ensures forall i :: 0 <= i < |kvs| ==> dpps[i] == kvs[i].value
  {
    dpps := [];
    var i := 0;
    while i < |kvs|
      invariant 0 <= i <= |kvs|
      invariant |dpps| == i
      invariant forall j :: 0 <= j < i ==> dpps[j] == kvs[j].value
    {
      dpps := dpps + [kvs[i].value];
      i := i + 1;
    }
  }

  /** GetAllDPPs: every stored record, each exactly once. */
  method GetAllDPPs(stub: Stub<DPP>) returns (dpps: seq<DPP>, ghost keys: seq<string>)
    ensures Lists(dpps, keys, stub.state)
    ensures forall i :: 0 <= i < |dpps| ==> dpps[i] in stub.state.Values
    ensures forall k :: k in stub.state ==> stub.state[k] in dpps
  {
    var kvs := stub.GetStateByRange();
    dpps := Collect(kvs);
    keys := KeysOf(kvs);
    forall i | 0 <= i < |dpps| ensures dpps[i] in stub.state.Values {
      assert stub.state[keys[i]] == dpps[i];
    }
    forall k | k in stub.state ensures stub.state[k] in dpps {
      var i :| 0 <= i < |keys| && keys[i] == k;
      assert dpps[i] == stub.state[k];
    }
  }

  /** The records whose owner is `ownerDid`. */
  function OwnedBy(w: World, ownerDid: string): (r: World)
    ensures forall k :: k in r <==> k in w && w[k].ownerDid == ownerDid
    ensures forall k :: k in r ==> r[k] == w[k]
  {
    map k | k in w && w[k].ownerDid == ownerDid :: w[k]
  }

  /** A value that, written between the quotes of a JSON string, stays exactly
      that string: no quote, no backslash, no control character. */
  predicate PlainDid(s: string)
  {
    forall i :: 0 <= i < |s| ==> s[i] != '"' && s[i] != '\\' && s[i] >= ' '
  }

  /** The CouchDB selector `{"selector": {"owner_did": "<owner_did>"}}` that the
      chaincode builds by plain interpolation. A plain value gives the owner
      filter; any other value is spliced into the query text unescaped. */
  datatype Selector = OwnerIs(did: string) | Injected(text: string)

  function SelectorFor(ownerDid: string): (sel: Selector)
    ensures sel.OwnerIs? <==> PlainDid(ownerDid)
    ensures sel.OwnerIs? ==> sel.did == ownerDid
  {
    if PlainDid(ownerDid) then OwnerIs(ownerDid) else Injected(ownerDid)
  }

  /** GetQueryResult as the state database answers it: the owner filter yields
      exactly the matching records; for an injected query the model promises
      only that whatever is returned is stored (the real answer depends on what
      was spliced in). */
  method GetQueryResult(stub: Stub<DPP>, sel: Selector) returns (r: Result<seq<KV<DPP>>, string>)
    ensures sel.OwnerIs? ==> r.Ok? && Enumerates(r.value, OwnedBy(stub.state, sel.did))
    ensures r.Ok? ==> forall i :: 0 <= i < |r.value| ==>
                        r.value[i].key in stub.state && stub.state[r.value[i].key] == r.value[i].value
  {
    match sel
    case OwnerIs(did) =>
      var kvs := Enumerate(OwnedBy(stub.state, did));
      return Ok(kvs);
    case Injected(_) =>
      return Err("selector is not the owner filter");
  }

  /** GetAllDPPsByOwnerDID: for a plain owner value, exactly the records of
      that owner, each once; for any value, only stored records. */
  method GetAllDPPsByOwnerDID(stub: Stub<DPP>, ownerDid: string) returns (r: Result<seq<DPP>, Error>, ghost keys: seq<string>)
    ensures PlainDid(ownerDid) ==> r.Ok? && Lists(r.value, keys, OwnedBy(stub.state, ownerDid))
    ensures PlainDid(ownerDid) ==> forall i :: 0 <= i < |r.value| ==> r.value[i].ownerDid == ownerDid
    ensures r.Ok? ==> forall i :: 0 <= i < |r.value| ==> r.value[i] in stub.state.Values
  {
    var res := GetQueryResult(stub, SelectorFor(ownerDid));
    if res.Err? {
      return Err(QueryFailed(res.error)), [];
    }
    var dpps := Collect(res.value);
    keys := KeysOf(res.value);
    forall i | 0 <= i < |dpps| ensures dpps[i] in stub.state.Values {
      assert stub.state[res.value[i].key] == dpps[i];
    }
    return Ok(dpps), keys;
  }
}

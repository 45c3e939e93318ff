/** The older chaincode variant (asset-transfer-chaincode.go). Its record has a
    permissions map and neither product name nor update time, and its transfer
    is unsigned: it changes the owner of any existing record, checks no
    authority and writes no audit entry. It declares its own SmartContract and
    DPP, so it is a separate contract; this module models it on its own. */
module AssetTransfer {
  import opened Wrappers
  import opened WorldState
  import Models

  /** This variant's record (fields in the order of its Go struct). */
  datatype DPP = DPP(
    auditLog: seq<Models.AuditLogEntry>,
    components: seq<string>,
    dppId: string,
    ownerDid: string,
    permissions: map<string, seq<string>>,
    serialNumber: string,
    status: string)

  type World = map<string, DPP>

  datatype Error =
    | AlreadyExists(id: string)  // "the DPP <id> already exists"
    | DoesNotExist(id: string)   // "the DPP <id> does not exist"

  datatype Step = Step(outcome: Outcome<Error>, world: World)

  /** DPPExists: whether the key holds a record. */
  method DPPExists(stub: Stub<DPP>, dppId: string) returns (present: bool)
    ensures present <==> dppId in stub.state
  {
    var v := stub.GetState(dppId);
    present := v.Some?;
  }

  /** ReadDPP: the stored record, or "does not exist". */
  function Read(w: World, dppId: string): (r: Result<DPP, Error>)
    ensures r.Ok? <==> dppId in w
    ensures r.Ok? ==> r.value == w[dppId]
    ensures r.Err? ==> r.error == DoesNotExist(dppId)
  {
    if dppId in w then Ok(w[dppId]) else Err(DoesNotExist(dppId))
  }

  method ReadDPP(stub: Stub<DPP>, dppId: string) returns (r: Result<DPP, Error>)
    ensures r == Read(stub.state, dppId)
  {
    var v := stub.GetState(dppId);
    if v.None? {
      return Err(DoesNotExist(dppId));
    }
    return Ok(v.value);
  }

  /** CreateDPP: refuses a present key; otherwise stores the given fields with
      the one given audit entry as the whole log. Only that key is written. */
  function Create(w: World, dppId: string, ownerDid: string, serialNumber: string, status: string,
                  permissions: map<string, seq<string>>, components: seq<string>,
                  auditLog: Models.AuditLogEntry): (s: Step)
    ensures s.outcome.Fail? <==> dppId in w
    ensures s.outcome.Fail? ==> s.outcome.error == AlreadyExists(dppId) && s.world == w
    ensures s.outcome.Pass? ==> s.world.Keys == w.Keys + {dppId}
    ensures s.outcome.Pass? ==>
              var d := s.world[dppId];
              && d.dppId == dppId && d.ownerDid == ownerDid && d.serialNumber == serialNumber
              && d.status == status && d.permissions == permissions && d.components == components
              && d.auditLog == [auditLog]
    ensures s.world - {dppId} == w - {dppId}
  {
    if dppId in w then Step(Fail(AlreadyExists(dppId)), w)
    else
      Step(Pass, w[dppId := DPP(auditLog := [auditLog], components := components, dppId := dppId,
                                ownerDid := ownerDid, permissions := permissions,
                                serialNumber := serialNumber, status := status)])
  }

  method CreateDPP(stub: Stub<DPP>, dppId: string, ownerDid: string, serialNumber: string, status: string,
                   permissions: map<string, seq<string>>, components: seq<string>,
                   auditLog: Models.AuditLogEntry) returns (r: Outcome<Error>)
    modifies stub
    ensures Step(r, stub.state) ==
              Create(old(stub.state), dppId, ownerDid, serialNumber, status, permissions, components, auditLog)
  {
    var present := DPPExists(stub, dppId);
    if present {
      return Fail(AlreadyExists(dppId));
    }
    var dpp := DPP(auditLog := [auditLog], components := components, dppId := dppId,
                   ownerDid := ownerDid, permissions := permissions,
                   serialNumber := serialNumber, status := status);
    stub.PutState(dppId, dpp);
    return Pass;
  }

  /** UpdateDPP: refuses an absent key; otherwise overwrites the whole record,
      its log included, which becomes the one given entry. */
  function Update(w: World, dppId: string, ownerDid: string, serialNumber: string, status: string,
                  permissions: map<string, seq<string>>, components: seq<string>,
                  auditLog: Models.AuditLogEntry): (s: Step)
    ensures s.outcome.Fail? <==> dppId !in w
    ensures s.outcome.Fail? ==> s.outcome.error == DoesNotExist(dppId) && s.world == w
    ensures s.world.Keys == w.Keys
    ensures s.outcome.Pass? ==>
              var d := s.world[dppId];
              && d.dppId == dppId && d.ownerDid == ownerDid && d.serialNumber == serialNumber
              && d.status == status && d.permissions == permissions && d.components == components
              && d.auditLog == [auditLog]
    ensures s.world - {dppId} == w - {dppId}
  {
    if dppId !in w then Step(Fail(DoesNotExist(dppId)), w)
    else
      Step(Pass, w[dppId := DPP(auditLog := [auditLog], components := components, dppId := dppId,
                                ownerDid := ownerDid, permissions := permissions,
                                serialNumber := serialNumber, status := status)])
  }

  method UpdateDPP(stub: Stub<DPP>, dppId: string, ownerDid: string, serialNumber: string, status: string,
                   permissions: map<string, seq<string>>, components: seq<string>,
                   auditLog: Models.AuditLogEntry) returns (r: Outcome<Error>)
    modifies stub
    ensures Step(r, stub.state) ==
              Update(old(stub.state), dppId, ownerDid, serialNumber, status, permissions, components, auditLog)
  {
    var present := DPPExists(stub, dppId);
    if !present {
      return Fail(DoesNotExist(dppId));
    }
    var dpp := DPP(auditLog := [auditLog], components := components, dppId := dppId,
                   ownerDid := ownerDid, permissions := permissions,
                   serialNumber := serialNumber, status := status);
    stub.PutState(dppId, dpp);
    return Pass;
  }

  /** DeleteDPP: refuses an absent key; otherwise removes exactly that key. */
  function Delete(w: World, dppId: string): (s: Step)
    ensures s.outcome.Fail? <==> dppId !in w
    ensures s.outcome.Fail? ==> s.outcome.error == DoesNotExist(dppId)
    ensures s.world.Keys == w.Keys - {dppId}
    ensures forall k :: k in s.world ==> s.world[k] == w[k]
  {
    if dppId !in w then Step(Fail(DoesNotExist(dppId)), w)
    else Step(Pass, w - {dppId})
  }

  method DeleteDPP(stub: Stub<DPP>, dppId: string) returns (r: Outcome<Error>)
    modifies stub
    ensures Step(r, stub.state) == Delete(old(stub.state), dppId)
  {
    var present := DPPExists(stub, dppId);
    if !present {
      return Fail(DoesNotExist(dppId));
    }
    stub.DelState(dppId);
    return Pass;
  }

  /** TransferDPP: refuses an absent key; otherwise sets the owner and nothing
      else: no authority is checked and the audit log is left as it was. */
  function Transfer(w: World, dppId: string, newOwnerDid: string): (s: Step)
    ensures s.outcome.Fail? <==> dppId !in w
    ensures s.outcome.Fail? ==> s.outcome.error == DoesNotExist(dppId) && s.world == w
    ensures s.world.Keys == w.Keys
    ensures s.world - {dppId} == w - {dppId}
    ensures s.outcome.Pass? ==>
              var (before, after) := (w[dppId], s.world[dppId]);
              && after.ownerDid == newOwnerDid
              && after.auditLog == before.auditLog && after.components == before.components
              && after.dppId == before.dppId && after.permissions == before.permissions
              && after.serialNumber == before.serialNumber && after.status == before.status
  {
    match Read(w, dppId)
    case Err(e) => Step(Fail(e), w)
    case Ok(dpp) => Step(Pass, w[dppId := dpp.(ownerDid := newOwnerDid)])
  }

  method TransferDPP(stub: Stub<DPP>, dppId: string, newOwnerDid: string) returns (r: Outcome<Error>)
    modifies stub
    ensures Step(r, stub.state) == Transfer(old(stub.state), dppId, newOwnerDid)
  {
    var read := ReadDPP(stub, dppId);
    if read.Err? {
      return Fail(read.error);
    }
    var dpp := read.value;
    dpp := dpp.(ownerDid := newOwnerDid);
    stub.PutState(dppId, dpp);
    return Pass;
  }

  /** Transferring twice to the same owner leaves the state a single transfer leaves. */
  lemma TransferIdempotent(w: World, dppId: string, newOwnerDid: string)
    ensures var once := Transfer(w, dppId, newOwnerDid);
            Transfer(once.world, dppId, newOwnerDid) == once
  {
  }

  /** Anyone can take any record: the outcome of a transfer depends only on
      whether the key is present, never on who asks or on the current owner. */
  lemma TransferNeedsNoAuthority(w: World, dppId: string, newOwnerDid: string)
    requires dppId in w
    ensures Transfer(w, dppId, newOwnerDid).outcome == Pass
    ensures Transfer(w, dppId, newOwnerDid).world[dppId] == w[dppId].(ownerDid := newOwnerDid)
  {
  }
}

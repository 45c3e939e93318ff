# BlockTrace Digital Product Passports: a verified model

BlockTrace keeps Digital Product Passports (DPPs) on a Hyperledger Fabric
ledger. A passport records a product's owner DID, serial number, status,
permissions, components and an append-only audit log. The web app's
`signTransaction.js` provides `signedFetch`, which signs a write with the
owner's Ed25519 key. The Express gateway forwards the signed triple (original
message, base64 signature, base64 public key) to the chaincode.
The chaincode checks the signature and, for transfers, checks that the signer
is the current owner.

This project models in Dafny:

- **The chaincode** (`models.dfy`, `world_state.dfy`, `dpp_chaincode.dfy`, `signed_chaincode.dfy`).
  - Each operation is a pure transition `Step(outcome, world)` over the world-state map.
  - An imperative method performs it on a `Stub`, a class whose `state` map stands for Fabric's `GetState`/`PutState`/`DelState`.
  - Each method is proved to perform exactly its transition.
  - The transitions carry the properties: error if and only if the stated condition, no change on failure, only the key `dpp_id` written, and `IdsMatchKeys` preserved.
- **The older asset-transfer contract** (`asset_transfer_chaincode.dfy`), modelled as its own module. It declares its own contract and record types.
- **The cryptographic primitives** (`crypto.dfy`).
  - base64, SHA-256, Ed25519 and UTF-8 are function values in a `Primitives` record.
  - `Lawful` states the two facts the proofs rely on:
    - base64 decoding undoes encoding;
    - a signature made with a well-formed tweetnacl secret key verifies under that key's public half.
- **The client's signing code** (`sign_transaction.dfy`, module `SigningClient`).
- **The gateway's routes** (`dpp_routes.dfy`): the positional chaincode call each route makes, and its JSON response envelope.
- **The whole protocol** (`end_to_end.dfy`). A request built by `signedFetch` with a well-formed key passes `VerifySignature` after the gateway relays it.
- **Three front-end components**:
  - the search box's recent-query list (`search_bar.dfy`);
  - the public passport page's helpers (`open_passport_page.dfy`);
  - the passport form's list editing (`dpp_form.dfy`).

Notes where the code and its documentation part ways (the model follows the code):

- `UpdateDPPWithSignature` makes no owner check. Any holder of a valid signature triple can rewrite any passport, including its `owner_did`. Only the transfer compares the signer with the owner.
- No handler compares `original_message` with its arguments. A captured triple authorises any later create or update, and any transfer of another passport with the same owner. This is stated as lemmas.
- The unsigned `UpdateDPP` replaces the audit log with the single given entry. It does not append.
- `nacl.sign.keyPair.fromSecretKey` copies the last 32 bytes of the secret key as the public key. It does not derive them.
- Go's `ed25519.Verify` panics on a public key that is not 32 bytes. The model returns a distinct error and leaves the state unchanged.
- `GetAllDPPsByOwnerDID` interpolates the owner value into the CouchDB query without escaping. `SelectorFor` is defined to give the owner filter exactly for a value with no quote, no backslash and no control character (`PlainDid`). That reading of the spliced text is the model's definition, not a proved fact.
- No component of the web app calls `signedFetch` or `signTransaction`; `DppTable.jsx` uses only `getPublicKeyFromPrivateKey`. The form (`DppForm.jsx:140-168`) and the delete button (`DppViewPage.jsx:27-35`) send unsigned requests. They put the secret key itself in an `Authorization: Bearer` header, and they go to `POST /api/dpp`, `PUT /api/dpp/:id` and `DELETE /api/dpp/:id`. The gateway does not serve these paths: it has only `/getAllDPPs`, `/getAllDPPsByOwnerDID`, `/readDPP`, `/transferDPP`, `/createDPP` and `/editDPP`. The end-to-end lemmas are about a caller that uses `signedFetch`.

## Model

| member | source | states |
|---|---|---|
| Models.Instant | blockchain/chaincodes/dpps/signed-chaincode.go:40 | `time.Unix` normalisation: the nanoseconds end in [0, 10^9), the total instant is unchanged, and an already-normal timestamp is kept as it is |
| Models.AuditTime | blockchain/chaincodes/dpps/signed-chaincode.go:47 | the RFC 3339 audit timestamp has no fractional part: it is the whole second containing the instant |
| DppChaincode.Seeded | blockchain/chaincodes/dpps/dpp-chaincode.go:29-39 | writing the seed records one by one under their own ids keeps every record stored under its own id |
| DppChaincode.SeededElsewhere | blockchain/chaincodes/dpps/dpp-chaincode.go:29-39 | a key that no seed record carries keeps its previous value, or stays absent |
| DppChaincode.SeededLast | blockchain/chaincodes/dpps/dpp-chaincode.go:29-39 | after seeding, an id holds the last seed record that carries it |
| DppChaincode.InitLedger | blockchain/chaincodes/dpps/dpp-chaincode.go:17-42 | the loop of `PutState` calls leaves exactly the seeded world |
| DppChaincode.DPPExists | blockchain/chaincodes/dpps/dpp-chaincode.go:45-52 | true exactly when the key holds a record |
| DppChaincode.Read | blockchain/chaincodes/dpps/dpp-chaincode.go:98-114 | the stored record when the key is present, otherwise "does not exist" for that id |
| DppChaincode.ReadDPP | blockchain/chaincodes/dpps/dpp-chaincode.go:98-114 | the stub method returns exactly `Read` of the current state |
| DppChaincode.Create | blockchain/chaincodes/dpps/dpp-chaincode.go:55-95 | fails exactly on a present key and then changes nothing; otherwise adds that key only, holding the given fields and a one-entry log; keeps ids matching keys |
| DppChaincode.CreateDPP | blockchain/chaincodes/dpps/dpp-chaincode.go:55-95 | the stub method performs exactly the `Create` transition |
| DppChaincode.CreateThenRead | blockchain/chaincodes/dpps/dpp-chaincode.go:55-114 | a record created under a fresh key reads back as exactly that record |
| DppChaincode.Update | blockchain/chaincodes/dpps/dpp-chaincode.go:117-158 | fails exactly on an absent key and then changes nothing; otherwise rewrites only that key, and the whole log becomes the one given entry |
| DppChaincode.UpdateDPP | blockchain/chaincodes/dpps/dpp-chaincode.go:117-158 | the stub method performs exactly the `Update` transition |
| DppChaincode.Delete | blockchain/chaincodes/dpps/dpp-chaincode.go:161-171 | fails exactly on an absent key; otherwise removes that key and changes no other record |
| DppChaincode.DeleteDPP | blockchain/chaincodes/dpps/dpp-chaincode.go:161-171 | the stub method performs exactly the `Delete` transition |
| DppChaincode.DeleteThenRead | blockchain/chaincodes/dpps/dpp-chaincode.go:55-171 | after a delete the record reads as "does not exist", and a create under that id succeeds again |
| DppChaincode.Collect | blockchain/chaincodes/dpps/dpp-chaincode.go:183-196 | the iteration loop collects every value of the iterator, in order |
| DppChaincode.GetAllDPPs | blockchain/chaincodes/dpps/dpp-chaincode.go:174-199 | lists every stored record exactly once: each returned record is stored, and every stored record is returned |
| DppChaincode.OwnedBy | blockchain/chaincodes/dpps/dpp-chaincode.go:203-209 | defined as the records whose owner is the given DID, with their stored values |
| DppChaincode.SelectorFor | blockchain/chaincodes/dpps/dpp-chaincode.go:203-207 | defined as the owner filter exactly when the value is plain, and as an injected query otherwise |
| DppChaincode.GetQueryResult | blockchain/chaincodes/dpps/dpp-chaincode.go:209-213 | an owner filter enumerates exactly the owner's records; any answer holds only stored records |
| DppChaincode.GetAllDPPsByOwnerDID | blockchain/chaincodes/dpps/dpp-chaincode.go:202-233 | for a plain owner value, exactly that owner's records, each once; for any value, only stored records |
| SignedChaincode.VerifySignature | blockchain/chaincodes/dpps/signed-chaincode.go:179-195 | an undecodable key, then an undecodable signature, gives its decode error; it passes exactly when both decode, the key is 32 bytes, and Ed25519 accepts the signature over SHA-256 of the message's UTF-8 bytes |
| SignedChaincode.Transfer | blockchain/chaincodes/dpps/signed-chaincode.go:13-55 | an absent id fails with "does not exist", and a signer who is not the owner is refused; passes exactly for the owner with a verifying triple; on success only the owner, the update time and one appended TRANSFER entry change; failure changes nothing |
| SignedChaincode.TransferDPPWithSignature | blockchain/chaincodes/dpps/signed-chaincode.go:13-55 | the stub method performs exactly the `Transfer` transition |
| SignedChaincode.Create | blockchain/chaincodes/dpps/signed-chaincode.go:58-115 | a present id fails; passes exactly for a fresh id with a verifying triple; the record holds the arguments, with the owner taken from `owner_did` and not from the signer, and one CREATE entry signed by the caller's key |
| SignedChaincode.CreateDPPWithSignature | blockchain/chaincodes/dpps/signed-chaincode.go:58-115 | the stub method performs exactly the `Create` transition |
| SignedChaincode.Update | blockchain/chaincodes/dpps/signed-chaincode.go:117-175 | an absent id fails; passes exactly for a present id with a verifying triple, with no owner check; overwrites the six fields and the update time, keeps the id, and appends one UPDATE entry |
| SignedChaincode.UpdateDPPWithSignature | blockchain/chaincodes/dpps/signed-chaincode.go:117-175 | the stub method performs exactly the `Update` transition |
| SignedChaincode.ContentIsNotChecked | blockchain/chaincodes/dpps/signed-chaincode.go:58-175 | whether a create or update succeeds does not depend on the record content or on the transaction time |
| SignedChaincode.CapturedTripleAuthorisesAnyWrite | blockchain/chaincodes/dpps/signed-chaincode.go:58-175 | a triple accepted once is accepted for any later create of a fresh id or update of a present id |
| SignedChaincode.CapturedTransferTriple | blockchain/chaincodes/dpps/signed-chaincode.go:13-55 | a triple accepted for one transfer moves any other passport with the same owner |
| AssetTransfer.DPPExists | blockchain/chaincodes/dpps/asset-transfer-chaincode.go:105-112 | true exactly when the key holds a record |
| AssetTransfer.Read | blockchain/chaincodes/dpps/asset-transfer-chaincode.go:154-170 | the stored record, or "does not exist" |
| AssetTransfer.ReadDPP | blockchain/chaincodes/dpps/asset-transfer-chaincode.go:154-170 | the stub method returns exactly `Read` of the current state |
| AssetTransfer.Create | blockchain/chaincodes/dpps/asset-transfer-chaincode.go:115-151 | fails exactly on a present key and then changes nothing; otherwise adds only that key, holding the given fields and a one-entry log |
| AssetTransfer.CreateDPP | blockchain/chaincodes/dpps/asset-transfer-chaincode.go:115-151 | the stub method performs exactly the `Create` transition |
| AssetTransfer.Update | blockchain/chaincodes/dpps/asset-transfer-chaincode.go:173-210 | fails exactly on an absent key; otherwise rewrites only that key, and the log becomes the one given entry |
| AssetTransfer.UpdateDPP | blockchain/chaincodes/dpps/asset-transfer-chaincode.go:173-210 | the stub method performs exactly the `Update` transition |
| AssetTransfer.Delete | blockchain/chaincodes/dpps/asset-transfer-chaincode.go:213-223 | fails exactly on an absent key; otherwise removes that key and nothing else |
| AssetTransfer.DeleteDPP | blockchain/chaincodes/dpps/asset-transfer-chaincode.go:213-223 | the stub method performs exactly the `Delete` transition |
| AssetTransfer.Transfer | blockchain/chaincodes/dpps/asset-transfer-chaincode.go:226-239 | fails exactly on an absent key; otherwise changes only the owner, keeping every other field and the audit log |
| AssetTransfer.TransferDPP | blockchain/chaincodes/dpps/asset-transfer-chaincode.go:226-239 | the stub method performs exactly the `Transfer` transition |
| AssetTransfer.TransferIdempotent | blockchain/chaincodes/dpps/asset-transfer-chaincode.go:226-239 | transferring twice to the same owner leaves what one transfer leaves |
| AssetTransfer.TransferNeedsNoAuthority | blockchain/chaincodes/dpps/asset-transfer-chaincode.go:226-239 | any present record can be taken by anyone: the transfer always succeeds |
| SigningClient.DecodeBase64 | web-app/src/scripts/signTransaction.js:5 | the decoded bytes exactly when the text decodes, otherwise "invalid encoding" |
| SigningClient.KeyPairFromSecretKey | web-app/src/scripts/signTransaction.js:6 | refuses a key that is not 64 bytes; the public key is the key's last 32 bytes |
| SigningClient.GetPublicKeyFromPrivateKey | web-app/src/scripts/signTransaction.js:4-8 | succeeds exactly for a decodable 64-byte key; its result decodes back to the key's public half; for a well-formed key it is the key derived from the seed |
| SigningClient.SignTransaction | web-app/src/scripts/signTransaction.js:10-25 | returns the message unchanged and the same public key as `getPublicKeyFromPrivateKey`; the signature decodes to the Ed25519 signature of SHA-256 of the message's UTF-8 bytes |
| SigningClient.WithSignature | web-app/src/scripts/signTransaction.js:35-40 | the body spread keeps every caller key except the three signature keys, which always hold the triple |
| SigningClient.SignedFetch | web-app/src/scripts/signTransaction.js:27-42 | fails exactly when signing fails; otherwise sends JSON to the URL with the given method, or POST, and the merged body |
| DppRoutes.CallFor | api/routes/dppRoutes.js:9-160 | reads are evaluated and writes submitted; `getAllDPPs` passes no argument, `getAllDPPsByOwnerDID` passes only `owner_did` and `readDPP` only `dpp_id` from the query |
| DppRoutes.TransferForwardsBodyVerbatim | api/routes/dppRoutes.js:72-86 | the transfer passes the five body fields the chaincode declares, in its parameter order, untouched |
| DppRoutes.WriteArgumentsFollowParameters | api/routes/dppRoutes.js:99-149 | create and edit pass, at each position after the first, the body field that the chaincode parameter in that position names; the signature triple is passed verbatim; create's first argument is the fresh id, edit's is the body's `dpp_id` |
| DppRoutes.CreateIgnoresBodyId | api/routes/dppRoutes.js:99-118 | the create call does not depend on any `dpp_id` in the body |
| DppRoutes.ErrorText | api/routes/dppRoutes.js:23 | defined as the error's non-empty `message`, otherwise its `toString()` |
| DppRoutes.Reply | api/routes/dppRoutes.js:9-160 | success is 200 with the parsed result for reads, or the route's message for writes; failure is 500 with the route's label and the error text; the sets of keys are exact |
| DppRoutes.RejectionPassedThrough | api/routes/dppRoutes.js:89-95 | a chaincode rejection reaches the caller word for word |
| EndToEnd.SignedTripleVerifies | web-app/src/scripts/signTransaction.js:10-25 | under the two laws, a triple signed with a well-formed key passes the chaincode's `VerifySignature` |
| EndToEnd.RelayKeepsTriple | api/routes/dppRoutes.js:72-149 | the triple that `signedFetch` merges into the body arrives as the last three arguments of the create, edit and transfer calls |
| EndToEnd.SignedCreateIsStored | blockchain/chaincodes/dpps/signed-chaincode.go:58-115 | a signed create of a fresh id is stored, and logged as signed by the client's public key |
| EndToEnd.SignedEditIsApplied | blockchain/chaincodes/dpps/signed-chaincode.go:117-175 | a signed edit of a present id is applied, whoever the owner is |
| EndToEnd.SignedTransferByOwner | blockchain/chaincodes/dpps/signed-chaincode.go:13-55 | a signed transfer succeeds exactly when the stored owner is the client's base64 public key |
| SearchBar.TrimStart | web-app/src/components/SearchBar.jsx:22 | a suffix of the input; everything cut off is whitespace, and the result does not start with whitespace |
| SearchBar.TrimEnd | web-app/src/components/SearchBar.jsx:22 | a prefix of the input; everything cut off is whitespace, and the result does not end with whitespace |
| SearchBar.TrimEmptyIffWhitespace | web-app/src/components/SearchBar.jsx:22 | the trimmed text is empty exactly when the input is all ECMAScript whitespace |
| SearchBar.TrimEnds | web-app/src/components/SearchBar.jsx:22-23 | the trimmed text neither starts nor ends with whitespace, and is a part of the input |
| SearchBar.TrimIdempotent | web-app/src/components/SearchBar.jsx:22-23 | trimming twice is trimming once |
| SearchBar.Without | web-app/src/components/SearchBar.jsx:29 | the filter keeps exactly the queries different from the id |
| SearchBar.WithoutAppend | web-app/src/components/SearchBar.jsx:29 | the filter distributes over concatenation, so it keeps relative order |
| SearchBar.WithoutAbsent | web-app/src/components/SearchBar.jsx:29 | filtering out an absent id changes nothing |
| SearchBar.WithoutNoDuplicates | web-app/src/components/SearchBar.jsx:29 | the filter keeps a list free of duplicates |
| SearchBar.RecentAfter | web-app/src/components/SearchBar.jsx:29 | the id comes first and occurs once; the length is min(5, 1 + the number of other queries); the other queries follow in their old order, and only the oldest are dropped |
| SearchBar.RecentAfterNoDuplicates | web-app/src/components/SearchBar.jsx:29 | a list without duplicates stays without duplicates |
| SearchBar.SearchHeadAgain | web-app/src/components/SearchBar.jsx:29 | searching the newest query again leaves a duplicate-free list of at most five unchanged |
| SearchBar.SearchBar.constructor | web-app/src/components/SearchBar.jsx:9-18 | mounting loads the saved list, if there is one, and the saved item and the list agree |
| SearchBar.SearchBar.SetDppId | web-app/src/components/SearchBar.jsx:59 | the box's text is replaced and nothing else changes |
| SearchBar.SearchBar.SearchDpp | web-app/src/components/SearchBar.jsx:27-35 | the list becomes `RecentAfter`, the same list is saved, and the browser goes to `/passport/<id>` |
| SearchBar.SearchBar.HandleSubmit | web-app/src/components/SearchBar.jsx:20-25 | all-whitespace input changes nothing; otherwise the trimmed id is searched |
| SearchBar.SearchBar.ClearRecentQueries | web-app/src/components/SearchBar.jsx:37-40 | the list is empty and the saved item removed |
| OpenPassportPage.FirstWithAction | web-app/src/pages/OpenPassportPage.jsx:60 | the index of the first entry with the action, or none exactly when no entry has it |
| OpenPassportPage.GetCreatedAt | web-app/src/pages/OpenPassportPage.jsx:59-62 | the timestamp of the first CREATE entry; fails when the log is missing or holds no CREATE |
| OpenPassportPage.Latest | web-app/src/pages/OpenPassportPage.jsx:70-72 | the fold is at least the start and every timestamp, and equals one of them |
| OpenPassportPage.GetLastUpdatedAt | web-app/src/pages/OpenPassportPage.jsx:64-75 | `updated_at` for a missing or empty log; otherwise the maximum of `updated_at` and the audit timestamps |
| OpenPassportPage.LatestOfOlderEntries | web-app/src/pages/OpenPassportPage.jsx:64-75 | entries no newer than `updated_at` leave it as the result |
| OpenPassportPage.Split | web-app/src/pages/OpenPassportPage.jsx:78 | one more field than there are separators, none containing the separator |
| OpenPassportPage.JoinSplit | web-app/src/pages/OpenPassportPage.jsx:78 | joining the fields with the separator gives back the string |
| OpenPassportPage.SplitJoin | web-app/src/pages/OpenPassportPage.jsx:78 | splitting a join of separator-free fields gives back the fields |
| OpenPassportPage.SplitFree | web-app/src/pages/OpenPassportPage.jsx:78 | a string without the separator is a single field |
| OpenPassportPage.GetPermissionInfo | web-app/src/pages/OpenPassportPage.jsx:77-84 | the role is always present; scope and DID are present exactly when there are at least one or two colons; no field contains a colon |
| OpenPassportPage.PermissionFields | web-app/src/pages/OpenPassportPage.jsx:77-84 | for any number of colon-free fields, role, scope and DID are the first, second and third field, and a missing one is absent |
| OpenPassportPage.PermissionReconstructs | web-app/src/pages/OpenPassportPage.jsx:77-84 | for a string with exactly two colons, role + ":" + scope + ":" + did is the string |
| OpenPassportPage.PermissionParsesFields | web-app/src/pages/OpenPassportPage.jsx:77-84 | three colon-free fields joined by colons parse back into role, scope and DID, in that order |
| DppForm.WithField | web-app/src/components/DppForm.jsx:91-96 | the field reads the new value; every other field and both lists are unchanged |
| DppForm.RemoveIndex | web-app/src/components/DppForm.jsx:113-118 | an index in range removes exactly that element and keeps the others in order; any other index changes nothing |
| DppForm.AddThenRemoveLast | web-app/src/components/DppForm.jsx:98-138 | an append followed by removal of the last index restores the list |
| DppForm.RemoveIndexShifts | web-app/src/components/DppForm.jsx:113-118 | after a removal, earlier elements stay in place and later ones move down one place |
| DppForm.DppForm.constructor | web-app/src/components/DppForm.jsx:31-49 | empty texts, status "active", empty lists, an empty component draft with score 0, and a permission draft with scope "read_only" |
| DppForm.DppForm.HandleInputChange | web-app/src/components/DppForm.jsx:91-96 | sets one field of the form, and the drafts are unchanged |
| DppForm.DppForm.SetComponentField | web-app/src/components/DppForm.jsx:241-259 | sets one text field of the component draft |
| DppForm.DppForm.SetComponentScore | web-app/src/components/DppForm.jsx:270-271 | the score is the parsed integer, or 0 when parsing fails |
| DppForm.DppForm.SetPermissionField | web-app/src/components/DppForm.jsx:327-336 | sets the role or the scope of the permission draft |
| DppForm.DppForm.AddComponent | web-app/src/components/DppForm.jsx:98-111 | appends the draft and resets it exactly when name and type are filled in; otherwise nothing changes; the permissions are untouched |
| DppForm.DppForm.RemoveComponent | web-app/src/components/DppForm.jsx:113-118 | the component list becomes `RemoveIndex` of the old one; nothing else changes |
| DppForm.DppForm.AddPermission | web-app/src/components/DppForm.jsx:120-131 | appends the draft and resets it to role "" and scope "read_only" exactly when a role is filled in; otherwise nothing changes |
| DppForm.DppForm.RemovePermission | web-app/src/components/DppForm.jsx:133-138 | the permission list becomes `RemoveIndex` of the old one; nothing else changes |

## Left out

- Cryptography internals. SHA-256 (FIPS 180-4), Ed25519 (RFC 8032) and base64 (section 4 of RFC 4648) appear only through the two laws of `Crypto.Lawful`. Anything else about them, such as rejecting a tampered signature, is not derivable and is not claimed.
- One base64 decoder models both implementations: Go's `base64.StdEncoding` and tweetnacl-util's `decodeBase64`. Their acceptance of non-canonical padding may differ.
- JSON marshalling and unmarshalling of records, and the `json.Unmarshal` errors of the permissions and components arguments. The signed operations receive these arguments already parsed (`Payload`). A nil Go slice marshals as `null` rather than `[]`; in particular, `GetAllDPPs` on an empty ledger answers `null`.
- Fabric stub errors: a failing `GetState`, `PutState`, `GetTxTimestamp` or iterator, and the shim's rejection of an empty key. The stub is a map and never fails.
- The order of a range or rich query. Fabric returns keys in lexical order; the model promises each record exactly once, in some order.
- RFC 3339 formatting of timestamps. An audit timestamp is the Unix second it denotes.
- `uuidv4()` in the create route. The fresh id is a parameter.
- The file read in `InitLedger`. The records are a parameter.
- The asset-transfer contract's `InitLedger` and `GetAllDPPs`. They have the same shape as the passport chaincode's, which are modelled.
- `getContractInstance` and the gateway connection. Each call's outcome is a parameter of `DppRoutes.Reply`.
- Endorsement, ordering, commit and concurrent transactions. Each chaincode call is one atomic transition.
- DppChaincode.GetQueryResult: for a selector whose owner value is not plain, the model refuses the query. The source's state database would run whatever the spliced text means. The contract promises only that every answer holds stored records.
- Repeated query parameters. Express's default parser turns a repeated `owner_did` or `dpp_id` into an array, and the route passes that array on. `HttpRequest.query` maps each name to one string.
- Audit entries of the unsigned handlers. `CreateDPP` and `UpdateDPP` of both contracts store the caller's `audit_log` argument verbatim, so its timestamp may be any text. `AuditLogEntry.timestamp` is an integer, the Unix second the signed handlers write.
- UTF-8 encoding of lone surrogates in `TextEncoder`. `utf8` is an uninterpreted primitive.
- Rendering, navigation effects other than the target path, the form's `handleSubmit` fetch, and its mock edit-mode data.
- Date parsing and `toLocaleString` formatting on the passport page. Timestamps are integers, so an unparseable date (NaN) is not modelled.
- `Number.parseInt` of the score text. `SetComponentScore` receives the parse result.
- The `JSON.parse` of the saved recent list. The saved item is modelled as the parsed list.

/** The record types of the passport chaincode (models.go): the Digital
    Product Passport and its audit-log entries, and the clock values the
    chaincode stores in them. */
module Models {

  /** A protobuf transaction timestamp, as GetTxTimestamp returns it. */
  datatype Timestamp = Timestamp(seconds: int, nanos: int)

  /** A Go time.Time in UTC: Unix seconds and the nanoseconds within that second. */
  datatype Time = Time(seconds: int, nanos: int)

  /** time.Unix(seconds, nanos).UTC(): whole seconds held in `nanos` are carried
      into `seconds` (rounding toward negative infinity), so that the
      nanoseconds end up in [0, 10^9). */
  function Instant(t: Timestamp): (r: Time)
    ensures 0 <= r.nanos < 1_000_000_000
    ensures r.seconds * 1_000_000_000 + r.nanos == t.seconds * 1_000_000_000 + t.nanos
    ensures 0 <= t.nanos < 1_000_000_000 ==> r == Time(t.seconds, t.nanos)
  {
    Time(t.seconds + t.nanos / 1_000_000_000, t.nanos % 1_000_000_000)
  }

  /** The instant that `Format(time.RFC3339)` writes: RFC 3339 without a
      fractional part, so the written text denotes the whole second only. */
  function AuditTime(t: Time): (seconds: int)
    ensures 0 <= t.nanos < 1_000_000_000 ==>
              seconds * 1_000_000_000 <= t.seconds * 1_000_000_000 + t.nanos < (seconds + 1) * 1_000_000_000
  {
    t.seconds
  }

  /** AuditLogEntry: who did what, and when (the RFC 3339 instant, as Unix seconds). */
  datatype AuditLogEntry = AuditLogEntry(action: string, signedBy: string, timestamp: int)

  /** The Digital Product Passport as stored in the world state (fields in the
      order of the Go struct; the lifecycle data is commented out there). */
  datatype DPP = DPP(
    auditLog: seq<AuditLogEntry>,
    components: seq<string>,
    dppId: string,
    ownerDid: string,
    permissions: seq<string>,
    productName: string,
    serialNumber: string,
    status: string,
    updatedAt: Time)
}

/** The helpers of the public passport page (OpenPassportPage.jsx): the
    creation time (the first CREATE entry of the audit log), the last update
    time (the latest of `updated_at` and every audit timestamp), and the
    parsing of a `role:scope:did` permission string. Timestamps are integers
    (milliseconds); the parsing and formatting of dates is not modelled. */
module OpenPassportPage {
  import opened Wrappers

  /** What the page reads of an audit entry and of a passport. */
  datatype AuditView = AuditView(action: string, signedBy: string, timestamp: int)

  /** `audit_log` is `None` when it is not an array (a nil Go slice arrives as `null`). */
  datatype PassportView = PassportView(updatedAt: int, auditLog: Option<seq<AuditView>>)

  // ------------------------------------------------------------ getCreatedAt

  /** `log.findIndex(e => e.action === action)`: the first entry with that action. */
  function FirstWithAction(log: seq<AuditView>, action: string): (r: Option<nat>)
    ensures r.Some? ==> r.value < |log| && log[r.value].action == action
    ensures r.Some? ==> forall j :: 0 <= j < r.value ==> log[j].action != action
    ensures r.None? ==> forall j :: 0 <= j < |log| ==> log[j].action != action
  {
    if log == [] then None
    else if log[0].action == action then Some(0)
    else match FirstWithAction(log[1..], action)
      case None => None
      case Some(i) => Some(i + 1)
  }

  /** Why getCreatedAt throws: the log is not an array, or no entry is a CREATE. */
  datatype CreatedAtError = NoAuditLog | NoCreateEntry

  /** getCreatedAt: the timestamp of the first CREATE entry. */
  function GetCreatedAt(d: PassportView): (r: Result<int, CreatedAtError>)
    ensures d.auditLog.None? ==> r == Err(NoAuditLog)
    ensures d.auditLog.Some? ==>
              (r.Err? <==> forall j :: 0 <= j < |d.auditLog.value| ==> d.auditLog.value[j].action != "CREATE")
    ensures r.Ok? ==>
              exists i :: 0 <= i < |d.auditLog.value| && d.auditLog.value[i].action == "CREATE"
                          && r.value == d.auditLog.value[i].timestamp
                          && forall j :: 0 <= j < i ==> d.auditLog.value[j].action != "CREATE"
  {
    match d.auditLog
    case None => Err(NoAuditLog)
    case Some(log) =>
      match FirstWithAction(log, "CREATE")
      case None => Err(NoCreateEntry)
      case Some(i) => Ok(log[i].timestamp)
  }

  // -------------------------------------------------------- getLastUpdatedAt

  /** `log.reduce((latest, e) => (e.timestamp > latest ? e.timestamp : latest), start)`:
      the largest of `start` and the timestamps, and one of them. */
  function Latest(start: int, log: seq<AuditView>): (r: int)
    ensures r >= start
    ensures forall i :: 0 <= i < |log| ==> r >= log[i].timestamp
    ensures r == start || exists i :: 0 <= i < |log| && r == log[i].timestamp
    decreases |log|
  {
    if log == [] then start
    else
      var latest := if log[0].timestamp > start then log[0].timestamp else start;
      var r := Latest(latest, log[1..]);
      assert forall i :: 1 <= i < |log| ==> log[i] == log[1..][i - 1];
      r
  }

  /** getLastUpdatedAt: `updated_at` when there is no log or it is empty;
      otherwise the latest of `updated_at` and every audit timestamp. */
  function GetLastUpdatedAt(d: PassportView): (r: int)
    ensures d.auditLog.None? || d.auditLog.value == [] ==> r == d.updatedAt
    ensures r >= d.updatedAt
    ensures d.auditLog.Some? ==> forall i :: 0 <= i < |d.auditLog.value| ==> r >= d.auditLog.value[i].timestamp
    ensures r == d.updatedAt || (d.auditLog.Some? && exists i :: 0 <= i < |d.auditLog.value| && r == d.auditLog.value[i].timestamp)
  {
    match d.auditLog
    case None => d.updatedAt
    case Some(log) => if log == [] then d.updatedAt else Latest(d.updatedAt, log)
  }

  /** A log whose entries are all older than `updated_at` does not move it. */
  lemma LatestOfOlderEntries(d: PassportView)
    requires d.auditLog.Some?
    requires forall i :: 0 <= i < |d.auditLog.value| ==> d.auditLog.value[i].timestamp <= d.updatedAt
    ensures GetLastUpdatedAt(d) == d.updatedAt
  {
  }

  // -------------------------------------------------------- getPermissionInfo

  function Occurrences(s: string, c: char): nat
  {
    if s == [] then 0 else (if s[0] == c then 1 else 0) + Occurrences(s[1..], c)
  }

  /** `s.split(sep)` for a one-character separator: one more field than there
      are separators, none of them containing it. */
  function Split(s: string, sep: char): (r: seq<string>)
    ensures |r| == Occurrences(s, sep) + 1
    ensures forall i :: 0 <= i < |r| ==> sep !in r[i]
    decreases |s|
  {
    if s == [] then [""]
    else
      var rest := Split(s[1..], sep);
      if s[0] == sep then [""] + rest
      else
        var r := [[s[0]] + rest[0]] + rest[1..];
        assert forall i :: 1 <= i < |r| ==> r[i] == rest[i];
        r
  }

  /** `parts.join(sep)`. */
  function Join(parts: seq<string>, sep: char): string
    requires |parts| >= 1
    decreases |parts|
  {
    if |parts| == 1 then parts[0] else parts[0] + [sep] + Join(parts[1..], sep)
  }

  /** Joining the fields gives back the string. */
  lemma {:induction false} JoinSplit(s: string, sep: char)
    ensures Join(Split(s, sep), sep) == s
    decreases |s|
  {
    if s != [] {
      JoinSplit(s[1..], sep);
      var rest := Split(s[1..], sep);
      if s[0] == sep {
        assert ([""] + rest)[1..] == rest;
        assert s == [sep] + s[1..];
      } else {
        var r := [[s[0]] + rest[0]] + rest[1..];
        if |rest| == 1 {
          assert s == [s[0]] + s[1..];
        } else {
          assert r[1..] == rest[1..];
          assert Join(rest, sep) == rest[0] + [sep] + Join(rest[1..], sep);
          assert s == [s[0]] + s[1..];
        }
      }
    }
  }

  /** Splitting a join of separator-free fields gives back the fields. */
  lemma {:induction false} SplitJoin(parts: seq<string>, sep: char)
    requires |parts| >= 1
    requires forall i :: 0 <= i < |parts| ==> sep !in parts[i]
    ensures Split(Join(parts, sep), sep) == parts
    decreases |parts|, |parts[0]|
  {
    var p := parts[0];
    if |parts| == 1 {
      SplitFree(p, sep);
    } else {
      var tail := Join(parts[1..], sep);
      if p == [] {
        assert Join(parts, sep) == [sep] + tail;
        assert ([sep] + tail)[1..] == tail;
        SplitJoin(parts[1..], sep);
        assert parts == [""] + parts[1..];
      } else {
        var shorter := [p[1..]] + parts[1..];
        assert shorter[1..] == parts[1..];
        assert forall i :: 0 <= i < |shorter| ==> sep !in shorter[i] by {
          forall i | 0 <= i < |shorter|
            ensures sep !in shorter[i]
          {
            if i > 0 {
              assert shorter[i] == parts[i];
            }
          }
        }
        SplitJoin(shorter, sep);
        assert Join(parts, sep) == [p[0]] + Join(shorter, sep);
        assert ([p[0]] + Join(shorter, sep))[1..] == Join(shorter, sep);
        assert p == [p[0]] + p[1..];
        assert parts == [p] + parts[1..];
      }
    }
  }

  /** A string without the separator is one field. */
  lemma {:induction false} SplitFree(s: string, sep: char)
    requires sep !in s
    ensures Split(s, sep) == [s]
    decreases |s|
  {
    if s != [] {
      assert sep !in s[1..];
      SplitFree(s[1..], sep);
      assert s == [s[0]] + s[1..];
    }
  }

  /** The parsed permission; a field the string lacks is `None` (`undefined`). */
  datatype PermissionInfo = PermissionInfo(role: string, scope: Option<string>, did: Option<string>)

  /** getPermissionInfo: the first three `:`-separated fields, as role, scope
      and DID; any further fields are dropped. */
  function GetPermissionInfo(permission: string): (info: PermissionInfo)
    ensures ':' !in info.role
    ensures info.scope.Some? <==> Occurrences(permission, ':') >= 1
    ensures info.did.Some? <==> Occurrences(permission, ':') >= 2
    ensures info.scope.Some? ==> ':' !in info.scope.value
    ensures info.did.Some? ==> ':' !in info.did.value
  {
    var perm := Split(permission, ':');
    PermissionInfo(role := perm[0],
                   scope := if |perm| > 1 then Some(perm[1]) else None,
                   did := if |perm| > 2 then Some(perm[2]) else None)
  }

  /** The role, scope and DID are the first, second and third colon-separated
      fields, whatever the number of fields; a missing one is `None`. */
  lemma PermissionFields(parts: seq<string>)
    requires |parts| >= 1
    requires forall i :: 0 <= i < |parts| ==> ':' !in parts[i]
    ensures GetPermissionInfo(Join(parts, ':')) ==
            PermissionInfo(parts[0],
                           if |parts| > 1 then Some(parts[1]) else None,
                           if |parts| > 2 then Some(parts[2]) else None)
  {
    SplitJoin(parts, ':');
  }

  /** A string with exactly two colons is rebuilt from its three fields. */
  lemma PermissionReconstructs(permission: string)
    requires Occurrences(permission, ':') == 2
    ensures var info := GetPermissionInfo(permission);
            info.scope.Some? && info.did.Some? &&
            info.role + ":" + info.scope.value + ":" + info.did.value == permission
  {
    var perm := Split(permission, ':');
    assert |perm| == 3;
    JoinSplit(permission, ':');
    var (a, b, c) := (perm[0], perm[1], perm[2]);
    assert perm[1..] == [b, c] && perm[1..][1..] == [c];
    assert Join([c], ':') == c;
    assert Join([b, c], ':') == b + ":" + c;
    assert Join(perm, ':') == a + ":" + (b + ":" + c);
    assert GetPermissionInfo(permission) == PermissionInfo(a, Some(b), Some(c));
  }

  /** Three colon-free fields joined by colons parse back into those fields. */
  lemma PermissionParsesFields(role: string, scope: string, did: string)
    requires ':' !in role && ':' !in scope && ':' !in did
    ensures GetPermissionInfo(role + ":" + scope + ":" + did) == PermissionInfo(role, Some(scope), Some(did))
  {
    var parts := [role, scope, did];
    assert Join(parts[2..], ':') == did;
    assert Join(parts[1..], ':') == scope + ":" + did;
    assert Join(parts, ':') == role + ":" + scope + ":" + did;
    SplitJoin(parts, ':');
  }
}

/** The access log: a newest-first buffer of denied access attempts, capped
    at a fixed number of entries. */
module LogService {
  import opened Wrappers
  import opened Seqs

  /** One denied attempt; the timestamp is not modelled. */
  datatype AccessAttemptLog = AccessAttemptLog(userId: int, email: Option<string>, targetUrl: string, userRole: string)

  const MaxLogs := 100
  const GuestEmail := "Guest"

  /** The buffer after `logAccessAttempt(entry)`: the entry in front, then
      the previous entries, cut to the cap. */
  function Logged(logs: seq<AccessAttemptLog>, entry: AccessAttemptLog): (r: seq<AccessAttemptLog>)
    ensures |r| >= 1 && r[0] == entry
    ensures |r| <= MaxLogs
    ensures |logs| < MaxLogs ==> r == [entry] + logs
    ensures |logs| >= MaxLogs ==> r == [entry] + logs[..MaxLogs - 1]
  {
    var grown := [entry] + logs;
    if |grown| > MaxLogs then grown[..MaxLogs] else grown
  }

  /** Below the cap nothing is lost: the old buffer follows the new entry. At
      the cap exactly the oldest (last) entry is dropped. */
  lemma LoggedKeepsOrder(logs: seq<AccessAttemptLog>, entry: AccessAttemptLog)
    requires |logs| <= MaxLogs
    ensures |logs| < MaxLogs ==> |Logged(logs, entry)| == |logs| + 1 && Logged(logs, entry)[1..] == logs
    ensures |logs| == MaxLogs ==> Logged(logs, entry)[1..] == logs[..|logs| - 1] && |Logged(logs, entry)| == |logs|
  {
    if |logs| < MaxLogs {
      assert ([entry] + logs)[1..] == logs;
    } else {
      assert ([entry] + logs[..MaxLogs - 1])[1..] == logs[..MaxLogs - 1];
    }
  }

  /** `log.email || 'Guest'`. */
  function DisplayEmail(email: Option<string>): (r: string)
    ensures email.None? || email == Some("") ==> r == GuestEmail
    ensures email.Some? && email.value != "" ==> r == email.value
  {
    match email
    case Some(e) => if e != "" then e else GuestEmail
    case None => GuestEmail
  }

  /** `getLogs`: a copy of every entry with a missing or empty email shown as
      `Guest`, every other field copied. */
  function GetLogs(logs: seq<AccessAttemptLog>): (r: seq<AccessAttemptLog>)
    ensures |r| == |logs|
    ensures forall i :: 0 <= i < |logs| ==>
      r[i] == logs[i].(email := Some(DisplayEmail(logs[i].email)))
  {
    MapSeq((l: AccessAttemptLog) => l.(email := Some(DisplayEmail(l.email))), logs)
  }

  /** The copy never shows an empty email, and reading it again changes nothing. */
  lemma GetLogsShowsEveryEmail(logs: seq<AccessAttemptLog>)
    ensures forall i :: 0 <= i < |logs| ==> GetLogs(logs)[i].email.Some? && GetLogs(logs)[i].email.value != ""
    ensures GetLogs(GetLogs(logs)) == GetLogs(logs)
  {
    var r := GetLogs(logs);
    forall i | 0 <= i < |logs|
      ensures DisplayEmail(r[i].email) == r[i].email.value
    {
    }
  }

  class LogService {
    var accessLogs: seq<AccessAttemptLog>

    constructor ()
      ensures accessLogs == []
    {
      accessLogs := [];
    }

    ghost predicate Valid()
      reads this
    {
      |accessLogs| <= MaxLogs
    }

    /** `unshift` the entry, then truncate to the cap. */
    method LogAccessAttempt(entry: AccessAttemptLog)
      modifies this
      ensures accessLogs == Logged(old(accessLogs), entry)
      ensures Valid()
    {
      var grown := [entry] + accessLogs;
      if |grown| > MaxLogs {
        grown := grown[..MaxLogs];
      }
      accessLogs := grown;
    }

    function Logs(): (r: seq<AccessAttemptLog>)
      reads this
      ensures r == GetLogs(accessLogs)
    {
      GetLogs(accessLogs)
    }
  }
}

/** The audit page: the log filter (search over user, description and IP
    address; action and user selects), the option lists of the two selects,
    and the summary cards (total, today, errors, warnings). */
module Audit {
  import opened Text
  import opened Listing

  datatype AuditEntry = AuditEntry(
    id: int, timestamp: string, user: string, role: string, action: string,
    description: string, ipAddress: string, severity: string)

  datatype AuditQuery = AuditQuery(search: string, action: string, user: string)

  const All: string := "all"

  /** The day the "Hoy" card counts: a fixed date, not the clock. */
  const Today: string := "2025-10-02"

  /** User and description are compared case-insensitively; the IP address is
      compared with the raw search text. */
  predicate SearchMatches(e: AuditEntry, term: string)
  {
    || FoldContains(e.user, term)
    || FoldContains(e.description, term)
    || Contains(e.ipAddress, term)
  }

  predicate EntryMatches(e: AuditEntry, q: AuditQuery)
  {
    && SearchMatches(e, q.search)
    && Selects(q.action, All, e.action)
    && Selects(q.user, All, e.user)
  }

  /** `filteredLogs`. */
  function FilterLogs(logs: seq<AuditEntry>, q: AuditQuery): (r: seq<AuditEntry>)
    ensures forall e :: e in r <==> e in logs && EntryMatches(e, q)
    ensures IsSubseq(r, logs)
    ensures |r| == Count(logs, (e: AuditEntry) => EntryMatches(e, q))
    ensures q.action != All ==> forall e :: e in r ==> e.action == q.action
    ensures q.user != All ==> forall e :: e in r ==> e.user == q.user
  {
    Filter(logs, (e: AuditEntry) => EntryMatches(e, q))
  }

  /** An empty search with both selects on `'all'` lists every entry. */
  lemma NoCriteriaListsEveryEntry(logs: seq<AuditEntry>)
    ensures FilterLogs(logs, AuditQuery("", All, All)) == logs
  {
    forall e | e in logs
      ensures EntryMatches(e, AuditQuery("", All, All))
    {
      FoldContainsEmpty(e.user);
    }
  }

  /** When neither the user nor the description contains the search text,
      ignoring case, an entry is found exactly when its IP address contains
      the text as typed. */
  lemma IpMatchIsRaw(e: AuditEntry, term: string)
    requires !FoldContains(e.user, term) && !FoldContains(e.description, term)
    ensures SearchMatches(e, term) <==> Contains(e.ipAddress, term)
  {
  }

  /** The IP address is matched case-sensitively: a log whose only hit is an
      IP address such as "localhost" is not found by "LOCALHOST", while user
      and description hits ignore case. */
  lemma IpMatchIsCaseSensitive()
    ensures var e := AuditEntry(6, "2025-10-02 13:00:00", "Sistema", "system",
                                "backup_completed", "Respaldo", "localhost", "info");
            && SearchMatches(e, "localhost")
            && !SearchMatches(e, "LOCALHOST")
  {
    var e := AuditEntry(6, "2025-10-02 13:00:00", "Sistema", "system",
                        "backup_completed", "Respaldo", "localhost", "info");
    ContainsSelf("localhost");
    assert !FoldContains(e.user, "LOCALHOST") by {
      assert |Lower("LOCALHOST")| > |Lower(e.user)|;
    }
    assert !FoldContains(e.description, "LOCALHOST") by {
      assert |Lower("LOCALHOST")| > |Lower(e.description)|;
    }
    assert !Contains(e.ipAddress, "LOCALHOST") by {
      forall i | 0 <= i <= |e.ipAddress| - |"LOCALHOST"|
        ensures !OccursAt(e.ipAddress, "LOCALHOST", i)
      {
        assert i == 0;
        assert e.ipAddress[0] != "LOCALHOST"[0];
      }
    }
  }

  function Users(logs: seq<AuditEntry>): (us: seq<string>)
    ensures |us| == |logs| && forall i :: 0 <= i < |logs| ==> us[i] == logs[i].user
  {
    seq(|logs|, i requires 0 <= i < |logs| => logs[i].user)
  }

  function Actions(logs: seq<AuditEntry>): (acts: seq<string>)
    ensures |acts| == |logs| && forall i :: 0 <= i < |logs| ==> acts[i] == logs[i].action
  {
    seq(|logs|, i requires 0 <= i < |logs| => logs[i].action)
  }

  /** `uniqueUsers`: each user of the log once, in order of first appearance. */
  method UniqueUsers(logs: seq<AuditEntry>) returns (r: seq<string>)
    ensures NoDuplicates(r)
    ensures forall u :: u in r <==> u in Users(logs)
    ensures forall u :: u in r <==> exists i :: 0 <= i < |logs| && logs[i].user == u
    ensures forall i, j :: 0 <= i < j < |r| ==> FirstIndex(Users(logs), r[i]) < FirstIndex(Users(logs), r[j])
  {
    var users := Users(logs);
    r := UniqueInOrder(users);
    assert forall u :: u in users <==> exists i :: 0 <= i < |logs| && logs[i].user == u;
  }

  /** `uniqueActions`: each action of the log once, in order of first appearance. */
  method UniqueActions(logs: seq<AuditEntry>) returns (r: seq<string>)
    ensures NoDuplicates(r)
    ensures forall a :: a in r <==> a in Actions(logs)
    ensures forall a :: a in r <==> exists i :: 0 <= i < |logs| && logs[i].action == a
    ensures forall i, j :: 0 <= i < j < |r| ==> FirstIndex(Actions(logs), r[i]) < FirstIndex(Actions(logs), r[j])
  {
    var actions := Actions(logs);
    r := UniqueInOrder(actions);
    assert forall a :: a in actions <==> exists i :: 0 <= i < |logs| && logs[i].action == a;
  }

  datatype AuditStats = AuditStats(total: nat, today: nat, errors: nat, warnings: nat)

  /** `stats`. */
  function Stats(logs: seq<AuditEntry>): (s: AuditStats)
    ensures s.total == |logs|
    ensures s.today <= s.total && s.errors + s.warnings <= s.total
    ensures s.today == 0 <==> forall e :: e in logs ==> !StartsWith(e.timestamp, Today)
    ensures s.errors == 0 <==> forall e :: e in logs ==> e.severity != "error"
  {
    var errorP := (e: AuditEntry) => e.severity == "error";
    var warningP := (e: AuditEntry) => e.severity == "warning";
    CountDisjoint(logs, errorP, warningP);
    AuditStats(
      |logs|,
      Count(logs, (e: AuditEntry) => StartsWith(e.timestamp, Today)),
      Count(logs, errorP),
      Count(logs, warningP))
  }

  /** Each new log entry moves the cards by exactly its own contribution:
      the total by one, "today" by one iff its timestamp starts with the fixed
      date, and the error and warning cards by one iff it has that severity. */
  lemma StatsOfAppendedEntry(logs: seq<AuditEntry>, e: AuditEntry)
    ensures Stats(logs + [e]).total == Stats(logs).total + 1
    ensures Stats(logs + [e]).today == Stats(logs).today + (if StartsWith(e.timestamp, Today) then 1 else 0)
    ensures Stats(logs + [e]).errors == Stats(logs).errors + (if e.severity == "error" then 1 else 0)
    ensures Stats(logs + [e]).warnings == Stats(logs).warnings + (if e.severity == "warning" then 1 else 0)
  {
    CountAppend(logs, [e], (e: AuditEntry) => StartsWith(e.timestamp, Today));
    CountAppend(logs, [e], (e: AuditEntry) => e.severity == "error");
    CountAppend(logs, [e], (e: AuditEntry) => e.severity == "warning");
  }
}

/** Deduplicated issue reports: one open row per hash, found or created by one upsert statement. */
module Issues {
  import opened Text
  import opened Model

  datatype Issue = Issue(
    conversation: Uuid,
    channel: string,
    issueType: string,
    title: string,
    body: string,
    hash: string,
    isOpen: bool,
    reports: nat,
    lastSeen: int)

  datatype Report = Report(
    conversation: Uuid,
    channel: string,
    issueType: string,
    title: string,
    body: string,
    hash: string,
    at: int)

  /** The row is named by its position: rows are never deleted. */
  datatype Upserted = Upserted(id: nat, created: bool, reports: nat)

  datatype Error = Invalid | NoInference | Database

  /** The unique index on dedupe_hash where status is open. */
  ghost predicate OneOpenPerHash(rows: seq<Issue>) {
    forall i, j :: 0 <= i < j < |rows| && rows[i].isOpen && rows[j].isOpen ==> rows[i].hash != rows[j].hash
  }

  function FindOpen(rows: seq<Issue>, hash: string): (r: Option<nat>)
    ensures r.Some? ==> r.value < |rows| && rows[r.value].isOpen && rows[r.value].hash == hash
    ensures r.None? ==> forall i :: 0 <= i < |rows| ==> !(rows[i].isOpen && rows[i].hash == hash)
  {
    if rows == [] then None
    else if rows[|rows| - 1].isOpen && rows[|rows| - 1].hash == hash then Some(|rows| - 1)
    else FindOpen(rows[..|rows| - 1], hash)
  }

  function Bump(row: Issue, r: Report): Issue {
    row.(reports := row.reports + 1, lastSeen := r.at, title := r.title, body := r.body, conversation := r.conversation)
  }

  /** The upsert statement. */
  function Upsert(rows: seq<Issue>, r: Report): (seq<Issue>, Upserted) {
    match FindOpen(rows, r.hash)
    case Some(id) => (rows[id := Bump(rows[id], r)], Upserted(id, false, rows[id].reports + 1))
    case None =>
      (rows + [Issue(r.conversation, r.channel, r.issueType, r.title, r.body, r.hash, true, 1, r.at)],
       Upserted(|rows|, true, 1))
  }

  predicate ValidReport(r: Report) {
    && r.conversation != NIL && !Blank(r.channel) && !Blank(r.issueType)
    && !Blank(r.title) && !Blank(r.body) && !Blank(r.hash)
  }

  function Clean(r: Report): Report {
    r.(issueType := TrimSpace(r.issueType), title := TrimSpace(r.title), body := TrimSpace(r.body),
       hash := TrimSpace(r.hash))
  }

  /** How a writing statement fares: its answer may be lost although it took effect. */
  datatype Fate = Executed | NotExecuted(error: Error) | AnswerLost

  /** How the statements of one call fare: the upsert, and the two of the fallback. */
  datatype Outcomes = Outcomes(upsert: Fate, find: bool, update: Fate)

  class IssueTable {
    var rows: seq<Issue>

    method UpsertAgentIssue(report: Report, outcomes: Outcomes) returns (r: Result<Upserted, Error>)
      requires OneOpenPerHash(rows)
      modifies this
      ensures OneOpenPerHash(rows)
      ensures !ValidReport(report) ==> r == Err(Invalid) && rows == old(rows)
      ensures ValidReport(report) ==> Answers(old(rows), rows, Clean(report), outcomes, r)
    {
      if report.conversation == NIL || Blank(report.channel) {
        return Err(Invalid);
      }
      var c := Clean(report);
      if c.issueType == "" || c.title == "" || c.body == "" || c.hash == "" {
        return Err(Invalid);
      }
      r := Statements(c, outcomes);
    }

    method Statements(c: Report, outcomes: Outcomes) returns (r: Result<Upserted, Error>)
      requires OneOpenPerHash(rows)
      modifies this
      ensures OneOpenPerHash(rows)
      ensures Answers(old(rows), rows, c, outcomes, r)
    {
      if !outcomes.upsert.NotExecuted? {
        UpsertKeepsIndex(rows, c);
        var (after, out) := Upsert(rows, c);
        rows := after;
        return if outcomes.upsert.AnswerLost? then Err(Database) else Ok(out);
      }
      if outcomes.upsert.error == NoInference && outcomes.find {
        var existing := FindOpen(rows, c.hash);
        if existing.Some? {
          var id := existing.value;
          if outcomes.update.NotExecuted? {
            return Err(outcomes.update.error);
          }
          UpsertKeepsIndex(rows, c);
          var seen := rows[id].reports;
          rows := rows[id := Bump(rows[id], c)];
          return if outcomes.update.AnswerLost? then Err(Database) else Ok(Upserted(id, false, seen + 1));
        }
      }
      return Err(outcomes.upsert.error);
    }
  }

  /** The fallback is taken up and finds an open issue. */
  predicate FallsBack(before: seq<Issue>, c: Report, outcomes: Outcomes) {
    outcomes.upsert == NotExecuted(NoInference) && outcomes.find && FindOpen(before, c.hash).Some?
  }

  /** What one call answers when no other caller is at work. Whichever statement writes, it is the atomic upsert:
      of the whole, or through the fallback exactly on an existing open issue. A success tells its outcome;
      an error has changed nothing, unless that statement took effect and its answer was lost. */
  ghost predicate Answers(before: seq<Issue>, after: seq<Issue>, c: Report, outcomes: Outcomes,
                          r: Result<Upserted, Error>)
  {
    var writing := if FallsBack(before, c, outcomes) then outcomes.update else outcomes.upsert;
    && after == (if writing.NotExecuted? then before else Upsert(before, c).0)
    && (r.Ok? <==> writing.Executed?)
    && (r.Ok? ==> r.value == Upsert(before, c).1)
    && (writing.NotExecuted? ==> r == Err(writing.error))
  }

  lemma UpsertKeepsIndex(rows: seq<Issue>, r: Report)
    requires OneOpenPerHash(rows)
    ensures OneOpenPerHash(Upsert(rows, r).0)
  {
  }

  lemma OpenIssueIsFound(rows: seq<Issue>, id: nat)
    requires OneOpenPerHash(rows) && id < |rows| && rows[id].isOpen
    ensures FindOpen(rows, rows[id].hash) == Some(id)
  {
    var found := FindOpen(rows, rows[id].hash);
    assert found.Some?;
    assert found.value == id;
  }

  /** After an upsert the named row is the open issue for the hash and shows this very report; it is a new row
      exactly when there was no open one, and no other row has changed. */
  lemma UpsertShowsTheReport(rows: seq<Issue>, r: Report)
    requires OneOpenPerHash(rows)
    ensures var (after, out) := Upsert(rows, r);
            && FindOpen(after, r.hash) == Some(out.id)
            && var row := after[out.id];
               && row.title == r.title && row.body == r.body
               && row.conversation == r.conversation && row.lastSeen == r.at
               && row.reports == out.reports
               && (out.created <==> FindOpen(rows, r.hash).None?) && (out.created ==> out.reports == 1)
               && (!out.created ==> FindOpen(rows, r.hash) == Some(out.id) && out.reports == rows[out.id].reports + 1)
               && |after| == |rows| + (if out.created then 1 else 0)
               && forall i :: 0 <= i < |rows| && i != out.id ==> after[i] == rows[i]
  {
    UpsertKeepsIndex(rows, r);
    var (after, out) := Upsert(rows, r);
    OpenIssueIsFound(after, out.id);
  }

  // ---- Any number of callers, with closings from outside ----

  datatype Found = Found(id: nat, reports: nat, report: Report)

  /** The table and what the callers inside the fallback have read. */
  datatype State = State(rows: seq<Issue>, found: map<nat, Found>)

  /** Steps between which other callers may run: the fallback is two statements. A write that took effect may
      leave its caller without the answer. */
  datatype Step =
    | AtomicUpsert(report: Report, answered: bool)
    | FallbackFind(caller: nat, report: Report)
    | FallbackUpdate(caller: nat, answered: bool)
    | Close(id: nat)

  predicate Answered(step: Step) {
    (step.AtomicUpsert? || step.FallbackUpdate?) && step.answered
  }

  /** The state after a step, and the report that thereby took effect. */
  function Do(s: State, step: Step): (State, Option<Report>) {
    match step
    case AtomicUpsert(r, _) => (s.(rows := Upsert(s.rows, r).0), Some(r))
    case FallbackFind(c, r) =>
      var id := FindOpen(s.rows, r.hash);
      if id.None? then (s, None)
      else (s.(found := s.found[c := Found(id.value, s.rows[id.value].reports, r)]), None)
    case FallbackUpdate(c, _) =>
      if c !in s.found || s.found[c].id >= |s.rows| then (s, None) else
      var f := s.found[c];
      (State(s.rows[f.id := Bump(s.rows[f.id], f.report)], s.found - {c}), Some(f.report))
    case Close(id) =>
      if id < |s.rows| then (s.(rows := s.rows[id := s.rows[id].(isOpen := false)]), None) else (s, None)
  }

  function Run(steps: seq<Step>): State {
    if steps == [] then State([], map[]) else Do(Run(steps[..|steps| - 1]), steps[|steps| - 1]).0
  }

  /** Reports for the hash that took effect during the run and were answered, or were not. */
  function Counted(steps: seq<Step>, hash: string, answered: bool): nat {
    if steps == [] then 0 else
    var before, last := steps[..|steps| - 1], steps[|steps| - 1];
    var report := Do(Run(before), last).1;
    Counted(before, hash, answered) +
    if report.Some? && report.value.hash == hash && Answered(last) == answered then 1 else 0
  }

  /** Report counts of all issues with the hash, open or closed. */
  function TotalReports(rows: seq<Issue>, hash: string): nat {
    if rows == [] then 0 else
    TotalReports(rows[..|rows| - 1], hash) + if rows[|rows| - 1].hash == hash then rows[|rows| - 1].reports else 0
  }

  lemma {:induction false} TotalAfterReplacing(rows: seq<Issue>, i: nat, row: Issue, hash: string)
    requires i < |rows| && row.hash == rows[i].hash && row.reports >= rows[i].reports
    ensures TotalReports(rows[i := row], hash) ==
            TotalReports(rows, hash) + if row.hash == hash then row.reports - rows[i].reports else 0
  {
    var n := |rows| - 1;
    if i < n {
      assert rows[i := row][..n] == rows[..n][i := row];
      TotalAfterReplacing(rows[..n], i, row, hash);
    } else {
      assert rows[i := row][..n] == rows[..n];
    }
  }

  ghost predicate Inv(s: State) {
    && OneOpenPerHash(s.rows)
    && forall c :: c in s.found ==> s.found[c].id < |s.rows| && s.rows[s.found[c].id].hash == s.found[c].report.hash
  }

  lemma StepKeepsInv(s: State, step: Step)
    requires Inv(s)
    ensures Inv(Do(s, step).0)
  {
    if step.AtomicUpsert? {
      UpsertKeepsIndex(s.rows, step.report);
    }
  }

  lemma StepConserves(s: State, step: Step, hash: string)
    requires Inv(s)
    ensures var (t, report) := Do(s, step);
            TotalReports(t.rows, hash) ==
            TotalReports(s.rows, hash) + if report.Some? && report.value.hash == hash then 1 else 0
  {
    match step
    case AtomicUpsert(r, _) =>
      var id := FindOpen(s.rows, r.hash);
      if id.Some? {
        TotalAfterReplacing(s.rows, id.value, Bump(s.rows[id.value], r), hash);
      } else {
        var after := Upsert(s.rows, r).0;
        assert after[..|after| - 1] == s.rows;
      }
    case FallbackFind(_, _) =>
    case FallbackUpdate(c, _) =>
      if c in s.found {
        TotalAfterReplacing(s.rows, s.found[c].id, Bump(s.rows[s.found[c].id], s.found[c].report), hash);
      }
    case Close(id) =>
      if id < |s.rows| {
        TotalAfterReplacing(s.rows, id, s.rows[id].(isOpen := false), hash);
      }
  }

  /** Over every run no report is lost or counted twice: the counts are the successes and the reports whose answer
      was lost; and a hash has at most one open issue. */
  lemma {:induction false} ReportsAreConserved(steps: seq<Step>, hash: string)
    ensures OneOpenPerHash(Run(steps).rows)
    ensures TotalReports(Run(steps).rows, hash) == Counted(steps, hash, true) + Counted(steps, hash, false)
  {
    EveryRunKeepsInv(steps);
    if steps != [] {
      var before := steps[..|steps| - 1];
      ReportsAreConserved(before, hash);
      EveryRunKeepsInv(before);
      StepConserves(Run(before), steps[|steps| - 1], hash);
    }
  }

  lemma {:induction false} EveryRunKeepsInv(steps: seq<Step>)
    ensures Inv(Run(steps))
  {
    if steps != [] {
      EveryRunKeepsInv(steps[..|steps| - 1]);
      StepKeepsInv(Run(steps[..|steps| - 1]), steps[|steps| - 1]);
    }
  }
}

/** The content of the incident report (src/components/IncidentReportGenerator.tsx):
    the rejection of an empty log, the executive summary, the timeline of the newest 15
    entries, the distinct hosts and sources, and the fixed recommendations. */
module IncidentReport {
  import opened Wrappers
  import opened Seqs
  import opened Text
  import opened Logs
  import StatsCards

  /** A toast notice. */
  datatype Notice = Notice(title: string, description: string, destructive: bool)

  /** The notice that replaces the report when there is nothing to report. */
  const NoData := Notice("No Data", "No logs available to generate report", true)

  /** One timeline block: the entry's instant (printed as a local time of day), its
      upper-cased type, and its text lines. */
  datatype TimelineItem = TimelineItem(timestamp: nat, heading: string, lines: seq<string>)

  datatype Summary = Summary(
    totalIncidents: nat,
    attackEvents: nat,
    defenseActions: nat,
    successfulAttacks: nat,
    blockedAttacks: nat,
    timeline: seq<TimelineItem>,
    compromisedHosts: nat,
    attackSources: nat,
    recommendations: seq<string>)

  /** The timeline shows at most this many entries. */
  const TimelineLength := 15

  const Recommendations: seq<string> := [
    "\U{2022} Implement rate limiting on all public endpoints",
    "\U{2022} Update WAF rules to block identified attack patterns",
    "\U{2022} Enable multi-factor authentication for all users",
    "\U{2022} Conduct security awareness training for staff",
    "\U{2022} Review and update incident response procedures",
    "\U{2022} Deploy IDS/IPS on critical network segments",
    "\U{2022} Implement zero-trust network architecture",
    "\U{2022} Schedule regular penetration testing"
  ]

  /** The lines of one timeline block: action and upper-cased status always, then a
      Source and a Target line for each of those fields that is present and not empty. */
  function TimelineOf(e: LogEntry): (item: TimelineItem)
    ensures item.timestamp == e.timestamp && item.heading == Upper(TypeName(e.kind))
    ensures |item.lines| >= 2
    ensures item.lines[0] == "Action: " + e.action
    ensures item.lines[1] == "Status: " + Upper(StatusName(e.status))
    ensures |item.lines| == 2 + (if HasText(e.details.source) then 1 else 0) + (if HasText(e.details.target) then 1 else 0)
    ensures HasText(e.details.source) ==> "Source: " + e.details.source.value in item.lines
    ensures HasText(e.details.target) ==> "Target: " + e.details.target.value in item.lines
  {
    var source := if HasText(e.details.source) then ["Source: " + e.details.source.value] else [];
    var target := if HasText(e.details.target) then ["Target: " + e.details.target.value] else [];
    TimelineItem(
      e.timestamp,
      Upper(TypeName(e.kind)),
      ["Action: " + e.action, "Status: " + Upper(StatusName(e.status))] + source + target)
  }

  /** A Source line appears exactly when the source is present and not empty, and a
      Target line exactly when the target is. */
  lemma OptionalLines(e: LogEntry)
    ensures HasText(e.details.source) <==> exists l :: l in TimelineOf(e).lines && StartsWith(l, "Source: ")
    ensures HasText(e.details.target) <==> exists l :: l in TimelineOf(e).lines && StartsWith(l, "Target: ")
  {
    var lines := TimelineOf(e).lines;
    assert lines[0][0] == 'A' && lines[1][0] == 'S' && lines[1][1] == 't';
    if HasText(e.details.source) {
      assert lines[2][0] == 'S' && lines[2][1] == 'o';
    }
    forall l | l in lines && StartsWith(l, "Source: ")
      ensures HasText(e.details.source)
    {
      var i :| 0 <= i < |lines| && lines[i] == l;
      assert l[0] == 'S' && l[1] == 'o';
    }
    forall l | l in lines && StartsWith(l, "Target: ")
      ensures HasText(e.details.target)
    {
      var i :| 0 <= i < |lines| && lines[i] == l;
      assert l[0] == 'T';
    }
    if HasText(e.details.source) {
      var l := "Source: " + e.details.source.value;
      assert l in lines && l[..8] == "Source: ";
    }
    if HasText(e.details.target) {
      var l := "Target: " + e.details.target.value;
      assert l in lines && l[..8] == "Target: ";
    }
  }

  /** `[...new Set(values.filter(Boolean))]`: the distinct present, non-empty strings. */
  function DistinctText(values: seq<Option<string>>): (r: set<string>)
    ensures |r| <= |values|
    ensures forall x :: x in r <==> exists i :: 0 <= i < |values| && values[i] == Some(x) && x != ""
  {
    if values == [] then {}
    else
      var rest := DistinctText(values[1..]);
      var here: set<string> := if HasText(values[0]) then {values[0].value} else {};
      assert |here + rest| <= |here| + |rest|;
      here + rest
  }

  /** `logs.map(l => l.details.target)`. */
  function Targets(logs: seq<LogEntry>): (r: seq<Option<string>>)
    ensures |r| == |logs| && forall i :: 0 <= i < |logs| ==> r[i] == logs[i].details.target
  {
    seq(|logs|, i requires 0 <= i < |logs| => logs[i].details.target)
  }

  /** `logs.map(l => l.details.source)`. */
  function Sources(logs: seq<LogEntry>): (r: seq<Option<string>>)
    ensures |r| == |logs| && forall i :: 0 <= i < |logs| ==> r[i] == logs[i].details.source
  {
    seq(|logs|, i requires 0 <= i < |logs| => logs[i].details.source)
  }

  /** The content of the report, or the "No Data" notice for an empty log (the case in
      which the button is also disabled). */
  function GenerateReport(logs: seq<LogEntry>): (r: Result<Summary, Notice>)
    ensures r.Err? <==> |logs| == 0
    ensures r.Err? ==> r.error == NoData && r.error.destructive
    ensures r.Ok? ==>
              && r.value.totalIncidents == |logs|
              && r.value.attackEvents + r.value.defenseActions == r.value.totalIncidents
              && r.value.successfulAttacks + r.value.blockedAttacks <= r.value.attackEvents
              && |r.value.timeline| == Min(TimelineLength, |logs|)
              && (forall i :: 0 <= i < |r.value.timeline| ==> r.value.timeline[i] == TimelineOf(logs[i]))
              && r.value.compromisedHosts == |DistinctText(Targets(logs))| <= |logs|
              && r.value.attackSources == |DistinctText(Sources(logs))| <= |logs|
              && r.value.recommendations == Recommendations
  {
    if |logs| == 0 then Err(NoData)
    else
      var attacks := OfType(logs, Attack);
      var defenses := OfType(logs, Defense);
      var successful := Filter(attacks, StatusIs(Success));
      var blocked := Filter(attacks, StatusIs(Blocked));
      TypesPartitionLog(logs);
      FilterDisjoint(attacks, StatusIs(Success), StatusIs(Blocked));
      var hosts := DistinctText(Targets(logs));
      var sources := DistinctText(Sources(logs));
      Ok(Summary(
        |logs|,
        |attacks|,
        |defenses|,
        |successful|,
        |blocked|,
        Timeline(logs),
        |hosts|,
        |sources|,
        Recommendations))
  }

  /** `logs.slice(0, 15).forEach(...)`: a block for each of the first 15 entries, in order. */
  function Timeline(logs: seq<LogEntry>): (t: seq<TimelineItem>)
    ensures |t| == Min(TimelineLength, |logs|)
    ensures forall i :: 0 <= i < |t| ==> t[i] == TimelineOf(logs[i])
  {
    var shown := logs[..Min(TimelineLength, |logs|)];
    seq(|shown|, i requires 0 <= i < |shown| => TimelineOf(shown[i]))
  }

  /** The report's counts are the counts of the summary cards for the same log. */
  lemma ReportMatchesCards(logs: seq<LogEntry>)
    requires |logs| > 0
    ensures GenerateReport(logs).value.attackEvents == StatsCards.TotalAttacks(logs)
    ensures GenerateReport(logs).value.defenseActions == StatsCards.TotalDefenses(logs)
    ensures GenerateReport(logs).value.successfulAttacks == StatsCards.SuccessfulAttacks(logs)
    ensures GenerateReport(logs).value.blockedAttacks == StatsCards.BlockedAttacks(logs)
  {
    StatsCards.AttacksWithStatus(logs, Success);
    StatsCards.AttacksWithStatus(logs, Blocked);
  }

  /** A defense entry counts its target "All Systems" among the compromised hosts. */
  lemma DefenseCountsAsHost(logs: seq<LogEntry>, i: nat)
    requires i < |logs| && logs[i].kind == Defense && WellFormed(logs[i])
    ensures AllSystems in DistinctText(Targets(logs))
    ensures GenerateReport(logs).value.compromisedHosts >= 1
  {
    assert Targets(logs)[i] == Some(AllSystems);
  }

  /** The recommendations do not depend on the log. */
  lemma FixedRecommendations(a: seq<LogEntry>, b: seq<LogEntry>)
    requires |a| > 0 && |b| > 0
    ensures GenerateReport(a).value.recommendations == GenerateReport(b).value.recommendations
    ensures |GenerateReport(a).value.recommendations| == 8
  {
  }
}

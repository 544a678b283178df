/** The session state of the dashboard page (src/pages/Index.tsx): the capped log, the
    alert list, the mode flag and the selected attack, and the two action handlers that
    build a log entry, put it in front of the log and raise an alert. */
module Index {
  import opened Wrappers
  import opened Seqs
  import opened Radix
  import opened Random
  import opened Logs

  /** The log keeps at most this many entries. */
  const MaxLogs := 50

  datatype Mode = Neutral | AttackMode | DefenseMode

  datatype Alert = Alert(id: string, message: string, kind: EntryType)

  /** The clock readings of one handler, in milliseconds: `Date.now()` for the entry id,
      `new Date()` for its timestamp and `Date.now()` again for the alert id. They are
      separate readings, so nothing makes ids unique. */
  datatype Clock = Clock(entryId: nat, timestamp: nat, alertId: nat)

  /** The `Math.random()` draws of the attack handler. */
  datatype AttackDraws = AttackDraws(
    status: real,
    source3: real, source4: real,
    target3: real, target4: real,
    payload: real)

  predicate ValidAttackDraws(d: AttackDraws)
  {
    Unit(d.status) && Unit(d.source3) && Unit(d.source4) &&
    Unit(d.target3) && Unit(d.target4) && Unit(d.payload)
  }

  /** The entry `handleAttack` builds: success when the status draw exceeds 0.3, otherwise
      blocked; random octets 0..254 after "192.168." and "10.0."; a payload of 0..999 KB. */
  function AttackEntry(attackType: string, clock: Clock, d: AttackDraws): (e: LogEntry)
    requires ValidAttackDraws(d)
    ensures WellFormed(e)
    ensures e.kind == Attack && e.action == attackType
    ensures e.id == Decimal(clock.entryId) && e.timestamp == clock.timestamp
    ensures e.status == (if d.status > 0.3 then Success else Blocked)
    ensures exists a: nat, b: nat :: a <= 254 && b <= 254 &&
              e.details.source == Some("192.168." + Decimal(a) + "." + Decimal(b))
    ensures exists a: nat, b: nat :: a <= 254 && b <= 254 &&
              e.details.target == Some("10.0." + Decimal(a) + "." + Decimal(b))
    ensures e.details.technique == Some(attackType)
    ensures exists n: nat :: n <= 999 && e.details.payload == Some(Decimal(n) + "KB")
  {
    var s3, s4 := Draw(d.source3, 255), Draw(d.source4, 255);
    var t3, t4 := Draw(d.target3, 255), Draw(d.target4, 255);
    var kb := Draw(d.payload, 1000);
    LogEntry(
      Decimal(clock.entryId),
      clock.timestamp,
      Attack,
      attackType,
      if d.status > 0.3 then Success else Blocked,
      Details(
        Some("192.168." + Decimal(s3) + "." + Decimal(s4)),
        Some("10.0." + Decimal(t3) + "." + Decimal(t4)),
        Some(attackType),
        Some(Decimal(kb) + "KB")))
  }

  /** The entry `handleDefense` builds: success when the status draw exceeds 0.2,
      otherwise failed; the only details are the method and the target "All Systems". */
  function DefenseEntry(defenseType: string, clock: Clock, statusDraw: real): (e: LogEntry)
    requires Unit(statusDraw)
    ensures WellFormed(e)
    ensures e.kind == Defense && e.action == defenseType
    ensures e.id == Decimal(clock.entryId) && e.timestamp == clock.timestamp
    ensures e.status == (if statusDraw > 0.2 then Success else Failed)
    ensures e.details == Details(None, Some(AllSystems), Some(defenseType), None)
  {
    LogEntry(
      Decimal(clock.entryId),
      clock.timestamp,
      Defense,
      defenseType,
      if statusDraw > 0.2 then Success else Failed,
      Details(None, Some(AllSystems), Some(defenseType), None))
  }

  /** The alert of an attack, naming the attack and its source address. */
  function AttackAlert(attackType: string, source: string, clock: Clock): (a: Alert)
    ensures a.kind == Attack && a.id == Decimal(clock.alertId)
    ensures |source| <= |a.message| && a.message[|a.message| - |source|..] == source
  {
    Alert(Decimal(clock.alertId), "\U{1F6A8} " + attackType + " detected from " + source, Attack)
  }

  /** The alert of a defense; it reads "activated successfully" whatever the entry's status. */
  function DefenseAlert(defenseType: string, clock: Clock): (a: Alert)
    ensures a.kind == Defense && a.id == Decimal(clock.alertId)
    ensures |defenseType| + |" activated successfully"| < |a.message| && a.message[|a.message| - |" activated successfully"|..] == " activated successfully"
  {
    Alert(Decimal(clock.alertId), "\U{1F6E1}\U{FE0F} " + defenseType + " activated successfully", Defense)
  }

  /** `[entry, ...logs.slice(0, 49)]`: the new entry first, then the newest old entries
      in their order, at most 50 in all. */
  function Prepend(entry: LogEntry, logs: seq<LogEntry>): (r: seq<LogEntry>)
    ensures |r| == Min(|logs| + 1, MaxLogs)
    ensures r[0] == entry
    ensures forall i :: 1 <= i < |r| ==> r[i] == logs[i - 1]
  {
    [entry] + logs[..Min(|logs|, MaxLogs - 1)]
  }

  /** The log after the entries were put in front one after another, from an empty log. */
  function Replay(entries: seq<LogEntry>): seq<LogEntry>
  {
    if entries == [] then [] else Prepend(entries[|entries| - 1], Replay(entries[..|entries| - 1]))
  }

  /** Whatever the number of actions, the log holds the 50 newest entries, newest first. */
  lemma {:induction false} ReplayKeepsNewest(entries: seq<LogEntry>)
    ensures |Replay(entries)| == Min(|entries|, MaxLogs)
    ensures forall i :: 0 <= i < |Replay(entries)| ==> Replay(entries)[i] == entries[|entries| - 1 - i]
  {
    if entries != [] {
      var before := entries[..|entries| - 1];
      ReplayKeepsNewest(before);
      var r := Replay(entries);
      forall i | 1 <= i < |r|
        ensures r[i] == entries[|entries| - 1 - i]
      {
        assert r[i] == Replay(before)[i - 1];
      }
    }
  }

  function IdIsNot(id: string): Alert -> bool
  {
    (a: Alert) => a.id != id
  }

  /** `alerts.filter(alert => alert.id !== id)`. */
  function WithoutAlert(alerts: seq<Alert>, id: string): (r: seq<Alert>)
    ensures |r| <= |alerts|
    ensures forall i :: 0 <= i < |r| ==> r[i].id != id && r[i] in alerts
  {
    Filter(alerts, IdIsNot(id))
  }

  /** Only alerts with that id go: every other alert stays. */
  lemma WithoutAlertKeeps(alerts: seq<Alert>, id: string, i: nat)
    requires i < |alerts| && alerts[i].id != id
    ensures alerts[i] in WithoutAlert(alerts, id)
  {
    FilterHas(alerts, IdIsNot(id), i);
  }

  /** Dismissing an id twice is dismissing it once. */
  lemma WithoutAlertIdempotent(alerts: seq<Alert>, id: string)
    ensures WithoutAlert(WithoutAlert(alerts, id), id) == WithoutAlert(alerts, id)
  {
    FilterIdempotent(alerts, IdIsNot(id));
  }

  /** Dismissing an id no alert carries changes nothing. */
  lemma WithoutMissingAlert(alerts: seq<Alert>, id: string)
    requires forall i :: 0 <= i < |alerts| ==> alerts[i].id != id
    ensures WithoutAlert(alerts, id) == alerts
  {
    FilterKeepsAll(alerts, IdIsNot(id));
  }

  /** The remaining alerts stay in their order: dismissal commutes with concatenation. */
  lemma WithoutAlertKeepsOrder(a: seq<Alert>, b: seq<Alert>, id: string)
    ensures WithoutAlert(a + b, id) == WithoutAlert(a, id) + WithoutAlert(b, id)
  {
    FilterAppend(a, b, IdIsNot(id));
  }

  /** The state of one dashboard session. */
  class Session {
    var mode: Mode
    var logs: seq<LogEntry>
    var alerts: seq<Alert>
    var selectedAttack: Option<string>

    /** The log never exceeds its cap and holds only entries the handlers build. */
    ghost predicate Valid()
      reads this
    {
      |logs| <= MaxLogs && forall i :: 0 <= i < |logs| ==> WellFormed(logs[i])
    }

    constructor ()
      ensures Valid()
      ensures mode == Neutral && logs == [] && alerts == [] && selectedAttack == None
    {
      mode := Neutral;
      logs := [];
      alerts := [];
      selectedAttack := None;
    }

    /** `handleAttack`: attack mode, the attack selected, its entry in front of the log and
        its alert at the end of the alert list. */
    method HandleAttack(attackType: string, clock: Clock, d: AttackDraws)
      requires Valid() && ValidAttackDraws(d)
      modifies this
      ensures Valid()
      ensures mode == AttackMode && selectedAttack == Some(attackType)
      ensures logs == Prepend(AttackEntry(attackType, clock, d), old(logs))
      ensures alerts == old(alerts) +
                [AttackAlert(attackType, AttackEntry(attackType, clock, d).details.source.value, clock)]
    {
      mode := AttackMode;
      selectedAttack := Some(attackType);
      var entry := AttackEntry(attackType, clock, d);
      logs := Prepend(entry, logs);
      alerts := alerts + [AttackAlert(attackType, entry.details.source.value, clock)];
    }

    /** `handleDefense`: defense mode, its entry in front of the log and its alert at the
        end of the alert list; the selected attack stays as it was. */
    method HandleDefense(defenseType: string, clock: Clock, statusDraw: real)
      requires Valid() && Unit(statusDraw)
      modifies this
      ensures Valid()
      ensures mode == DefenseMode && selectedAttack == old(selectedAttack)
      ensures logs == Prepend(DefenseEntry(defenseType, clock, statusDraw), old(logs))
      ensures alerts == old(alerts) + [DefenseAlert(defenseType, clock)]
    {
      mode := DefenseMode;
      var entry := DefenseEntry(defenseType, clock, statusDraw);
      logs := Prepend(entry, logs);
      alerts := alerts + [DefenseAlert(defenseType, clock)];
    }

    /** `removeAlert`: every alert with this id goes; nothing else changes. */
    method RemoveAlert(id: string)
      requires Valid()
      modifies this`alerts
      ensures Valid()
      ensures alerts == WithoutAlert(old(alerts), id)
    {
      alerts := WithoutAlert(alerts, id);
    }
  }

  /** One "SQL Injection" attack, then one "Firewall" defense. */
  method ExampleScenario(c1: Clock, d: AttackDraws, c2: Clock, statusDraw: real)
    requires ValidAttackDraws(d) && Unit(statusDraw)
  {
    var s := new Session();
    s.HandleAttack("SQL Injection", c1, d);
    assert |s.logs| == 1 && s.logs[0].kind == Attack;
    assert s.logs[0].status in {Success, Blocked};
    s.HandleDefense("Firewall", c2, statusDraw);
    assert |s.logs| == 2 && s.logs[0].kind == Defense && s.logs[1].kind == Attack;
    assert |s.alerts| == 2 && s.mode == DefenseMode && s.selectedAttack == Some("SQL Injection");
  }
}

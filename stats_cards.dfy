/** The four summary cards (src/components/StatsCards.tsx): attack and defense totals,
    the attack success rate and the defense (block) rate, as exact rationals. */
module StatsCards {
  import opened Seqs
  import opened Logs

  function AttackWith(s: Status): LogEntry -> bool
  {
    (e: LogEntry) => e.kind == Attack && e.status == s
  }

  function TotalAttacks(logs: seq<LogEntry>): (n: nat)
    ensures n <= |logs|
  {
    |OfType(logs, Attack)|
  }

  function TotalDefenses(logs: seq<LogEntry>): (n: nat)
    ensures n <= |logs|
  {
    |OfType(logs, Defense)|
  }

  /** Only attacks can succeed: the count never exceeds the attacks. */
  function SuccessfulAttacks(logs: seq<LogEntry>): (n: nat)
    ensures n <= TotalAttacks(logs)
  {
    AttacksWithStatus(logs, Success);
    |Filter(logs, AttackWith(Success))|
  }

  /** Only attacks are blocked: the count never exceeds the attacks. */
  function BlockedAttacks(logs: seq<LogEntry>): (n: nat)
    ensures n <= TotalAttacks(logs)
  {
    AttacksWithStatus(logs, Blocked);
    |Filter(logs, AttackWith(Blocked))|
  }

  /** Every entry is counted by exactly one of the two totals. */
  lemma TotalsCoverLog(logs: seq<LogEntry>)
    ensures TotalAttacks(logs) + TotalDefenses(logs) == |logs|
  {
    TypesPartitionLog(logs);
  }

  /** The attacks with a given status are the attack entries filtered by that status. */
  lemma AttacksWithStatus(logs: seq<LogEntry>, s: Status)
    ensures Filter(logs, AttackWith(s)) == Filter(OfType(logs, Attack), StatusIs(s))
  {
    FilterCompose(logs, KindIs(Attack), StatusIs(s), AttackWith(s));
  }

  /** Successful and blocked attacks are distinct attacks. */
  lemma OutcomesWithinAttacks(logs: seq<LogEntry>)
    ensures SuccessfulAttacks(logs) + BlockedAttacks(logs) <= TotalAttacks(logs)
  {
    AttacksWithStatus(logs, Success);
    AttacksWithStatus(logs, Blocked);
    FilterDisjoint(OfType(logs, Attack), StatusIs(Success), StatusIs(Blocked));
  }

  /** When no attack failed, successful and blocked attacks are all of them. */
  lemma OutcomesCoverAttacks(logs: seq<LogEntry>)
    requires forall i :: 0 <= i < |logs| && logs[i].kind == Attack ==> logs[i].status != Failed
    ensures SuccessfulAttacks(logs) + BlockedAttacks(logs) == TotalAttacks(logs)
  {
    AttacksWithStatus(logs, Success);
    AttacksWithStatus(logs, Blocked);
    var attacks := OfType(logs, Attack);
    forall i | 0 <= i < |attacks|
      ensures StatusIs(Success)(attacks[i]) || StatusIs(Blocked)(attacks[i])
    {
      var j :| 0 <= j < |logs| && logs[j] == attacks[i];
    }
    FilterDisjoint(attacks, StatusIs(Success), StatusIs(Blocked));
  }

  /** `r` is `part` as a percentage of `whole`, and 0 when `whole` is 0. */
  predicate IsPercent(r: real, part: nat, whole: nat)
  {
    && (whole == 0 ==> r == 0.0)
    && 0.0 <= r <= 100.0
    && (whole > 0 ==> r * whole as real == 100.0 * part as real)
  }

  /** `whole > 0 ? (part / whole) * 100 : 0`, before `toFixed(1)`. */
  function Percent(part: nat, whole: nat): (r: real)
    requires part <= whole
    ensures IsPercent(r, part, whole)
  {
    if whole > 0 then (part as real / whole as real) * 100.0 else 0.0
  }

  /** The "Attack Success Rate" card: the share of attacks that succeeded, 0 without
      attacks (no division happens then). */
  function AttackSuccessRate(logs: seq<LogEntry>): (r: real)
    ensures IsPercent(r, SuccessfulAttacks(logs), TotalAttacks(logs))
  {
    OutcomesWithinAttacks(logs);
    Percent(SuccessfulAttacks(logs), TotalAttacks(logs))
  }

  /** The "Defense Efficiency" card: the share of attacks that were blocked. */
  function DefenseRate(logs: seq<LogEntry>): (r: real)
    ensures IsPercent(r, BlockedAttacks(logs), TotalAttacks(logs))
  {
    OutcomesWithinAttacks(logs);
    Percent(BlockedAttacks(logs), TotalAttacks(logs))
  }

  /** When no attack failed (as the attack handler guarantees) the two rates add up to 100. */
  lemma RatesComplement(logs: seq<LogEntry>)
    requires TotalAttacks(logs) > 0
    requires forall i :: 0 <= i < |logs| && logs[i].kind == Attack ==> logs[i].status != Failed
    ensures AttackSuccessRate(logs) + DefenseRate(logs) == 100.0
  {
    OutcomesCoverAttacks(logs);
    PercentsComplement(SuccessfulAttacks(logs), BlockedAttacks(logs), TotalAttacks(logs));
  }

  /** Two shares that make up the whole are percentages that add up to 100. */
  lemma PercentsComplement(s: nat, b: nat, t: nat)
    requires t > 0 && s + b == t
    ensures Percent(s, t) + Percent(b, t) == 100.0
  {
    var x, y, w := Percent(s, t), Percent(b, t), t as real;
    assert IsPercent(x, s, t) && IsPercent(y, b, t);
    calc {
      (x + y) * w;
    ==  { Distribute(x, y, w); }
      x * w + y * w;
    ==
      100.0 * s as real + 100.0 * b as real;
    ==  { Distribute(s as real, b as real, 100.0); }
      100.0 * (s as real + b as real);
    ==
      100.0 * w;
    }
    Cancel(x + y, 100.0, w);
  }

  lemma Distribute(x: real, y: real, t: real)
    ensures (x + y) * t == x * t + y * t
    ensures t * (x + y) == t * x + t * y
  {
  }

  lemma Cancel(x: real, y: real, t: real)
    requires t > 0.0 && x * t == y * t
    ensures x == y
  {
  }

  /** A defense entry in front of the log changes neither rate. */
  lemma DefenseKeepsRates(e: LogEntry, logs: seq<LogEntry>)
    requires e.kind == Defense
    ensures AttackSuccessRate([e] + logs) == AttackSuccessRate(logs)
    ensures DefenseRate([e] + logs) == DefenseRate(logs)
  {
    OfTypePrepend(e, logs, Attack);
    FilterAppend([e], logs, AttackWith(Success));
    FilterAppend([e], logs, AttackWith(Blocked));
  }

  /** One successful and one blocked attack give 50 on both cards. */
  lemma OneOfEachIsFifty(a: LogEntry, b: LogEntry)
    requires a.kind == Attack && a.status == Success
    requires b.kind == Attack && b.status == Blocked
    ensures AttackSuccessRate([a, b]) == 50.0 && DefenseRate([a, b]) == 50.0
  {
    assert [a, b] == [a] + [b];
    OfTypeAppend([a], [b], Attack);
    FilterAppend([a], [b], AttackWith(Success));
    FilterAppend([a], [b], AttackWith(Blocked));
  }
}

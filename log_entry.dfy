/** The `LogEntry` record the whole dashboard derives from (src/pages/Index.tsx). */
module Logs {
  import opened Wrappers
  import opened Seqs

  datatype EntryType = Attack | Defense

  datatype Status = Success | Blocked | Failed

  /** The optional detail fields; an absent field is `None`. `technique` is the
      source's `method` field (`method` is a keyword here). */
  datatype Details = Details(
    source: Option<string>,
    target: Option<string>,
    technique: Option<string>,
    payload: Option<string>)

  /** One simulated action. `timestamp` is the creation instant in milliseconds. */
  datatype LogEntry = LogEntry(
    id: string,
    timestamp: nat,
    kind: EntryType,
    action: string,
    status: Status,
    details: Details)

  /** The string form of a `type` field. */
  function TypeName(t: EntryType): string
  {
    match t
    case Attack => "attack"
    case Defense => "defense"
  }

  /** The string form of a `status` field. */
  function StatusName(s: Status): string
  {
    match s
    case Success => "success"
    case Blocked => "blocked"
    case Failed => "failed"
  }

  /** The fixed target of every defense entry. */
  const AllSystems := "All Systems"

  /** The shape the two generators give an entry: an attack succeeds or is blocked and
      carries source, target, method and payload; a defense succeeds or fails and carries
      only the method and the target "All Systems". */
  predicate WellFormed(e: LogEntry)
  {
    match e.kind
    case Attack =>
      && e.status != Failed
      && e.details.source.Some? && e.details.target.Some? && e.details.payload.Some?
      && e.details.technique == Some(e.action)
    case Defense =>
      && e.status != Blocked
      && e.details == Details(None, Some(AllSystems), Some(e.action), None)
  }

  /** JavaScript truthiness of an optional string: present and not empty. */
  predicate HasText(o: Option<string>)
  {
    o.Some? && o.value != ""
  }

  function KindIs(t: EntryType): LogEntry -> bool
  {
    (e: LogEntry) => e.kind == t
  }

  function StatusIs(s: Status): LogEntry -> bool
  {
    (e: LogEntry) => e.status == s
  }

  /** `logs.filter(log => log.type === t)`. */
  function OfType(logs: seq<LogEntry>, t: EntryType): (r: seq<LogEntry>)
    ensures |r| <= |logs|
    ensures forall i :: 0 <= i < |r| ==> r[i].kind == t && r[i] in logs
  {
    Filter(logs, KindIs(t))
  }

  /** Every entry of type `t` is kept. */
  lemma OfTypeHas(logs: seq<LogEntry>, t: EntryType, i: nat)
    requires i < |logs| && logs[i].kind == t
    ensures logs[i] in OfType(logs, t)
  {
    FilterHas(logs, KindIs(t), i);
  }

  /** Every entry is an attack or a defense, so the two filters split the log. */
  lemma TypesPartitionLog(logs: seq<LogEntry>)
    ensures |OfType(logs, Attack)| + |OfType(logs, Defense)| == |logs|
  {
    FilterDisjoint(logs, KindIs(Attack), KindIs(Defense));
  }

  /** The entries of one type keep their log order: filtering commutes with concatenation. */
  lemma OfTypeAppend(a: seq<LogEntry>, b: seq<LogEntry>, t: EntryType)
    ensures OfType(a + b, t) == OfType(a, t) + OfType(b, t)
  {
    FilterAppend(a, b, KindIs(t));
  }

  /** Putting an entry in front of the log puts it in front of its type's entries only. */
  lemma OfTypePrepend(e: LogEntry, logs: seq<LogEntry>, t: EntryType)
    ensures OfType([e] + logs, t) == if e.kind == t then [e] + OfType(logs, t) else OfType(logs, t)
  {
    OfTypeAppend([e], logs, t);
  }
}

# Red vs Blue cyber range dashboard: a verified model

This project models the logic of a "red team vs blue team" training dashboard in Dafny.
The page keeps one session (`src/pages/Index.tsx`):

- launching an attack or a defense builds a log entry with random details;
- the entry goes in front of a log capped at 50 entries;
- the handler raises an alert, and the user can dismiss it.

Several components derive views from the log:

- the four summary cards, with counts and the two rates (`StatsCards.tsx`);
- the three pie charts of attack actions, defense actions and outcomes (`ChartSection.tsx`);
- the content of the PDF incident report (`IncidentReportGenerator.tsx`);
- the simulated packet capture, with its hex dump (`PacketViewer.tsx`);
- the CVE lookup and the CVSS severity bands of the threat intelligence panel (`ThreatIntelPanel.tsx`).

Modelling choices:

- A call of `Math.random()` is a `real` parameter in [0, 1).
- A clock reading (`Date.now()`, `new Date()`) is a `nat` parameter in milliseconds.
- The rates are exact rationals.
- CVSS scores are integer tenths: 7.5 is 75.
- Strings are `seq<char>`.
- JavaScript truthiness is modelled where the code depends on it. An `if (x)` test or a
  `.filter(Boolean)` call drops an absent string and also the empty one.

Modules:

- `Wrappers`: `Option` and `Result`.
- `Seqs`: `Array.prototype.filter` and its laws.
- `Text`: upper-casing, padding, joining and splitting strings.
- `Radix`: `String(n)` and `n.toString(16)`, with their round trip.
- `Random`: `Math.floor(Math.random() * m)`.
- `Logs`: the `LogEntry` record.
- `Index`: the session, as a class with `modifies` frames, and its entry and alert builders.
- `StatsCards`, `ChartSection`, `IncidentReport`, `PacketViewer` and `ThreatIntel`: one
  module per component.

Where a component works step by step, the model does too:

- `ChartSection.CountBy` is a loop method proved against `TallyOf`. `TallyOf` is a function
  whose properties are proved as lemmas.
- `PacketViewer.HexDump` is a loop method proved against `HexLine`.

## Model

| member | source | states |
|---|---|---|
| Seqs.Filter | src/components/StatsCards.tsx:10-13 | every kept element comes from the input and passes the predicate; never more elements than the input |
| Seqs.FilterHas | src/components/StatsCards.tsx:10-13 | every element that passes the predicate is kept |
| Seqs.FilterPositions | src/components/PacketViewer.tsx:42 | the kept elements sit at strictly increasing positions of the input, and every passing position is among them: the filter is the ordered sub-sequence of passing elements |
| Seqs.FilterAppend | src/components/IncidentReportGenerator.tsx:45-48 | filtering commutes with concatenation |
| Seqs.FilterKeepsAll | src/components/IncidentReportGenerator.tsx:45-48 | a predicate every element passes keeps the whole sequence |
| Seqs.FilterIdempotent | src/pages/Index.tsx:89 | filtering twice with one predicate is filtering once |
| Seqs.FilterCompose | src/components/StatsCards.tsx:12-13 | filtering by a conjunction is filtering by each conjunct in turn |
| Seqs.FilterDisjoint | src/components/IncidentReportGenerator.tsx:47-48 | two predicates that never hold together keep at most all elements between them, and exactly all when one of them always holds |
| Text.UpperChar | src/components/IncidentReportGenerator.tsx:78 | an ASCII lower-case letter becomes its capital; every other character is unchanged |
| Text.Upper | src/components/IncidentReportGenerator.tsx:83 | definition of `toUpperCase` on ASCII text: the same length, each character mapped by `UpperChar`; its use is stated by `IncidentReport.TimelineOf` |
| Text.Repeat | src/components/PacketViewer.tsx:23 | definition of the fill: `k` copies of the fill character; the padding it builds is stated by `Text.PadStart` |
| Text.PadStart | src/components/PacketViewer.tsx:23 | `padStart`: the result is `n` long, or as long as `s` when that is longer, ends with `s` and is filled in front |
| Text.Join | src/components/PacketViewer.tsx:24 | definition of `join`; the layout of the joined bytes is stated by `Text.JoinPairs` |
| Text.JoinPairs | src/components/PacketViewer.tsx:22-24 | joining two-character parts puts part `j` at offset `3j` and the separator at `3j+2` |
| Text.FirstToken | src/components/ThreatIntelPanel.tsx:65 | `split(' ')[0]` is a space-free prefix of the string: everything before the first space, or the whole string when it has none |
| Text.FirstTokenOfPair | src/components/ThreatIntelPanel.tsx:65 | the first token of `a + " " + b` is `a` when `a` has no space |
| Radix.DigitChar | src/components/PacketViewer.tsx:23 | a digit below 16 is a lower-case digit character, and `'0'` only for 0 |
| Radix.DigitRoundTrip | src/components/PacketViewer.tsx:23 | a digit character reads back as its digit |
| Radix.ToRadix | src/components/PacketViewer.tsx:23 | `n.toString(base)` is a non-empty digit string without a leading zero that reads back as `n` |
| Radix.Decimal | src/pages/Index.tsx:38 | `toString()` of an integer is a decimal numeral of it |
| Radix.Hex | src/components/PacketViewer.tsx:36 | `toString(16)` is a hex numeral of the number |
| Radix.DecimalInjective | src/pages/Index.tsx:54 | distinct clock readings give distinct id strings, and equal ones equal ids |
| Radix.RadixLength | src/components/PacketViewer.tsx:25 | a number below `base^k` has at most `k` digits |
| Radix.LeadingZeros | src/components/PacketViewer.tsx:23 | leading zeros do not change a numeral's value |
| Radix.ZerosValue | src/components/PacketViewer.tsx:23 | a string of zeros is worth 0 |
| Radix.PaddedRadix | src/components/PacketViewer.tsx:36 | zero-padding to `k` digits a number below `base^k` gives exactly `k` digits that read back as the number |
| Random.Draw | src/pages/Index.tsx:44 | `Math.floor(r * m)` is the integer below `m` whose unit interval holds `r * m` |
| Logs.OfType | src/components/StatsCards.tsx:10-11 | the kept entries are of the type and come from the log |
| Logs.OfTypeHas | src/components/StatsCards.tsx:10-11 | every entry of the type is kept |
| Logs.TypesPartitionLog | src/components/StatsCards.tsx:10-11 | the attack and the defense entries together are the whole log |
| Logs.OfTypeAppend | src/components/ChartSection.tsx:12-13 | the entries of one type keep their log order |
| Logs.OfTypePrepend | src/pages/Index.tsx:51 | a new entry in front of the log goes in front of its own type's entries only |
| Index.AttackEntry | src/pages/Index.tsx:37-49 | an attack entry: the id is the decimal clock reading; the status is success exactly when the draw exceeds 0.3, else blocked; the source is `192.168.a.b` and the target `10.0.c.d` with octets at most 254; the payload is `nKB` with `n < 1000`; the method is the attack type |
| Index.AttackAlert | src/pages/Index.tsx:53-57 | an attack alert: its id is the decimal clock reading, its kind is attack, and its message ends with the source address |
| Index.DefenseEntry | src/pages/Index.tsx:65-75 | a defense entry: success exactly when the draw exceeds 0.2, else failed; the only details are the method and the target "All Systems" |
| Index.DefenseAlert | src/pages/Index.tsx:79-83 | a defense alert: its id is the decimal clock reading, its kind is defense, and its message ends with " activated successfully" |
| Index.Prepend | src/pages/Index.tsx:51 | the new entry first, then the old entries in order, at most 50 in all |
| Index.Replay | src/pages/Index.tsx:51 | definition of the log after a run of actions from an empty log; what it holds is stated by `Index.ReplayKeepsNewest` |
| Index.ReplayKeepsNewest | src/pages/Index.tsx:77 | after any number of actions the log holds the newest 50 entries, newest first |
| Index.WithoutAlert | src/pages/Index.tsx:89 | the alerts left have other ids and were there before |
| Index.WithoutAlertKeeps | src/pages/Index.tsx:89 | every alert with another id stays |
| Index.WithoutAlertIdempotent | src/pages/Index.tsx:89 | dismissing the same id twice is dismissing it once |
| Index.WithoutMissingAlert | src/pages/Index.tsx:89 | dismissing an id that no alert carries changes nothing |
| Index.WithoutAlertKeepsOrder | src/pages/Index.tsx:89 | the remaining alerts keep their order |
| Index.Session.constructor | src/pages/Index.tsx:28-31 | neutral mode, empty log and alert list, nothing selected |
| Index.Session.HandleAttack | src/pages/Index.tsx:33-57 | attack mode; the attack selected; its entry in front of the capped log; its alert, naming the source address, appended; the log stays capped and well formed |
| Index.Session.HandleDefense | src/pages/Index.tsx:62-83 | defense mode; the selection unchanged; its entry in front of the capped log; its alert appended |
| Index.Session.RemoveAlert | src/pages/Index.tsx:88-90 | only the alert list changes, to the alerts without that id |
| Index.ExampleScenario | src/pages/Index.tsx:33-86 | one attack then one defense from a fresh session: two entries, newest first, two alerts, defense mode, the attack still selected (asserted in its body; it has no ensures) |
| StatsCards.TotalAttacks | src/components/StatsCards.tsx:10 | the number of attack entries, at most the log length |
| StatsCards.TotalDefenses | src/components/StatsCards.tsx:11 | the number of defense entries, at most the log length |
| StatsCards.SuccessfulAttacks | src/components/StatsCards.tsx:12 | the successful attacks, at most all attacks |
| StatsCards.BlockedAttacks | src/components/StatsCards.tsx:13 | the blocked attacks, at most all attacks |
| StatsCards.TotalsCoverLog | src/components/StatsCards.tsx:10-11 | total attacks plus total defenses is the log length |
| StatsCards.AttacksWithStatus | src/components/StatsCards.tsx:12-13 | the attacks with a status are the attack entries filtered by that status |
| StatsCards.OutcomesWithinAttacks | src/components/StatsCards.tsx:12-13 | successful plus blocked attacks never exceed all attacks |
| StatsCards.OutcomesCoverAttacks | src/components/StatsCards.tsx:12-13 | when no attack failed, successful plus blocked attacks are all of them |
| StatsCards.Percent | src/components/StatsCards.tsx:15 | a share in [0, 100] such that share times whole is 100 times part; 0 for an empty whole |
| StatsCards.AttackSuccessRate | src/components/StatsCards.tsx:15 | the rate is the share of attacks that succeeded, and 0 without attacks |
| StatsCards.DefenseRate | src/components/StatsCards.tsx:16 | the rate is the share of attacks that were blocked, and 0 without attacks |
| StatsCards.PercentsComplement | src/components/StatsCards.tsx:15-16 | two parts that make up the whole have shares adding to 100 |
| StatsCards.RatesComplement | src/components/StatsCards.tsx:15-16 | with some attacks and none failed, the success and defense rates add up to 100 |
| StatsCards.DefenseKeepsRates | src/components/StatsCards.tsx:15-16 | a defense entry changes neither rate |
| StatsCards.OneOfEachIsFifty | src/components/StatsCards.tsx:15-16 | one successful and one blocked attack give 50 on both cards |
| ChartSection.Bump | src/components/ChartSection.tsx:15 | definition of one `reduce` step; its effect is stated by `ChartSection.BumpCounts` |
| ChartSection.BumpCounts | src/components/ChartSection.tsx:15 | counting `k` adds one to its count, or starts it at 1 and appends it to the key order; every other count and the keys otherwise stay as they were |
| ChartSection.EntriesOf | src/components/ChartSection.tsx:19-22 | definition of `Object.entries`: one `{name, value}` slice per key, in key order; the chart properties are stated by `ChartSection.TallySlices` |
| ChartSection.EntriesBumpOld | src/components/ChartSection.tsx:15 | counting a key already present adds one to its slice and changes no other slice |
| ChartSection.EntriesBumpNew | src/components/ChartSection.tsx:15 | counting a new key appends a slice of value 1 |
| ChartSection.Occurrences | src/components/ChartSection.tsx:15 | a string's count is 0 exactly when it does not occur, and at most the length |
| ChartSection.OccurrencesSnoc | src/components/ChartSection.tsx:14-17 | one more string adds one to its own count only |
| ChartSection.Dedup | src/components/ChartSection.tsx:19 | the keys are strings of the input |
| ChartSection.DedupHas | src/components/ChartSection.tsx:19 | every string of the input is a key |
| ChartSection.DedupDistinct | src/components/ChartSection.tsx:19 | no key appears twice |
| ChartSection.TallyOf | src/components/ChartSection.tsx:14-17 | every key of the dictionary has a count |
| ChartSection.DedupSnoc | src/components/ChartSection.tsx:14-17 | a new string becomes the last key; a repeated one adds no key |
| ChartSection.CountsSnoc | src/components/ChartSection.tsx:15 | one more occurrence of `x` adds one to its count, and a new key starts at 1 |
| ChartSection.BumpSnoc | src/components/ChartSection.tsx:14-17 | one step of the `reduce` takes the dictionary of a prefix to that of the longer prefix |
| ChartSection.CountBy | src/components/ChartSection.tsx:14-17 | the loop builds exactly the dictionary of the whole input |
| ChartSection.SumIncrement | src/components/ChartSection.tsx:15 | adding one to a slice adds one to the sum |
| ChartSection.SumIgnoresNames | src/components/ChartSection.tsx:43-46 | renaming slices keeps the sum |
| ChartSection.BumpSum | src/components/ChartSection.tsx:15 | each counted string adds one to the sum of the slices |
| ChartSection.TallyTotal | src/components/ChartSection.tsx:14-22 | the slice values add up to the number of strings counted |
| ChartSection.TallySlices | src/components/ChartSection.tsx:14-22 | slices sum to the input length; there are none exactly for empty input; names are distinct; each value is the name's number of occurrences, at least 1 |
| ChartSection.TallyHasSlice | src/components/ChartSection.tsx:14-22 | every string counted has its slice |
| ChartSection.Actions | src/components/ChartSection.tsx:15 | definition: the actions of the entries, in log order; the chart built from them is stated by `ChartSection.ActionDistribution` |
| ChartSection.Statuses | src/components/ChartSection.tsx:39 | the status names of the entries, in log order, each one of "success", "blocked", "failed" |
| ChartSection.ActionDistribution | src/components/ChartSection.tsx:12-35 | the attack or defense chart: slices sum to the number of entries of that type; none exactly without such entries; one slice per distinct action, valued by its count; every entry's action has a slice |
| ChartSection.Capitalize | src/components/ChartSection.tsx:44 | only the first character is upper-cased; the rest of the name is kept |
| ChartSection.StatusLabels | src/components/ChartSection.tsx:44 | the three status names become "Success", "Blocked" and "Failed" |
| ChartSection.StatusDistribution | src/components/ChartSection.tsx:38-46 | the status chart: slices sum to the log length; none exactly for an empty log; capitalised distinct status names with values at least 1; every status that occurs has its slice |
| ChartSection.StatusSlices | src/components/ChartSection.tsx:38-46 | the relabelled tally of any status names is their status chart |
| ChartSection.EveryStatusHasSlice | src/components/ChartSection.tsx:43-46 | every status that occurs has a slice with its capitalised name |
| ChartSection.KeysAreStatusNames | src/components/ChartSection.tsx:38-41 | the keys of the status tally are status names |
| ChartSection.StatusLabelsValid | src/components/ChartSection.tsx:43-46 | relabelled status slices carry one of the three capitalised names |
| ChartSection.StatusLabelsDistinct | src/components/ChartSection.tsx:43-46 | relabelling keeps distinct status names distinct |
| ChartSection.Relabel | src/components/ChartSection.tsx:43-46 | definition: each slice keeps its value and gets its capitalised name; the resulting chart is stated by `ChartSection.StatusSlices` |
| ChartSection.LabelOf | src/components/ChartSection.tsx:44 | a status name capitalises to one of the three labels |
| ChartSection.LabelsDistinct | src/components/ChartSection.tsx:44 | different status names get different labels |
| ChartSection.CellColor | src/components/ChartSection.tsx:81 | `palette[index % length]` is always a palette colour, and colour `index` for the first `length` slices |
| IncidentReport.TimelineOf | src/components/IncidentReportGenerator.tsx:78-91 | a timeline block: the instant; the upper-cased type; "Action:" and upper-cased "Status:" lines; one Source and one Target line for each field that is present and not empty |
| IncidentReport.OptionalLines | src/components/IncidentReportGenerator.tsx:84-91 | a Source line appears exactly when the source is non-empty, and a Target line exactly when the target is |
| IncidentReport.Targets | src/components/IncidentReportGenerator.tsx:106 | one target per entry, in log order |
| IncidentReport.Sources | src/components/IncidentReportGenerator.tsx:107 | one source per entry, in log order |
| IncidentReport.DistinctText | src/components/IncidentReportGenerator.tsx:106-107 | the set holds exactly the present non-empty values, and is at most as large as the list |
| IncidentReport.GenerateReport | src/components/IncidentReportGenerator.tsx:16-136 | the destructive "No Data" notice exactly for an empty log; otherwise the totals (attacks plus defenses make all incidents, successful plus blocked within the attacks), the first 15 entries as timeline blocks, the compromised-host count equal to the number of distinct present non-empty targets and the attack-source count to that of sources (each at most the log length), and the eight recommendations |
| IncidentReport.Timeline | src/components/IncidentReportGenerator.tsx:71-78 | the first 15 entries, or all when fewer, each as its timeline block, in log order |
| IncidentReport.ReportMatchesCards | src/components/IncidentReportGenerator.tsx:45-60 | the report's attack, defense, successful and blocked counts are those of the summary cards |
| IncidentReport.DefenseCountsAsHost | src/components/IncidentReportGenerator.tsx:106 | a defense entry's "All Systems" target is counted among the compromised hosts |
| IncidentReport.FixedRecommendations | src/components/IncidentReportGenerator.tsx:127-136 | the eight recommendations do not depend on the log |
| PacketViewer.PaddedHex | src/components/PacketViewer.tsx:23-36 | definition of `toString(16).padStart(k, '0')`; its digits are stated by `PacketViewer.PaddedHexDigits` |
| PacketViewer.PaddedHexDigits | src/components/PacketViewer.tsx:23 | `toString(16).padStart(k, '0')` of a number below `16^k` is `k` hex digits worth the number |
| PacketViewer.HexByte | src/components/PacketViewer.tsx:23 | a byte is two hex digits worth the byte |
| PacketViewer.HexByteIsPadded | src/components/PacketViewer.tsx:23 | the padded hex of a byte is those two digits |
| PacketViewer.DrawBytes | src/components/PacketViewer.tsx:22-23 | one byte below 256 per draw |
| PacketViewer.RowBytes | src/components/PacketViewer.tsx:22-24 | line `i` shows bytes `16i .. 16i+15`, two digits each |
| PacketViewer.LineLayout | src/components/PacketViewer.tsx:24-25 | in a dump line, byte `j` sits at column `6+3j` and a space at `8+3j` |
| PacketViewer.OffsetText | src/components/PacketViewer.tsx:25 | the offset of line `i` is four hex digits worth `16i` |
| PacketViewer.OffsetLabel | src/components/PacketViewer.tsx:25 | `(i * 16).toString(16).padStart(4, '0')` is that offset text |
| PacketViewer.OffsetLabels | src/components/PacketViewer.tsx:25 | the offsets read 0000, 0010, ..., 0070 |
| PacketViewer.HexLine | src/components/PacketViewer.tsx:22-25 | a dump line is 53 characters: the offset, two spaces, then the sixteen bytes separated by single spaces |
| PacketViewer.HexDump | src/components/PacketViewer.tsx:20-26 | the loop builds eight lines, line `i` being the dump line of row `i` |
| PacketViewer.GeneratePacketData | src/components/PacketViewer.tsx:12-37 | a protocol of the five; a source port below 65535; for attacks one of the five attack ports, for other entries the source port; a payload of 64-1563 bytes; the eight-line dump; flags by entry type; a TTL of 64-127; a checksum of four hex digits worth at most 0xFFFE |
| PacketViewer.ChecksumNotFFFF | src/components/PacketViewer.tsx:36 | the checksum never reads "ffff" |
| PacketViewer.AttackLogs | src/components/PacketViewer.tsx:42 | the listed packets are attack entries of the log |
| PacketViewer.AttackLogsInOrder | src/components/PacketViewer.tsx:42 | the list is exactly the attack entries, in log order |
| PacketViewer.DefenseAddsNoPacket | src/components/PacketViewer.tsx:42 | a defense entry adds no packet |
| ThreatIntel.CvssSeverity | src/components/ThreatIntelPanel.tsx:21-26 | CRITICAL exactly from 9.0, HIGH exactly on [7.0, 9.0), MEDIUM exactly on [4.0, 7.0), LOW exactly below 4.0 |
| ThreatIntel.SeverityFollowsStandard | src/components/ThreatIntelPanel.tsx:21-26 | on 0.1-10.0 the band is the one in section 5 of the CVSS v3.1 Specification Document |
| ThreatIntel.ZeroIsLow | src/components/ThreatIntelPanel.tsx:25 | 0.0 is LOW, where the standard rates it None |
| ThreatIntel.SeverityMonotone | src/components/ThreatIntelPanel.tsx:21-26 | a higher score never gets a lower band |
| ThreatIntel.Threshold | src/components/ThreatIntelPanel.tsx:21-26 | each band's threshold score lies in that band |
| ThreatIntel.ColorByBand | src/components/ThreatIntelPanel.tsx:14-19 | two scores in one band get the same colour classes |
| ThreatIntel.BandClasses | src/components/ThreatIntelPanel.tsx:14-19 | each band's colour string is its text class, a space, and its border class |
| ThreatIntel.ColorMatchesSeverity | src/components/ThreatIntelPanel.tsx:14-26 | colour and band agree: red for CRITICAL, orange for HIGH, yellow for MEDIUM, green for LOW |
| ThreatIntel.CvssColor | src/components/ThreatIntelPanel.tsx:14-19 | definition of `getCVSSColor`; its agreement with the band is stated by `ThreatIntel.ColorMatchesSeverity` |
| ThreatIntel.TextClass | src/components/ThreatIntelPanel.tsx:65 | a text class holds no space |
| ThreatIntel.ScoreClass | src/components/ThreatIntelPanel.tsx:65 | the score is drawn in the `text-<colour>-500` class of its band |
| ThreatIntel.AttackInfoFor | src/components/ThreatIntelPanel.tsx:12 | an entry exactly when a non-empty name in the table is selected, and then the table's entry |
| ThreatIntel.UnlistedPanelAttacks | src/components/AttackPanel.tsx:16-27 | of the attacks offered, exactly "Malware" and "Privilege Escalation" find no entry, so the panel shows its placeholder |
| ThreatIntel.TableScores | src/data/attackData.ts:10-141 | every score lies in 0.1-10.0; the CRITICAL entries are exactly SQL Injection and Zero-Day Exploit |

## Left out

- Timers: the `setTimeout` that returns the mode to neutral after two seconds is not modelled. The mode stays as the last handler left it.
- Alert expiry: `src/components/AlertSystem.tsx:17-24` dismisses each alert five seconds after it is rendered, through `onDismiss`, which is `removeAlert`. The timers are not modelled; a dismissal is modelled only as an explicit `Index.Session.RemoveAlert` call. The effect's cleanup is returned inside `forEach` and discarded, so timers are never cleared and a re-render can schedule one alert's dismissal several times; by `Index.WithoutAlertIdempotent` the repeats change nothing.
- Number formatting: `toFixed(1)` on the rates and on the CVSS score, and the `toFixed(0)` pie labels, are left out. Rates are exact rationals.
- The jsPDF document is left out: page layout, `yPos` pagination, page breaks, fonts, colours and `doc.save`. The report is modelled as the content it prints.
- The "Generated:" line and `toLocaleTimeString`: the locale's time format is not modelled. A timeline block keeps the timestamp as a number.
- The toast notices, JSX, Tailwind class selection, recharts, the Lucide icons and the selected packet of the packet viewer are rendering only and are left out.
- `src/components/NetworkLogs.tsx` and `src/components/DefensePanel.tsx` only render props and are not part of this model. Apart from the alert expiry above, `src/components/AlertSystem.tsx` only renders its props. `src/components/AttackPanel.tsx` contributes only its list of attack names.
- ThreatIntel.AttackInfo: only the name, CVE and score of a table entry are kept. The vectors, description and mitigations are display text.
- Random draws are exact reals in [0, 1). Floating-point rounding of `Math.random() * m` is left out, as is the fact that successive draws are independent.
- The packet viewer draws a new packet on every render. The model gives one packet per draw record and does not model when renders happen.
- Object.entries order: the model puts keys in first-insertion order. JavaScript puts integer-like keys (such as an action named "404") first, in numeric order. That case is left out.
- Prototype keys: an action named "constructor" or "__proto__" would clash with the inherited properties of the `{}` accumulator and of the CVE table. Keys are treated as plain dictionary keys.
- Text.UpperChar: upper-cases ASCII letters only. `toUpperCase` also maps non-ASCII letters; log types and status names are ASCII.
- Text.Upper: keeps the length, which `toUpperCase` does only on ASCII text ("ß" becomes "SS"); the strings it is applied to are ASCII.
- Index.AttackEntry: the ensures states the octet bounds and address shapes. It does not pin each octet to its draw.
- Clock readings are parameters. Two handlers that run in the same millisecond give the same id. `RemoveAlert` then dismisses both alerts, which the model shows through `Index.WithoutAlert`.
- The defense alert reads "activated successfully" whatever the entry's status (`src/pages/Index.tsx:81`); the model keeps this wording.

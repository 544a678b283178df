/** The three pie charts (src/components/ChartSection.tsx): attack actions, defense
    actions and outcomes, each tallied into a dictionary entry by entry and turned into
    `{ name, value }` slices. */
module ChartSection {
  import opened Text
  import opened Logs

  /** One slice of a pie chart. */
  datatype Slice = Slice(name: string, value: nat)

  /** The `Record<string, number>` accumulator of a `reduce`: its keys in insertion
      order, and the value of each key. */
  datatype Tally = Tally(keys: seq<string>, counts: map<string, nat>)

  predicate Distinct(s: seq<string>)
  {
    forall i, j :: 0 <= i < j < |s| ==> s[i] != s[j]
  }

  /** `acc[k] = (acc[k] || 0) + 1`: a new key is added last with value 1. */
  function Bump(t: Tally, k: string): Tally
  {
    if k in t.counts then Tally(t.keys, t.counts[k := t.counts[k] + 1])
    else Tally(t.keys + [k], t.counts[k := 1])
  }

  /** Counting `k` adds one to its count, or starts it at 1 and appends it to the key order;
      every other count stays as it was. */
  lemma BumpCounts(t: Tally, k: string)
    ensures k in Bump(t, k).counts
    ensures Bump(t, k).counts[k] == if k in t.counts then t.counts[k] + 1 else 1
    ensures forall j :: j in t.counts && j != k ==> j in Bump(t, k).counts && Bump(t, k).counts[j] == t.counts[j]
    ensures Bump(t, k).counts.Keys == t.counts.Keys + {k}
    ensures Bump(t, k).keys == if k in t.counts then t.keys else t.keys + [k]
  {
  }

  /** Every key of the key order has a value. */
  predicate Keyed(t: Tally)
  {
    forall i :: 0 <= i < |t.keys| ==> t.keys[i] in t.counts
  }

  /** `Object.entries(acc).map(([name, value]) => ({ name, value }))`. */
  function EntriesOf(t: Tally): (r: seq<Slice>)
    requires Keyed(t)
    ensures |r| == |t.keys|
    ensures forall i :: 0 <= i < |r| ==> r[i] == Slice(t.keys[i], t.counts[t.keys[i]])
  {
    seq(|t.keys|, i requires 0 <= i < |t.keys| => Slice(t.keys[i], t.counts[t.keys[i]]))
  }

  /** Bumping the key at position `i` adds one to slice `i`. */
  lemma EntriesBumpOld(t: Tally, i: nat)
    requires Keyed(t) && Distinct(t.keys) && i < |t.keys|
    ensures Keyed(Bump(t, t.keys[i]))
    ensures EntriesOf(Bump(t, t.keys[i])) ==
              EntriesOf(t)[i := Slice(EntriesOf(t)[i].name, EntriesOf(t)[i].value + 1)]
  {
  }

  /** Bumping a new key adds a slice of value 1 at the end. */
  lemma EntriesBumpNew(t: Tally, k: string)
    requires Keyed(t) && k !in t.counts
    ensures Keyed(Bump(t, k))
    ensures EntriesOf(Bump(t, k)) == EntriesOf(t) + [Slice(k, 1)]
  {
    assert t.keys + [k] == Bump(t, k).keys;
  }

  /** The sum of the slice values. */
  function Sum(s: seq<Slice>): nat
  {
    if s == [] then 0 else Sum(s[..|s| - 1]) + s[|s| - 1].value
  }

  /** How often `k` occurs in `xs`; zero exactly when it does not occur. */
  function Occurrences(xs: seq<string>, k: string): (n: nat)
    ensures n == 0 <==> k !in xs
    ensures n <= |xs|
  {
    if xs == [] then 0
    else
      var init := xs[..|xs| - 1];
      assert xs == init + [xs[|xs| - 1]];
      Occurrences(init, k) + (if xs[|xs| - 1] == k then 1 else 0)
  }

  lemma OccurrencesSnoc(xs: seq<string>, x: string, k: string)
    ensures Occurrences(xs + [x], k) == Occurrences(xs, k) + (if x == k then 1 else 0)
  {
    assert (xs + [x])[..|xs|] == xs;
  }

  /** The distinct strings of `xs` in the order of their first occurrence. */
  function Dedup(xs: seq<string>): (r: seq<string>)
    ensures forall i :: 0 <= i < |r| ==> r[i] in xs
  {
    if xs == [] then []
    else
      var init, x := xs[..|xs| - 1], xs[|xs| - 1];
      assert xs == init + [x];
      var d := Dedup(init);
      if x in d then d else d + [x]
  }

  /** Every string of `xs` is among the distinct strings. */
  lemma {:induction false} DedupHas(xs: seq<string>, x: string)
    requires x in xs
    ensures x in Dedup(xs)
    decreases |xs|
  {
    var init, last := xs[..|xs| - 1], xs[|xs| - 1];
    assert xs == init + [last];
    if x != last {
      DedupHas(init, x);
    }
  }

  lemma {:induction false} DedupDistinct(xs: seq<string>)
    ensures Distinct(Dedup(xs))
    decreases |xs|
  {
    if xs != [] {
      var init, x := xs[..|xs| - 1], xs[|xs| - 1];
      assert xs == init + [x];
      DedupDistinct(init);
    }
  }

  /** The number of occurrences of each string of `xs`. */
  function Counts(xs: seq<string>): (m: map<string, nat>)
  {
    map k | k in xs :: Occurrences(xs, k)
  }

  /** The dictionary the `reduce` builds from `xs`: the distinct strings in the order they
      first appear, each with its number of occurrences. */
  function TallyOf(xs: seq<string>): (t: Tally)
    ensures Keyed(t)
  {
    Tally(Dedup(xs), Counts(xs))
  }

  lemma DedupSnoc(xs: seq<string>, x: string)
    ensures Dedup(xs + [x]) == if x in xs then Dedup(xs) else Dedup(xs) + [x]
  {
    assert (xs + [x])[..|xs|] == xs;
    if x in xs {
      DedupHas(xs, x);
    }
  }

  lemma CountsSnoc(xs: seq<string>, x: string)
    ensures Counts(xs + [x]) == if x in xs then Counts(xs)[x := Counts(xs)[x] + 1] else Counts(xs)[x := 1]
  {
    var m, m' := Counts(xs), Counts(xs + [x]);
    var e := if x in xs then m[x := m[x] + 1] else m[x := 1];
    forall k | k in m'
      ensures k in e && m'[k] == e[k]
    {
      OccurrencesSnoc(xs, x, k);
    }
    assert m'.Keys == e.Keys;
  }

  /** Tallying one more string is one `Bump`. */
  lemma BumpSnoc(xs: seq<string>, x: string)
    ensures Bump(TallyOf(xs), x) == TallyOf(xs + [x])
  {
    DedupSnoc(xs, x);
    CountsSnoc(xs, x);
    assert x in Counts(xs) <==> x in xs;
  }

  /** The `reduce` that counts each string of `xs`. */
  method CountBy(xs: seq<string>) returns (t: Tally)
    ensures t == TallyOf(xs)
  {
    t := Tally([], map[]);
    assert Counts([]) == map[];
    var i := 0;
    while i < |xs|
      invariant 0 <= i <= |xs|
      invariant t == TallyOf(xs[..i])
    {
      assert xs[..i + 1] == xs[..i] + [xs[i]];
      BumpSnoc(xs[..i], xs[i]);
      t := Bump(t, xs[i]);
      i := i + 1;
    }
    assert xs[..i] == xs;
  }

  /** Adding one to the value of slice `i` adds one to the sum. */
  lemma {:induction false} SumIncrement(s: seq<Slice>, i: nat)
    requires i < |s|
    ensures Sum(s[i := Slice(s[i].name, s[i].value + 1)]) == Sum(s) + 1
  {
    var s' := s[i := Slice(s[i].name, s[i].value + 1)];
    if i < |s| - 1 {
      assert s'[..|s'| - 1] == s[..|s| - 1][i := Slice(s[i].name, s[i].value + 1)];
      SumIncrement(s[..|s| - 1], i);
    } else {
      assert s'[..|s'| - 1] == s[..|s| - 1];
    }
  }

  /** Slices with the same values, whatever their names, have the same sum. */
  lemma {:induction false} SumIgnoresNames(a: seq<Slice>, b: seq<Slice>)
    requires |a| == |b| && forall i :: 0 <= i < |a| ==> a[i].value == b[i].value
    ensures Sum(a) == Sum(b)
  {
    if a != [] {
      SumIgnoresNames(a[..|a| - 1], b[..|b| - 1]);
    }
  }

  /** One more string tallied adds one to the sum of the slice values. */
  lemma BumpSum(t: Tally, x: string)
    requires Keyed(t) && Distinct(t.keys) && (x in t.counts ==> x in t.keys)
    ensures Keyed(Bump(t, x))
    ensures Sum(EntriesOf(Bump(t, x))) == Sum(EntriesOf(t)) + 1
  {
    var before := EntriesOf(t);
    if x in t.counts {
      var i :| 0 <= i < |t.keys| && t.keys[i] == x;
      EntriesBumpOld(t, i);
      SumIncrement(before, i);
    } else {
      EntriesBumpNew(t, x);
      var after := before + [Slice(x, 1)];
      assert after[..|after| - 1] == before;
    }
  }

  /** Every string is counted once: the slice values of the tally add up to `|xs|`. */
  lemma {:induction false} TallyTotal(xs: seq<string>)
    ensures Sum(EntriesOf(TallyOf(xs))) == |xs|
    decreases |xs|
  {
    if xs != [] {
      var init, x := xs[..|xs| - 1], xs[|xs| - 1];
      assert xs == init + [x];
      TallyTotal(init);
      DedupDistinct(init);
      BumpSnoc(init, x);
      if x in init {
        DedupHas(init, x);
      }
      BumpSum(TallyOf(init), x);
    }
  }

  /** The slices of the tally of `xs`: one per distinct string of `xs`, valued by its
      number of occurrences; none exactly when `xs` is empty; the values add up to `|xs|`. */
  lemma TallySlices(xs: seq<string>)
    ensures Sum(EntriesOf(TallyOf(xs))) == |xs|
    ensures |EntriesOf(TallyOf(xs))| == 0 <==> |xs| == 0
    ensures forall i, j :: 0 <= i < j < |EntriesOf(TallyOf(xs))| ==>
              EntriesOf(TallyOf(xs))[i].name != EntriesOf(TallyOf(xs))[j].name
    ensures forall i :: 0 <= i < |EntriesOf(TallyOf(xs))| ==>
              EntriesOf(TallyOf(xs))[i].value >= 1 &&
              EntriesOf(TallyOf(xs))[i].value == Occurrences(xs, EntriesOf(TallyOf(xs))[i].name)
  {
    TallyTotal(xs);
    DedupDistinct(xs);
    var keys := Dedup(xs);
    var data := EntriesOf(TallyOf(xs));
    forall i, j | 0 <= i < j < |data|
      ensures data[i].name != data[j].name
    {
      assert data[i].name == keys[i] && data[j].name == keys[j];
    }
    if |xs| > 0 {
      DedupHas(xs, xs[0]);
    }
  }

  /** Every string of `xs` has its slice. */
  lemma TallyHasSlice(xs: seq<string>, x: string)
    requires x in xs
    ensures exists i :: 0 <= i < |EntriesOf(TallyOf(xs))| && EntriesOf(TallyOf(xs))[i].name == x
  {
    DedupHas(xs, x);
    var keys := Dedup(xs);
    var i :| 0 <= i < |keys| && keys[i] == x;
    assert EntriesOf(TallyOf(xs))[i].name == x;
  }

  /** The actions of the entries, in log order. */
  function Actions(logs: seq<LogEntry>): (r: seq<string>)
    ensures |r| == |logs| && forall i :: 0 <= i < |logs| ==> r[i] == logs[i].action
  {
    seq(|logs|, i requires 0 <= i < |logs| => logs[i].action)
  }

  /** The status names of the entries, in log order. */
  function Statuses(logs: seq<LogEntry>): (r: seq<string>)
    ensures |r| == |logs| && forall i :: 0 <= i < |logs| ==> r[i] == StatusName(logs[i].status)
    ensures forall i :: 0 <= i < |r| ==> r[i] in StatusNames
  {
    seq(|logs|, i requires 0 <= i < |logs| => StatusName(logs[i].status))
  }

  /** The data of the attack chart (`kind == Attack`) or the defense chart: one slice per
      distinct action among the entries of that type, valued by how many of them carry
      it; empty, so that the placeholder shows, exactly when there are no such entries. */
  method ActionDistribution(logs: seq<LogEntry>, kind: EntryType) returns (data: seq<Slice>)
    ensures data == EntriesOf(TallyOf(Actions(OfType(logs, kind))))
    ensures Sum(data) == |OfType(logs, kind)|
    ensures |data| == 0 <==> |OfType(logs, kind)| == 0
    ensures forall i, j :: 0 <= i < j < |data| ==> data[i].name != data[j].name
    ensures forall i :: 0 <= i < |data| ==>
              data[i].name in Actions(OfType(logs, kind)) && data[i].value >= 1 &&
              data[i].value == Occurrences(Actions(OfType(logs, kind)), data[i].name)
    ensures forall e :: e in OfType(logs, kind) ==> exists i :: 0 <= i < |data| && data[i].name == e.action
  {
    var entries := OfType(logs, kind);
    var xs := Actions(entries);
    var t := CountBy(xs);
    data := EntriesOf(t);
    TallySlices(xs);
    forall e | e in entries
      ensures exists i :: 0 <= i < |data| && data[i].name == e.action
    {
      var j :| 0 <= j < |entries| && entries[j] == e;
      assert xs[j] == e.action;
      TallyHasSlice(xs, e.action);
    }
  }

  /** `name.charAt(0).toUpperCase() + name.slice(1)`. */
  function Capitalize(s: string): (r: string)
    ensures |r| == |s|
    ensures s != [] ==> r[0] == UpperChar(s[0]) && r[1..] == s[1..]
  {
    Upper(s[..if s == [] then 0 else 1]) + s[if s == [] then 0 else 1..]
  }

  /** Only the first letter of a status name is upper-cased. */
  lemma StatusLabels()
    ensures Capitalize("success") == "Success"
    ensures Capitalize("blocked") == "Blocked"
    ensures Capitalize("failed") == "Failed"
  {
    assert UpperChar('s') == 'S' && UpperChar('b') == 'B' && UpperChar('f') == 'F';
  }

  /** The data of the status chart: one slice per status that occurs, labelled with its
      capitalised name; the values add up to the number of entries. */
  method StatusDistribution(logs: seq<LogEntry>) returns (data: seq<Slice>)
    ensures data == Relabel(EntriesOf(TallyOf(Statuses(logs))))
    ensures StatusChart(data, Statuses(logs))
  {
    var xs := Statuses(logs);
    var t := CountBy(xs);
    data := Relabel(EntriesOf(t));
    StatusSlices(xs);
  }

  /** `data` is a status chart of the status names `xs`: the values add up to `|xs|`;
      there is no slice exactly when there are no entries; every slice is labelled with a
      capitalised status name, has a positive value and a label of its own; and every
      status that occurs has its slice. */
  ghost predicate StatusChart(data: seq<Slice>, xs: seq<string>)
  {
    && Sum(data) == |xs|
    && (|data| == 0 <==> |xs| == 0)
    && (forall i :: 0 <= i < |data| ==> data[i].name in {"Success", "Blocked", "Failed"} && data[i].value >= 1)
    && (forall i, j :: 0 <= i < j < |data| ==> data[i].name != data[j].name)
    && (forall s :: s in xs ==> exists i :: 0 <= i < |data| && data[i].name == Capitalize(s))
  }

  /** The relabelled slices of a tally of status names form their status chart. */
  lemma StatusSlices(xs: seq<string>)
    requires forall j :: 0 <= j < |xs| ==> xs[j] in StatusNames
    ensures StatusChart(Relabel(EntriesOf(TallyOf(xs))), xs)
  {
    var entries := EntriesOf(TallyOf(xs));
    var data := Relabel(entries);
    assert Sum(data) == |xs| && (|data| == 0 <==> |xs| == 0) by {
      TallySlices(xs);
      SumIgnoresNames(data, entries);
    }
    assert forall i :: 0 <= i < |data| ==> data[i].name in {"Success", "Blocked", "Failed"} && data[i].value >= 1 by {
      TallySlices(xs);
      KeysAreStatusNames(xs);
      StatusLabelsValid(entries);
    }
    assert forall i, j :: 0 <= i < j < |data| ==> data[i].name != data[j].name by {
      TallySlices(xs);
      KeysAreStatusNames(xs);
      StatusLabelsDistinct(entries);
    }
    assert forall s :: s in xs ==> exists i :: 0 <= i < |data| && data[i].name == Capitalize(s) by {
      EveryStatusHasSlice(xs);
    }
  }

  lemma EveryStatusHasSlice(xs: seq<string>)
    ensures forall s :: s in xs ==>
              exists i :: 0 <= i < |EntriesOf(TallyOf(xs))| && Relabel(EntriesOf(TallyOf(xs)))[i].name == Capitalize(s)
  {
    var entries := EntriesOf(TallyOf(xs));
    forall s | s in xs
      ensures exists i :: 0 <= i < |entries| && Relabel(entries)[i].name == Capitalize(s)
    {
      TallyHasSlice(xs, s);
      var i :| 0 <= i < |entries| && entries[i].name == s;
      assert Relabel(entries)[i].name == Capitalize(s);
    }
  }

  lemma KeysAreStatusNames(xs: seq<string>)
    requires forall j :: 0 <= j < |xs| ==> xs[j] in StatusNames
    ensures forall i :: 0 <= i < |EntriesOf(TallyOf(xs))| ==> EntriesOf(TallyOf(xs))[i].name in StatusNames
  {
    var entries := EntriesOf(TallyOf(xs));
    forall i | 0 <= i < |entries|
      ensures entries[i].name in StatusNames
    {
      var j :| 0 <= j < |xs| && xs[j] == entries[i].name;
    }
  }

  lemma StatusLabelsValid(entries: seq<Slice>)
    requires forall i :: 0 <= i < |entries| ==> entries[i].name in StatusNames
    ensures forall i :: 0 <= i < |entries| ==> Relabel(entries)[i].name in {"Success", "Blocked", "Failed"}
  {
    forall i | 0 <= i < |entries|
      ensures Relabel(entries)[i].name in {"Success", "Blocked", "Failed"}
    {
      LabelOf(entries[i].name);
    }
  }

  lemma StatusLabelsDistinct(entries: seq<Slice>)
    requires forall i :: 0 <= i < |entries| ==> entries[i].name in StatusNames
    requires forall i, j :: 0 <= i < j < |entries| ==> entries[i].name != entries[j].name
    ensures forall i, j :: 0 <= i < j < |entries| ==> Relabel(entries)[i].name != Relabel(entries)[j].name
  {
    forall i, j | 0 <= i < j < |entries|
      ensures Relabel(entries)[i].name != Relabel(entries)[j].name
    {
      LabelsDistinct(entries[i].name, entries[j].name);
    }
  }

  const StatusNames := {"success", "blocked", "failed"}

  /** Slices with capitalised names and the same values. */
  function Relabel(entries: seq<Slice>): (r: seq<Slice>)
    ensures |r| == |entries|
    ensures forall i :: 0 <= i < |entries| ==> r[i] == Slice(Capitalize(entries[i].name), entries[i].value)
  {
    seq(|entries|, i requires 0 <= i < |entries| => Slice(Capitalize(entries[i].name), entries[i].value))
  }

  lemma LabelOf(s: string)
    requires s in StatusNames
    ensures Capitalize(s) in {"Success", "Blocked", "Failed"}
  {
    StatusLabels();
  }

  lemma LabelsDistinct(a: string, b: string)
    requires a in StatusNames && b in StatusNames && a != b
    ensures Capitalize(a) != Capitalize(b)
  {
    StatusLabels();
  }

  const AttackPalette: seq<string> :=
    ["#ef4444", "#dc2626", "#b91c1c", "#991b1b", "#7f1d1d", "#fca5a5", "#f87171", "#ef4444", "#dc2626", "#b91c1c"]
  const DefensePalette: seq<string> :=
    ["#3b82f6", "#2563eb", "#1d4ed8", "#1e40af", "#1e3a8a", "#93c5fd", "#60a5fa", "#3b82f6", "#2563eb", "#1d4ed8"]
  const StatusPalette: seq<string> := ["#22c55e", "#3b82f6", "#eab308"]

  /** `palette[index % palette.length]`: always a colour of the palette, and the
      palette's own colour while the index is small enough. */
  function CellColor(palette: seq<string>, index: nat): (c: string)
    requires |palette| > 0
    ensures c in palette
    ensures index < |palette| ==> c == palette[index]
  {
    palette[index % |palette|]
  }
}

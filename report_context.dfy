/** The remembered reporting context and the history of recently reported
    machines, kept in the browser's storage. Storage is modelled as two
    fields of the hook; the current time is a parameter. */
module ReportContext {
  import opened Common
  import opened Seqs

  datatype Context = Context(areaId: Option<string>, lineId: Option<string>, machineId: Option<string>, timestamp: int)

  datatype HistoryItem = HistoryItem(
    areaId: string, areaName: string, lineId: string, lineName: string,
    machineId: string, machineName: string, timestamp: int)

  /** What a storage key holds: nothing, text that does not parse, or a
      parsed value. */
  datatype Stored<T> = Missing | Malformed | Parsed(value: T)

  /** Four hours, in milliseconds. */
  const ContextExpiry := 4 * 60 * 60 * 1000
  const MaxHistory := 10

  /** A stored context is restored only while it is less than four hours
      old. */
  predicate IsFresh(now: int, c: Context) {
    now - c.timestamp < ContextExpiry
  }

  /** `[newItem, ...prev.filter(h => h.machineId !== newItem.machineId)].slice(0, 10)`. */
  function PushHistory(prev: seq<HistoryItem>, newItem: HistoryItem): seq<HistoryItem> {
    var filtered := Filter(prev, (h: HistoryItem) => h.machineId != newItem.machineId);
    var updated := [newItem] + filtered;
    if |updated| <= MaxHistory then updated else updated[..MaxHistory]
  }

  predicate DistinctMachines(h: seq<HistoryItem>) {
    forall i, j :: 0 <= i < j < |h| ==> h[i].machineId != h[j].machineId
  }

  /** After saving, the new item comes first, no other entry is for the
      same machine, the list holds at most ten entries, and the older
      entries kept are the first ones of the old list without that
      machine, in their order. Distinct machines stay distinct. */
  lemma PushHistoryFacts(prev: seq<HistoryItem>, newItem: HistoryItem)
    ensures var r := PushHistory(prev, newItem);
      var filtered := Filter(prev, (h: HistoryItem) => h.machineId != newItem.machineId);
      && 1 <= |r| <= MaxHistory
      && r[0] == newItem
      && (forall k :: 1 <= k < |r| ==> r[k].machineId != newItem.machineId)
      && r[1..] <= filtered
      && |r| == (if |filtered| < MaxHistory then |filtered| + 1 else MaxHistory)
      && (DistinctMachines(prev) ==> DistinctMachines(r))
  {
    var r := PushHistory(prev, newItem);
    var p := (h: HistoryItem) => h.machineId != newItem.machineId;
    var filtered := Filter(prev, p);
    assert forall k :: 1 <= k < |r| ==> r[k] == filtered[k - 1];
    if DistinctMachines(prev) {
      FilterKeepsDistinct(prev, p);
    }
  }

  /** Filtering keeps the machines distinct. */
  lemma {:induction false} FilterKeepsDistinct(h: seq<HistoryItem>, p: HistoryItem -> bool)
    requires DistinctMachines(h)
    ensures DistinctMachines(Filter(h, p))
  {
    if h != [] {
      assert DistinctMachines(h[1..]) by {
        forall i, j | 0 <= i < j < |h[1..]| ensures h[1..][i].machineId != h[1..][j].machineId {
          assert h[1..][i] == h[i + 1] && h[1..][j] == h[j + 1];
        }
      }
      FilterKeepsDistinct(h[1..], p);
      var rest := Filter(h[1..], p);
      forall k | 0 <= k < |rest| ensures rest[k].machineId != h[0].machineId {
        var j :| 0 <= j < |h[1..]| && h[1..][j] == rest[k];
        assert h[j + 1] == rest[k];
      }
    }
  }

  /** The `reduce` that counts the entries of each machine. */
  function MachineCount(items: seq<HistoryItem>, machineId: string): nat {
    Count(items, (h: HistoryItem) => h.machineId == machineId)
  }

  /** Every listed machine is counted at least once. */
  lemma CountPositive(items: seq<HistoryItem>, k: nat)
    requires k < |items|
    ensures MachineCount(items, items[k].machineId) >= 1
  {
    assert items[k] in Filter(items, (h: HistoryItem) => h.machineId == items[k].machineId);
  }

  /** A machine listed once among distinct machines has count one. */
  lemma {:induction false} DistinctCountOne(items: seq<HistoryItem>, k: nat)
    requires DistinctMachines(items) && k < |items|
    ensures MachineCount(items, items[k].machineId) == 1
  {
    var m := items[k].machineId;
    var p := (h: HistoryItem) => h.machineId == m;
    var rest := items[1..];
    assert DistinctMachines(rest) by {
      forall i, j | 0 <= i < j < |rest| ensures rest[i].machineId != rest[j].machineId {
        assert rest[i] == items[i + 1] && rest[j] == items[j + 1];
      }
    }
    if k == 0 {
      assert forall i :: 0 <= i < |rest| ==> !p(rest[i]) by {
        forall i | 0 <= i < |rest| ensures !p(rest[i]) {
          assert rest[i] == items[i + 1];
        }
      }
      FilterKeepsNone(rest, p);
    } else {
      DistinctCountOne(rest, k - 1);
      assert rest[k - 1] == items[k];
      assert !p(items[0]);
    }
  }

  /** The hook: the restored context, the history, and the two storage keys. */
  class ReportContextHook {
    var savedContext: Option<Context>
    var history: seq<HistoryItem>
    var contextStore: Stored<Context>
    var historyStore: Stored<seq<HistoryItem>>

    constructor (contextStore: Stored<Context>, historyStore: Stored<seq<HistoryItem>>)
      ensures savedContext == None && history == []
      ensures this.contextStore == contextStore && this.historyStore == historyStore
    {
      savedContext := None;
      history := [];
      this.contextStore := contextStore;
      this.historyStore := historyStore;
    }

    /** The mount effect: a stored context younger than four hours is
        restored; an older or unreadable one is removed. A readable history
        is restored; an unreadable one is removed. */
    method Load(now: int)
      modifies this
      ensures old(contextStore).Parsed? && IsFresh(now, old(contextStore).value) ==>
        savedContext == Some(old(contextStore).value) && contextStore == old(contextStore)
      ensures old(contextStore).Parsed? && !IsFresh(now, old(contextStore).value) ==>
        savedContext == old(savedContext) && contextStore == Missing
      ensures old(contextStore).Malformed? ==> savedContext == old(savedContext) && contextStore == Missing
      ensures old(contextStore).Missing? ==> savedContext == old(savedContext) && contextStore == Missing
      ensures old(historyStore).Parsed? ==> history == old(historyStore).value && historyStore == old(historyStore)
      ensures old(historyStore).Malformed? ==> history == old(history) && historyStore == Missing
      ensures old(historyStore).Missing? ==> history == old(history) && historyStore == Missing
    {
      match contextStore {
        case Parsed(c) =>
          if IsFresh(now, c) {
            savedContext := Some(c);
          } else {
            contextStore := Missing;
          }
        case Malformed =>
          contextStore := Missing;
        case Missing =>
      }
      match historyStore {
        case Parsed(h) =>
          history := h;
        case Malformed =>
          historyStore := Missing;
        case Missing =>
      }
    }

    /** `saveContext`: the context, stamped with the current time, is
        stored and becomes the saved context. */
    method SaveContext(areaId: string, lineId: string, machineId: string, now: int)
      modifies this
      ensures savedContext == Some(Context(Some(areaId), Some(lineId), Some(machineId), now))
      ensures contextStore == Parsed(savedContext.value)
      ensures history == old(history) && historyStore == old(historyStore)
    {
      var c := Context(Some(areaId), Some(lineId), Some(machineId), now);
      contextStore := Parsed(c);
      savedContext := Some(c);
    }

    /** `saveToHistory`. */
    method SaveToHistory(areaId: string, areaName: string, lineId: string, lineName: string,
                         machineId: string, machineName: string, now: int)
      modifies this
      ensures history == PushHistory(old(history), HistoryItem(areaId, areaName, lineId, lineName, machineId, machineName, now))
      ensures historyStore == Parsed(history)
      ensures savedContext == old(savedContext) && contextStore == old(contextStore)
    {
      var item := HistoryItem(areaId, areaName, lineId, lineName, machineId, machineName, now);
      history := PushHistory(history, item);
      historyStore := Parsed(history);
    }

    /** `getMostCommonContext`: among the first three entries, the earliest
        one whose machine occurs most often; `None` on an empty history. */
    method MostCommonContext() returns (r: Option<HistoryItem>)
      ensures r.None? <==> history == []
      ensures r.Some? ==> exists j :: 0 <= j < |Recent(history)| && r.value == Recent(history)[j] && IsEarliestMax(Recent(history), j)
    {
      if |history| == 0 {
        return None;
      }
      var recent := Recent(history);
      // machineCounts[item.machineId], looked up for each entry
      var counts := MachineCounts(recent);
      forall k | 0 <= k < |recent| ensures counts[k] >= 1 {
        CountPositive(recent, k);
      }
      r := FirstOfMost(recent, counts);
    }

    /** `clearContext`. */
    method ClearContext()
      modifies this
      ensures savedContext == None && contextStore == Missing
      ensures history == old(history) && historyStore == old(historyStore)
    {
      contextStore := Missing;
      savedContext := None;
    }
  }

  /** The count of each entry's machine, entry by entry. */
  function MachineCounts(items: seq<HistoryItem>): (counts: seq<nat>)
    ensures |counts| == |items|
    ensures forall k :: 0 <= k < |items| ==> counts[k] == MachineCount(items, items[k].machineId)
  {
    seq(|items|, k requires 0 <= k < |items| => MachineCount(items, items[k].machineId))
  }

  /** `counts[j]` is the largest of `counts` and no earlier entry reaches it. */
  predicate IsEarliestIndex(counts: seq<nat>, j: nat)
    requires j < |counts|
  {
    && (forall k :: 0 <= k < |counts| ==> counts[k] <= counts[j])
    && (forall k :: 0 <= k < j ==> counts[k] < counts[j])
  }

  /** The loop of `getMostCommonContext`: the first entry whose count beats
      the best so far (which starts at 0) becomes the result. */
  method FirstOfMost(items: seq<HistoryItem>, counts: seq<nat>) returns (mostCommon: Option<HistoryItem>)
    requires |counts| == |items|
    requires forall k :: 0 <= k < |counts| ==> counts[k] >= 1
    ensures mostCommon.None? <==> items == []
    ensures mostCommon.Some? ==> exists j :: 0 <= j < |items| && mostCommon.value == items[j] && IsEarliestIndex(counts, j)
  {
    var maxCount := 0;
    mostCommon := None;
    ghost var best := 0;
    var i := 0;
    while i < |items|
      invariant 0 <= best <= i <= |items|
      invariant i == 0 ==> mostCommon.None? && maxCount == 0
      invariant i > 0 ==> best < i && mostCommon == Some(items[best]) && maxCount == counts[best]
      invariant forall k :: 0 <= k < i ==> counts[k] <= maxCount
      invariant forall k :: 0 <= k < best ==> counts[k] < maxCount
    {
      if counts[i] > maxCount {
        maxCount := counts[i];
        mostCommon := Some(items[i]);
        best := i;
      }
      i := i + 1;
    }
    if i > 0 {
      assert IsEarliestIndex(counts, best);
    }
  }

  /** `history.slice(0, 3)`. */
  function Recent(history: seq<HistoryItem>): (r: seq<HistoryItem>)
    ensures |r| == if |history| < 3 then |history| else 3
    ensures r <= history
  {
    if |history| < 3 then history else history[..3]
  }

  /** Entry `j` has the largest machine count and no earlier entry has it. */
  predicate IsEarliestMax(items: seq<HistoryItem>, j: nat)
    requires j < |items|
  {
    IsEarliestIndex(MachineCounts(items), j)
  }

  /** When the machines are distinct (as `saveToHistory` keeps them), the
      most common context is the latest entry. */
  lemma MostCommonIsLatest(history: seq<HistoryItem>, j: nat)
    requires DistinctMachines(history)
    requires j < |Recent(history)| && IsEarliestMax(Recent(history), j)
    ensures Recent(history)[j] == history[0]
  {
    var recent := Recent(history);
    assert DistinctMachines(recent);
    if j > 0 {
      DistinctCountOne(recent, 0);
      DistinctCountOne(recent, j);
    }
  }
}

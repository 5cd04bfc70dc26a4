/** One production line on the dashboard: its machines in line order, the
    status shown for the whole line, and the flow of cards and arrows. */
module ProductionLine {
  import opened Plant

  /** Ascending `sequenceOrder`. */
  predicate SortedByOrder(ms: seq<PlantMachine>) {
    forall i, j :: 0 <= i < j < |ms| ==> ms[i].sequenceOrder <= ms[j].sequenceOrder
  }

  /** Put `m` in front of the first machine whose order is not smaller, so
      that machines with equal orders keep their relative order. */
  function Insert(m: PlantMachine, ms: seq<PlantMachine>): (r: seq<PlantMachine>)
    ensures multiset(r) == multiset(ms) + multiset{m}
  {
    if ms == [] || m.sequenceOrder <= ms[0].sequenceOrder then [m] + ms
    else
      assert ms == [ms[0]] + ms[1..];
      [ms[0]] + Insert(m, ms[1..])
  }

  /** Every machine of `ms` has an order of at least `b`. */
  predicate OrdersFrom(b: int, ms: seq<PlantMachine>) {
    forall i :: 0 <= i < |ms| ==> b <= ms[i].sequenceOrder
  }

  /** Inserting into a sorted list keeps it sorted, and keeps a lower bound
      that `m` respects. */
  lemma {:induction false} InsertSorted(m: PlantMachine, ms: seq<PlantMachine>, b: int)
    requires SortedByOrder(ms) && OrdersFrom(b, ms) && b <= m.sequenceOrder
    ensures SortedByOrder(Insert(m, ms)) && OrdersFrom(b, Insert(m, ms))
  {
    if ms != [] && m.sequenceOrder > ms[0].sequenceOrder {
      InsertSorted(m, ms[1..], ms[0].sequenceOrder);
      var rest := Insert(m, ms[1..]);
      assert Insert(m, ms) == [ms[0]] + rest;
    }
  }

  /** `[...machines].sort((a, b) => a.sequence_order - b.sequence_order)`,
      a stable sort of a copy. */
  function SortedMachines(ms: seq<PlantMachine>): (r: seq<PlantMachine>)
    ensures SortedByOrder(r)
    ensures multiset(r) == multiset(ms)
    ensures |r| == |ms|
  {
    if ms == [] then []
    else
      assert ms == [ms[0]] + ms[1..];
      var rest := SortedMachines(ms[1..]);
      InsertSorted(ms[0], rest, if ms[0].sequenceOrder <= MinOrder(rest) then ms[0].sequenceOrder else MinOrder(rest));
      var r := Insert(ms[0], rest);
      assert |r| == |multiset(r)|;
      r
  }

  /** The smallest order in `ms` (0 for none). */
  function MinOrder(ms: seq<PlantMachine>): (b: int)
    ensures OrdersFrom(b, ms)
  {
    if ms == [] then 0
    else var b := MinOrder(ms[1..]); if ms[0].sequenceOrder < b then ms[0].sequenceOrder else b
  }

  /** Sorting machines that are already in order changes nothing. */
  lemma {:induction false} SortedMachinesKeepsSorted(ms: seq<PlantMachine>)
    requires SortedByOrder(ms)
    ensures SortedMachines(ms) == ms
  {
    if ms != [] {
      var tail := ms[1..];
      assert SortedMachines(tail) == tail by {
        assert SortedByOrder(tail);
        SortedMachinesKeepsSorted(tail);
      }
      assert SortedMachines(ms) == Insert(ms[0], tail);
      assert Insert(ms[0], tail) == [ms[0]] + tail by {
        assert tail == [] || ms[0].sequenceOrder <= tail[0].sequenceOrder;
      }
      assert [ms[0]] + tail == ms;
    }
  }

  /** `machines.some(m => m.status === st)`. */
  predicate HasStatus(ms: seq<PlantMachine>, st: MachineStatus) {
    exists i :: 0 <= i < |ms| && ms[i].status == st
  }

  /** `hasFaults ? 'fault' : hasWarnings ? 'warning' : 'ok'`. */
  function LineStatus(ms: seq<PlantMachine>): (s: MachineStatus)
    ensures s == Fault <==> HasStatus(ms, Fault)
    ensures s == Warning <==> !HasStatus(ms, Fault) && HasStatus(ms, Warning)
    ensures s == Running <==> forall i :: 0 <= i < |ms| ==> ms[i].status == Running
  {
    if HasStatus(ms, Fault) then Fault
    else if HasStatus(ms, Warning) then Warning
    else Running
  }

  /** The status of a line does not depend on the order of its machines. */
  lemma LineStatusOfSorted(ms: seq<PlantMachine>)
    ensures LineStatus(SortedMachines(ms)) == LineStatus(ms)
  {
    var r := SortedMachines(ms);
    HasStatusOfPermutation(ms, r, Fault);
    HasStatusOfPermutation(r, ms, Fault);
    HasStatusOfPermutation(ms, r, Warning);
    HasStatusOfPermutation(r, ms, Warning);
  }

  /** Reordering machines keeps every status present. */
  lemma HasStatusOfPermutation(a: seq<PlantMachine>, b: seq<PlantMachine>, st: MachineStatus)
    requires multiset(a) == multiset(b)
    ensures HasStatus(a, st) ==> HasStatus(b, st)
  {
    if HasStatus(a, st) {
      var i :| 0 <= i < |a| && a[i].status == st;
      assert a[i] in multiset(b);
      var j :| 0 <= j < |b| && b[j] == a[i];
    }
  }

  /** What the horizontal flow draws: a card per machine, and an arrow after
      every card but the last. */
  datatype FlowItem = Card(machine: PlantMachine) | Arrow

  function Flow(ms: seq<PlantMachine>): (r: seq<FlowItem>)
    ensures |r| == if ms == [] then 0 else 2 * |ms| - 1
  {
    if ms == [] then []
    else [Card(ms[0])] + (if |ms| > 1 then [Arrow] else []) + Flow(ms[1..])
  }

  /** Cards sit at the even positions in machine order, arrows at the odd
      ones: `n - 1` arrows, each between two consecutive machines. */
  lemma {:induction false} FlowAlternates(ms: seq<PlantMachine>, k: nat)
    requires k < |ms|
    ensures Flow(ms)[2 * k] == Card(ms[k])
    ensures k < |ms| - 1 ==> Flow(ms)[2 * k + 1] == Arrow
  {
    if k > 0 {
      FlowAlternates(ms[1..], k - 1);
    }
  }
}

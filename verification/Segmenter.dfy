/** Cutting a file size into ranges (src/engine/segmenter.c). */
module Segmenter {
  import opened Common
  import opened Transfer

  const ONE_MB: nat := 1024 * 1024

  /** A source range; `end` is inclusive. */
  datatype Range = Range(start: nat, end: int, resumeOffset: nat, wholeFile: bool)

  /** Unsigned 64-bit product and difference. */
  function Mul64(a: nat, b: nat): nat { a * b % TWO64 }
  function Sub64(a: nat, b: nat): nat { (a - b) % TWO64 }

  /** Number of ranges a plan has. */
  function PlanSize(total: nat, workers: int): nat {
    if total == 0 || workers <= 0 then 0 else if workers > total then total else workers
  }

  /** Range `i` of the plan over exact integers. */
  function PlanRange(total: nat, n: nat, i: nat): Range
    requires i < n
  {
    var chunk := total / n;
    Range(i * chunk, if i == n - 1 then total - 1 else (i + 1) * chunk - 1, 0, false)
  }

  function Plan(total: nat, workers: int): seq<Range> {
    var n := PlanSize(total, workers);
    seq(n, i requires 0 <= i < n => PlanRange(total, n, i))
  }

  /** The loop body of `segmenter_plan`, in unsigned 64-bit arithmetic. */
  function CutRange(total: nat, n: nat, chunk: nat, i: nat): Range {
    Range(Mul64(i, chunk), if i == n - 1 then Sub64(total, 1) else Sub64(Mul64(i + 1, chunk), 1), 0, false)
  }

  lemma RangeExact(total: nat, n: nat, i: nat)
    requires 1 <= n <= total < TWO64 && i < n
    ensures CutRange(total, n, total / n, i) == PlanRange(total, n, i)
  {
    CutInside(total, n, i);
  }

  /** `segmenter_plan`: fills `out` in 64-bit arithmetic, without overflow. */
  method SegmenterPlan(total: nat, workers: int, out: array<Range>) returns (n: nat)
    requires total < TWO64
    requires PlanSize(total, workers) <= out.Length
    modifies out
    ensures n == |Plan(total, workers)|
    ensures out[..n] == Plan(total, workers)
    ensures forall i :: n <= i < out.Length ==> out[i] == old(out[i])
  {
    if total == 0 || workers <= 0 {
      return 0;
    }
    n := if workers > total then total else workers;
    var chunk := total / n;
    var i := 0;
    while i < n
      invariant 0 <= i <= n
      invariant forall j :: 0 <= j < i ==> out[j] == PlanRange(total, n, j)
      invariant forall j :: n <= j < out.Length ==> out[j] == old(out[j])
    {
      out[i] := CutRange(total, n, chunk, i);
      RangeExact(total, n, i);
      i := i + 1;
    }
  }

  /** Cuts lie inside the file and every piece but the last has the same positive length. */
  lemma CutInside(total: nat, n: nat, i: nat)
    requires 1 <= n <= total && i < n
    ensures 1 <= total / n
    ensures i * (total / n) < (i + 1) * (total / n) <= total
    ensures i * (total / n) <= total - 1
  {
    var q := total / n;
    Quotient(total, n);
    assert (i + 1) * q == i * q + q;
    UpTo(i + 1, n, q);
  }

  lemma Quotient(total: nat, n: nat)
    requires 1 <= n <= total
    ensures n * (total / n) <= total && 1 <= total / n
  {
    assert total == n * (total / n) + total % n;
    assert total / n != 0;
  }

  lemma UpTo(a: nat, b: nat, q: nat)
    requires a <= b
    ensures a * q <= b * q
  {
    assert b * q == a * q + (b - a) * q;
  }

  /** The ranges are nonempty and contiguous from 0 to `total - 1`. */
  lemma PlanIsContiguous(total: nat, workers: int, i: nat)
    requires i < |Plan(total, workers)|
    ensures var p := Plan(total, workers);
      && p[i].start <= p[i].end < total
      && p[i].resumeOffset == 0 && !p[i].wholeFile
      && (i == 0 ==> p[i].start == 0)
      && (i == |p| - 1 ==> p[i].end == total - 1)
      && (i < |p| - 1 ==> p[i].end + 1 == p[i + 1].start)
  {
    CutInside(total, PlanSize(total, workers), i);
  }

  /** Later ranges start after earlier ranges end. */
  lemma {:induction false} PlanIsOrdered(total: nat, workers: int, i: nat, j: nat)
    requires i < j < |Plan(total, workers)|
    ensures Plan(total, workers)[i].end < Plan(total, workers)[j].start
    decreases j
  {
    PlanIsContiguous(total, workers, j - 1);
    if i < j - 1 {
      PlanIsOrdered(total, workers, i, j - 1);
    }
  }

  /** Every byte of the file is in exactly one range. */
  lemma PlanCovers(total: nat, workers: int, k: nat)
    requires k < total && workers > 0
    ensures exists i :: 0 <= i < |Plan(total, workers)| && Plan(total, workers)[i].start <= k <= Plan(total, workers)[i].end
    ensures forall i, j :: 0 <= i < j < |Plan(total, workers)| ==>
      !(Plan(total, workers)[i].start <= k <= Plan(total, workers)[i].end &&
        Plan(total, workers)[j].start <= k <= Plan(total, workers)[j].end)
  {
    var p := Plan(total, workers);
    var i := Locate(total, workers, k, |p| - 1);
    assert p[i].start <= k <= p[i].end;
    forall a, b | 0 <= a < b < |p| ensures !(p[a].start <= k <= p[a].end && p[b].start <= k <= p[b].end) {
      PlanIsOrdered(total, workers, a, b);
    }
  }

  lemma {:induction false} Locate(total: nat, workers: int, k: nat, n: nat) returns (i: nat)
    requires n < |Plan(total, workers)| && k <= Plan(total, workers)[n].end
    ensures i <= n && Plan(total, workers)[i].start <= k <= Plan(total, workers)[i].end
    decreases n
  {
    PlanIsContiguous(total, workers, n);
    if Plan(total, workers)[n].start <= k {
      i := n;
    } else {
      PlanIsContiguous(total, workers, n - 1);
      i := Locate(total, workers, k, n - 1);
    }
  }

  /** All ranges but the last have the same length, the total over their number; the last has at most the
      remainder more. */
  lemma PiecesAreEven(total: nat, workers: int, i: nat)
    requires i < |Plan(total, workers)|
    ensures var p := Plan(total, workers);
      var length := p[i].end + 1 - p[i].start;
      if i < |p| - 1 then length == total / |p| else length == total / |p| + total % |p|
  {
    var n := |Plan(total, workers)|;
    var q := total / n;
    assert total == n * q + total % n;
    assert (i + 1) * q == i * q + q;
    if i == n - 1 { assert n * q == i * q + q; }
  }

  /** One worker below a mebibyte, four below twenty, eight from there on. */
  lemma WorkersBySize(total: nat)
    ensures ChooseWorkerCount(total) == 1 <==> total < 1048576
    ensures ChooseWorkerCount(total) == 8 <==> total >= 20971520
    ensures ChooseWorkerCount(total) == 4 <==> 1048576 <= total < 20971520
  {
  }

  /** `choose_worker_count`. */
  function ChooseWorkerCount(total: nat): (n: int)
    ensures n in {1, 4, 8}
  {
    if total < ONE_MB then 1 else if total < 20 * ONE_MB then 4 else 8
  }

  /** A plan for the chosen number of workers fits the MAX_WORKERS array of the engine and is
      as long as chosen: no file has fewer bytes than workers. */
  lemma ChosenPlanFits(total: nat)
    ensures |Plan(total, ChooseWorkerCount(total))| <= MAX_WORKERS
    ensures total >= 1 ==> |Plan(total, ChooseWorkerCount(total))| == ChooseWorkerCount(total)
  {
  }
}

/** The progress throttle of a download (`pctReader` in `internal/oci/oci.go:198-220`). */
module Progress {
  import opened Prelude

  /** The reader's counters and every percentage it has reported so far. */
  datatype Counter = Counter(read: int, lastPct: int, reports: seq<int>)

  const FRESH := Counter(0, 0, [])

  const SAFE_TOTAL: int := (TWO_63 - 1) / 100

  /** Go's division of `int64` values, which truncates toward zero. */
  function Quotient(a: int, b: int): int
    requires b > 0
  {
    if a >= 0 then a / b else -(-a / b)
  }

  function Percent(read: int, total: int): int
    requires total > 0
  {
    Quotient(Wrap64(read * 100), total)
  }

  /** The counter after a read of `n` bytes. */
  function AfterRead(c: Counter, total: int, n: int): Counter
    requires total > 0
  {
    if n <= 0 then c
    else
      var read := Wrap64(c.read + n);
      var pct := Percent(read, total);
      if pct >= c.lastPct + 3 then Counter(read, pct, c.reports + [pct]) else c.(read := read)
  }

  function AfterReads(total: int, chunks: seq<int>): Counter
    requires total > 0
  {
    if chunks == [] then FRESH
    else AfterRead(AfterReads(total, chunks[..|chunks| - 1]), total, chunks[|chunks| - 1])
  }

  class PctReader {
    const total: int
    var read: int
    var lastPct: int
    var reports: seq<int>

    function View(): Counter
      reads this
    {
      Counter(read, lastPct, reports)
    }

    constructor (total: int)
      ensures this.total == total && View() == FRESH
    {
      this.total := total;
      read := 0;
      lastPct := 0;
      reports := [];
    }

    /** `n` is what the wrapped reader returned. */
    method Read(n: int)
      requires total > 0
      modifies this
      ensures View() == AfterRead(old(View()), total, n)
    {
      if n > 0 {
        read := Wrap64(read + n);
        var pct := Quotient(Wrap64(read * 100), total);
        if pct >= lastPct + 3 {
          lastPct := pct;
          reports := reports + [pct];
        }
      }
    }
  }

  function Sum(chunks: seq<int>): int {
    if chunks == [] then 0 else Sum(chunks[..|chunks| - 1]) + chunks[|chunks| - 1]
  }

  predicate Chunks(chunks: seq<int>) {
    forall i :: 0 <= i < |chunks| ==> chunks[i] >= 0
  }

  // ---- Properties --------------------------------------------------------------------------

  /** The percentage is the true one, rounded down, exactly until `read * 100` leaves `int64`. */
  lemma PercentExact(read: int, total: int)
    requires 0 <= read < TWO_63 && total > 0
    ensures Wrap64(read * 100) == read * 100 <==> read <= SAFE_TOTAL
    ensures read <= SAFE_TOTAL ==> Percent(read, total) * total <= read * 100 < (Percent(read, total) + 1) * total
  {
    if read <= SAFE_TOTAL {
      var pct := read * 100 / total;
      assert read * 100 == pct * total + read * 100 % total;
      assert (pct + 1) * total == pct * total + total;
    }
  }

  /** Reports rise by at least 3, the first one from 0, and the last one is remembered. */
  predicate Rising(c: Counter) {
    && c.lastPct == (if c.reports == [] then 0 else c.reports[|c.reports| - 1])
    && (c.reports != [] ==> c.reports[0] >= 3)
    && forall i :: 1 <= i < |c.reports| ==> c.reports[i] >= c.reports[i - 1] + 3
  }

  lemma RisingStep(c: Counter, total: int, n: int)
    requires total > 0 && Rising(c)
    ensures Rising(AfterRead(c, total, n))
  {
    var next := AfterRead(c, total, n);
    if next.reports != c.reports {
      var k := |c.reports|;
      assert next.reports[..k] == c.reports;
      forall i | 1 <= i < |next.reports| ensures next.reports[i] >= next.reports[i - 1] + 3 {
        if i < k { assert c.reports[i] >= c.reports[i - 1] + 3; }
      }
    }
  }

  /** What the throttle keeps after each read of a download of at most `total` bytes: it reports
      nothing above the true percentage and lags it by less than 3 points. */
  predicate Tracks(c: Counter, total: int) {
    && Rising(c)
    && 0 <= c.lastPct
    && c.lastPct * total <= c.read * 100 < (c.lastPct + 3) * total
  }

  lemma Cancel(a: int, b: int, k: int)
    requires k > 0
    ensures a * k <= b * k <==> a <= b
    ensures a * k < b * k <==> a < b
  {
    if a <= b { assert a * k <= b * k; } else { assert b * k < a * k; }
    if a < b { assert a * k < b * k; } else { assert b * k <= a * k; }
  }

  lemma TracksStep(c: Counter, total: int, n: int)
    requires 0 < total <= SAFE_TOTAL && Tracks(c, total)
    requires 0 <= c.read && 0 <= n && c.read + n <= total
    ensures Tracks(AfterRead(c, total, n), total)
    ensures AfterRead(c, total, n).read == c.read + n
  {
    if n > 0 {
      var read := c.read + n;
      var pct := Percent(read, total);
      PercentExact(read, total);
      RisingStep(c, total, n);
      Cancel(pct + 1, pct + 3, total);
      Cancel(pct + 1, c.lastPct + 3, total);
    }
  }

  lemma {:induction false} TracksReads(total: int, chunks: seq<int>)
    requires 0 < total <= SAFE_TOTAL && Chunks(chunks) && Sum(chunks) <= total
    ensures Tracks(AfterReads(total, chunks), total)
    ensures AfterReads(total, chunks).read == Sum(chunks) >= 0
  {
    if chunks != [] {
      var front := chunks[..|chunks| - 1];
      TracksReads(total, front);
      TracksStep(AfterReads(total, front), total, chunks[|chunks| - 1]);
    }
  }

  lemma {:induction false} RisingBound(c: Counter, i: nat)
    requires Rising(c) && i < |c.reports|
    ensures c.reports[i] >= 3 * (i + 1)
  {
    if i > 0 {
      RisingBound(c, i - 1);
      assert c.reports[i] >= c.reports[i - 1] + 3;
    }
  }

  lemma {:induction false} RisingBelowLast(c: Counter, i: nat)
    requires Rising(c) && i < |c.reports|
    ensures c.reports[i] <= c.lastPct
    decreases |c.reports| - i
  {
    if i + 1 < |c.reports| { RisingBelowLast(c, i + 1); }
  }

  lemma LastPercent(lastPct: int, read: int, total: int)
    requires 0 <= lastPct && 0 <= read <= total && total > 0
    requires lastPct * total <= read * 100 < (lastPct + 3) * total
    ensures lastPct <= 100
    ensures read == total ==> lastPct >= 98
  {
    Cancel(lastPct, 100, total);
    Cancel(100, lastPct + 3, total);
  }

  /** What progress reports promise after the reads `chunks` of a download of `total` bytes: they rise by at
      least 3 and stay at most 100, there are at most 33, the true percentage is less than 3 above the last
      one, and once everything is read the last one is at least 98. */
  predicate Throttled(total: int, chunks: seq<int>)
    requires total > 0
  {
    var c := AfterReads(total, chunks);
    && Rising(c)
    && (forall i :: 0 <= i < |c.reports| ==> 3 <= c.reports[i] <= 100)
    && |c.reports| <= 33
    && c.lastPct * total <= Sum(chunks) * 100 < (c.lastPct + 3) * total
    && (Sum(chunks) == total ==> c.lastPct >= 98)
  }

  lemma ThrottleGuarantee(total: int, chunks: seq<int>)
    requires 0 < total <= SAFE_TOTAL && Chunks(chunks) && Sum(chunks) <= total
    ensures Throttled(total, chunks)
  {
    TracksReads(total, chunks);
    var c := AfterReads(total, chunks);
    LastPercent(c.lastPct, Sum(chunks), total);
    forall i | 0 <= i < |c.reports| ensures 3 <= c.reports[i] <= 100 {
      RisingBound(c, i);
      RisingBelowLast(c, i);
    }
    if c.reports != [] { RisingBound(c, |c.reports| - 1); }
  }

  lemma WrapsDown(x: int)
    requires x >= TWO_63
    ensures Wrap64(x) <= x - TWO_64
  {
    var q := (x - Wrap64(x)) / TWO_64;
    assert x - Wrap64(x) == q * TWO_64;
  }

  lemma QuotientBelow(a: int, k: nat, b: int)
    requires b > 0 && k > 0 && a < k * b
    ensures Quotient(a, b) < k
  {
    if a >= 0 {
      assert a == a / b * b + a % b;
      Cancel(a / b, k, b);
    } else {
      assert -a / b >= 0;
    }
  }

  lemma WrappedPercent(total: int)
    requires SAFE_TOTAL < total < TWO_63
    ensures Percent(total, total) < 98
  {
    WrapsDown(total * 100);
    QuotientBelow(Wrap64(total * 100), 98, total);
  }

  /** A total that is too large is reported wrongly when it arrives in one piece. */
  lemma OnePiece(total: int)
    requires SAFE_TOTAL < total < TWO_63
    ensures Chunks([total]) && Sum([total]) <= total && !Throttled(total, [total])
  {
    WrappedPercent(total);
    assert [total][..0] == [];
    assert Sum([total]) == Sum([]) + total;
    assert AfterReads(total, [total]) == AfterRead(AfterReads(total, []), total, total);
  }

  /** The promise holds for every chunking if and only if the total is at most (2^63-1)/100. */
  lemma ThrottledExactly(total: int)
    requires 0 < total < TWO_63
    ensures (forall chunks :: Chunks(chunks) && Sum(chunks) <= total ==> Throttled(total, chunks))
        <==> total <= SAFE_TOTAL
  {
    if total <= SAFE_TOTAL {
      forall chunks | Chunks(chunks) && Sum(chunks) <= total ensures Throttled(total, chunks) {
        ThrottleGuarantee(total, chunks);
      }
    } else {
      OnePiece(total);
    }
  }

  /** `r` is the percentage of `read`, rounded down. */
  predicate RoundedDown(r: int, read: int, total: int) {
    r * total <= read * 100 < (r + 1) * total
  }

  lemma ReportMade(c: Counter, total: int, n: int)
    requires 0 < total <= SAFE_TOTAL && 0 <= c.read && 0 <= n && c.read + n <= total
    requires AfterRead(c, total, n).reports != c.reports
    ensures AfterRead(c, total, n).reports[..|c.reports|] == c.reports
    ensures var r := AfterRead(c, total, n).reports[|c.reports|];
            RoundedDown(r, c.read + n, total)
    ensures |AfterRead(c, total, n).reports| == |c.reports| + 1
  {
    PercentExact(c.read + n, total);
  }

  /** Every report is the true percentage, rounded down, of what had been read after some read `k`. */
  lemma {:induction false} ReportsTrue(total: int, chunks: seq<int>, i: nat) returns (k: nat)
    requires 0 < total <= SAFE_TOTAL && Chunks(chunks) && Sum(chunks) <= total
    requires i < |AfterReads(total, chunks).reports|
    ensures k <= |chunks| && RoundedDown(AfterReads(total, chunks).reports[i], Sum(chunks[..k]), total)
  {
    var n := |chunks|;
    var front := chunks[..n - 1];
    var before := AfterReads(total, front);
    TracksReads(total, front);
    if AfterReads(total, chunks).reports != before.reports { ReportMade(before, total, chunks[n - 1]); }
    if i < |before.reports| {
      k := ReportsTrue(total, front, i);
      assert front[..k] == chunks[..k];
    } else {
      k := n;
      assert chunks[..n] == chunks;
    }
  }
}

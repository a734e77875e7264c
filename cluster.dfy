/** `GET /api/cluster/stats` (server/src/index.ts:475-541): the quantity
    parsers `parseMemory` and `parseDisk`, the `forEach` accumulation over the
    node rows, and the rounded percentages of the reply. JavaScript numbers
    are modelled as exact integers and reals. */
module Cluster {
  import opened Text
  import opened Sequences
  import opened Records

  /** The unit alternatives `GB|MB|TB` of the quantity pattern. */
  datatype Unit = MB | GB | TB

  /** How many megabytes one unit is. */
  function UnitFactor(u: Unit): nat {
    match u
    case MB => 1
    case GB => 1024
    case TB => 1048576
  }

  /** Where the run of `\d` that starts at `i` ends. */
  function DigitRunEnd(s: string, i: nat): (e: nat)
    requires i <= |s|
    ensures i <= e <= |s|
    ensures forall k :: i <= k < e ==> IsDigit(s[k])
    ensures e == |s| || !IsDigit(s[e])
    decreases |s| - i
  {
    if i < |s| && IsDigit(s[i]) then DigitRunEnd(s, i + 1) else i
  }

  /** Where the run of `\s` that starts at `i` ends. */
  function SpaceRunEnd(s: string, i: nat): (e: nat)
    requires i <= |s|
    ensures i <= e <= |s|
    ensures forall k :: i <= k < e ==> IsRegexSpace(s[k])
    ensures e == |s| || !IsRegexSpace(s[e])
    decreases |s| - i
  {
    if i < |s| && IsRegexSpace(s[i]) then SpaceRunEnd(s, i + 1) else i
  }

  /** The alternation `(GB|MB|TB)` under the `i` flag, tried at `i`. */
  function UnitAt(s: string, i: nat): (r: Option<Unit>)
    requires i <= |s|
    ensures r.Some? ==> i + 2 <= |s| && UpperChar(s[i + 1]) == 'B'
    ensures r == Some(GB) ==> UpperChar(s[i]) == 'G'
    ensures r == Some(MB) ==> UpperChar(s[i]) == 'M'
    ensures r == Some(TB) ==> UpperChar(s[i]) == 'T'
    ensures i + 2 <= |s| && UpperChar(s[i + 1]) == 'B' && UpperChar(s[i]) in {'G', 'M', 'T'} ==> r.Some?
  {
    if i + 2 > |s| || UpperChar(s[i + 1]) != 'B' then None
    else if UpperChar(s[i]) == 'G' then Some(GB)
    else if UpperChar(s[i]) == 'M' then Some(MB)
    else if UpperChar(s[i]) == 'T' then Some(TB)
    else None
  }

  /** A match of the pattern: the number `parseInt` reads from the digits,
      and the unit. */
  datatype Quantity = Quantity(value: nat, unit: Unit)

  /** `/(\d+)\s*(GB|MB|TB)/i` anchored at `p`. Backtracking never helps:
      giving back a digit leaves a digit where `\s` or a unit letter is
      needed, and giving back a space leaves a space where a unit letter is
      needed, so the greedy runs decide the match. */
  function MatchAt(s: string, p: nat): (r: Option<Quantity>)
    requires p <= |s|
    ensures r.Some? ==> p < |s| && IsDigit(s[p])
    ensures r.Some? <==> p < |s| && IsDigit(s[p]) && UnitAt(s, SpaceRunEnd(s, DigitRunEnd(s, p))).Some?
    ensures r.Some? ==> r.value.unit == UnitAt(s, SpaceRunEnd(s, DigitRunEnd(s, p))).value
  {
    if p == |s| || !IsDigit(s[p]) then None
    else
      var e := DigitRunEnd(s, p);
      var f := SpaceRunEnd(s, e);
      assert forall k :: 0 <= k < |s[p..e]| ==> IsDigit(s[p..e][k]) by {
        assert forall k :: 0 <= k < |s[p..e]| ==> s[p..e][k] == s[p + k];
      }
      match UnitAt(s, f)
      case None => None
      case Some(u) => Some(Quantity(DecimalValue(s[p..e]), u))
  }

  /** `s.match(pattern)`: the leftmost match at or after `p`. */
  function FirstMatch(s: string, p: nat): (r: Option<Quantity>)
    requires p <= |s|
    ensures r.None? ==> forall q :: p <= q <= |s| ==> MatchAt(s, q).None?
    ensures r.Some? ==> exists q :: p <= q < |s| && MatchAt(s, q) == r && forall k :: p <= k < q ==> MatchAt(s, k).None?
    decreases |s| - p
  {
    if p == |s| then None
    else if MatchAt(s, p).Some? then MatchAt(s, p)
    else FirstMatch(s, p + 1)
  }

  /** `parseMemory`: megabytes, 0 for a NULL or empty column or a string
      with no match. */
  function ParseMemory(mem: Option<string>): (r: nat)
    ensures mem.None? || mem == Some("") ==> r == 0
  {
    if mem.None? || mem.value == "" then 0
    else match FirstMatch(mem.value, 0)
      case None => 0
      case Some(q) => q.value * UnitFactor(q.unit)
  }

  /** `parseMemory` falls back to 0 exactly when the pattern matches
      nowhere, or the matched number is 0. */
  lemma ParseMemoryFallback(mem: Option<string>)
    ensures mem.Some? && (forall p :: 0 <= p <= |mem.value| ==> MatchAt(mem.value, p).None?) ==> ParseMemory(mem) == 0
    ensures ParseMemory(mem) > 0 ==> mem.Some? && exists p :: 0 <= p < |mem.value| && MatchAt(mem.value, p).Some?
  {
    if mem.Some? && mem.value != "" {
      var r := FirstMatch(mem.value, 0);
    }
  }

  /** `parseDisk`: gigabytes, where megabytes are divided by 1024. */
  function ParseDisk(disk: Option<string>): (r: real)
    ensures r >= 0.0
    ensures disk.None? || disk == Some("") ==> r == 0.0
  {
    if disk.None? || disk.value == "" then 0.0
    else match FirstMatch(disk.value, 0)
      case None => 0.0
      case Some(q) =>
        match q.unit
        case GB => q.value as real
        case TB => (q.value * 1024) as real
        case MB => q.value as real / 1024.0
  }

  /** The two parsers read the same quantity, in units 1024 apart. */
  lemma ParseDiskIsMemory(d: Option<string>)
    ensures ParseDisk(d) == ParseMemory(d) as real / 1024.0
  {
  }

  /** A two-letter unit word the pattern accepts, in any letter case. */
  predicate UnitWord(w: string, u: Unit) {
    && |w| == 2 && UpperChar(w[1]) == 'B'
    && UpperChar(w[0]) == (match u case GB => 'G' case MB => 'M' case TB => 'T')
  }

  /** A number, optional white space and a unit word, followed by anything,
      is read as that number of units: `"32GB"`, `"8 gb"` and `"1TB free"`
      give 32768, 8192 and 1048576 megabytes. */
  lemma ParseMemoryReads(n: nat, spaces: string, w: string, u: Unit, rest: string)
    requires forall k :: 0 <= k < |spaces| ==> IsRegexSpace(spaces[k])
    requires UnitWord(w, u)
    ensures ParseMemory(Some(NatToString(n) + spaces + w + rest)) == n * UnitFactor(u)
  {
    var digits := NatToString(n);
    var s := digits + spaces + w + rest;
    assert forall k :: 0 <= k < |digits| ==> s[k] == digits[k];
    assert forall k :: 0 <= k < |spaces| ==> s[|digits| + k] == spaces[k];
    assert s[|digits| + |spaces|] == w[0] && s[|digits| + |spaces| + 1] == w[1];
    assert !IsDigit(w[0]) && !IsRegexSpace(w[0]);
    assert forall k :: 0 <= k < |digits| ==> IsDigit(s[k]);
    assert forall k :: |digits| <= k < |digits| + |spaces| ==> IsRegexSpace(s[k]) by {
      forall k | |digits| <= k < |digits| + |spaces| ensures IsRegexSpace(s[k]) {
        assert s[k] == spaces[k - |digits|];
      }
    }
    var e := DigitRunEnd(s, 0);
    assert !IsDigit(s[|digits|]);
    assert e == |digits|;
    var f := SpaceRunEnd(s, e);
    assert !IsRegexSpace(s[|digits| + |spaces|]);
    assert f == |digits| + |spaces|;
    assert s[0..e] == digits;
    DecimalRoundTrip(n);
    assert MatchAt(s, 0) == Some(Quantity(n, u));
  }

  /** A quantity with no digits, or with no unit after its digits, is 0. */
  lemma ParseMemoryNoDigits(s: string)
    requires forall k :: 0 <= k < |s| ==> !IsDigit(s[k])
    ensures ParseMemory(Some(s)) == 0
  {
    assert forall q :: 0 <= q <= |s| ==> MatchAt(s, q).None?;
  }

  /** `node.cpu_total || 0`. */
  function IntOrZero(o: Option<int>): int {
    if o.Some? then o.value else 0
  }

  function CpuTotalOf(n: Node): int { IntOrZero(n.cpuTotal) }
  function CpuUsedOf(n: Node): int { IntOrZero(n.cpuUsed) }
  function MemTotalOf(n: Node): int { ParseMemory(n.memTotal) }
  function MemUsedOf(n: Node): int { ParseMemory(n.memUsed) }
  function DiskTotalMbOf(n: Node): int { ParseMemory(n.diskTotal) }
  function DiskUsedMbOf(n: Node): int { ParseMemory(n.diskUsed) }
  predicate IsOnline(n: Node) { n.status == "online" }

  /** The `stats` accumulator of the handler. */
  datatype Totals = Totals(
    totalCpu: int, usedCpu: int, totalMemMb: int, usedMemMb: int,
    totalDiskGb: real, usedDiskGb: real, nodeCount: nat, onlineNodes: nat)

  lemma {:induction false} SumNonNegative<T>(s: seq<T>, f: T -> int)
    requires forall k :: 0 <= k < |s| ==> f(s[k]) >= 0
    ensures Sum(s, f) >= 0
    decreases |s|
  {
    if s != [] {
      assert forall k :: 0 <= k < |s[1..]| ==> s[1..][k] == s[k + 1];
      SumNonNegative(s[1..], f);
    }
  }

  /** What the accumulation computes: sums over the rows, the disk sums in
      gigabytes, the row count and the number of rows whose status is
      `online`. */
  function StatsOf(ns: seq<Node>): (t: Totals)
    ensures t.nodeCount == |ns| && t.onlineNodes == |Filter(ns, IsOnline)|
  {
    Totals(Sum(ns, CpuTotalOf), Sum(ns, CpuUsedOf), Sum(ns, MemTotalOf), Sum(ns, MemUsedOf),
           Sum(ns, DiskTotalMbOf) as real / 1024.0, Sum(ns, DiskUsedMbOf) as real / 1024.0,
           |ns|, |Filter(ns, IsOnline)|)
  }

  /** Online nodes are at most all nodes, and all of them when every status
      is `online`; memory and disk totals are never negative. */
  lemma StatsBounds(ns: seq<Node>)
    ensures var t := StatsOf(ns);
      && t.onlineNodes <= t.nodeCount
      && ((forall k :: 0 <= k < |ns| ==> ns[k].status == "online") ==> t.onlineNodes == t.nodeCount)
      && t.totalMemMb >= 0 && t.usedMemMb >= 0 && t.totalDiskGb >= 0.0 && t.usedDiskGb >= 0.0
  {
    SumNonNegative(ns, MemTotalOf);
    SumNonNegative(ns, MemUsedOf);
    SumNonNegative(ns, DiskTotalMbOf);
    SumNonNegative(ns, DiskUsedMbOf);
    if forall k :: 0 <= k < |ns| ==> ns[k].status == "online" {
      FilterKeepsAll(ns, IsOnline);
    }
  }

  /** The totals do not depend on the order `SELECT * FROM nodes` returns
      the rows in. */
  lemma StatsPermutation(a: seq<Node>, b: seq<Node>)
    requires multiset(a) == multiset(b)
    ensures StatsOf(a) == StatsOf(b)
  {
    SumPermutation(a, b, CpuTotalOf);
    SumPermutation(a, b, CpuUsedOf);
    SumPermutation(a, b, MemTotalOf);
    SumPermutation(a, b, MemUsedOf);
    SumPermutation(a, b, DiskTotalMbOf);
    SumPermutation(a, b, DiskUsedMbOf);
    FilterPermutation(a, b, IsOnline);
    assert |a| == |multiset(a)| == |multiset(b)| == |b|;
  }

  /** The accumulator after the first `i` rows. */
  function Partial(ns: seq<Node>, i: nat): Totals
    requires i <= |ns|
  {
    Totals(
      Sum(ns[..i], CpuTotalOf), Sum(ns[..i], CpuUsedOf), Sum(ns[..i], MemTotalOf), Sum(ns[..i], MemUsedOf),
      Sum(ns[..i], DiskTotalMbOf) as real / 1024.0, Sum(ns[..i], DiskUsedMbOf) as real / 1024.0,
      |ns|, |Filter(ns, IsOnline)|)
  }

  /** The body of the `nodes.forEach` loop (index.ts:513-518): the row's
      figures are added, the disk ones through `parseDisk`. */
  function AddRow(t: Totals, n: Node): Totals {
    t.(totalCpu := t.totalCpu + IntOrZero(n.cpuTotal), usedCpu := t.usedCpu + IntOrZero(n.cpuUsed),
       totalMemMb := t.totalMemMb + ParseMemory(n.memTotal), usedMemMb := t.usedMemMb + ParseMemory(n.memUsed),
       totalDiskGb := t.totalDiskGb + ParseDisk(n.diskTotal), usedDiskGb := t.usedDiskGb + ParseDisk(n.diskUsed))
  }

  /** One round of the loop body takes the accumulator of the first `i`
      rows to that of the first `i + 1`. */
  lemma PartialStep(ns: seq<Node>, i: nat)
    requires i < |ns|
    ensures Partial(ns, i + 1) == AddRow(Partial(ns, i), ns[i])
  {
    var n := ns[i];
    assert ns[..i + 1] == ns[..i] + [n];
    SumSnoc(ns[..i], n, CpuTotalOf);
    SumSnoc(ns[..i], n, CpuUsedOf);
    SumSnoc(ns[..i], n, MemTotalOf);
    SumSnoc(ns[..i], n, MemUsedOf);
    SumSnoc(ns[..i], n, DiskTotalMbOf);
    SumSnoc(ns[..i], n, DiskUsedMbOf);
    ParseDiskIsMemory(n.diskTotal);
    ParseDiskIsMemory(n.diskUsed);
  }

  /** The `stats` initialiser and the `nodes.forEach` loop (index.ts:501-519). */
  method AccumulateStats(ns: seq<Node>) returns (t: Totals)
    ensures t == StatsOf(ns)
  {
    t := Totals(0, 0, 0, 0, 0.0, 0.0, |ns|, |Filter(ns, IsOnline)|);
    var i := 0;
    assert ns[..0] == [];
    while i < |ns|
      invariant 0 <= i <= |ns|
      invariant t == Partial(ns, i)
    {
      PartialStep(ns, i);
      t := AddRow(t, ns[i]);
      i := i + 1;
    }
    assert ns[..i] == ns;
  }

  /** `Math.round`: the nearest integer, halves rounded up. */
  function Round(x: real): (r: int)
    ensures r as real <= x + 0.5 < r as real + 1.0
  {
    (x + 0.5).Floor
  }

  /** `total > 0 ? Math.round((used / total) * 100) : 0`. */
  function Percent(used: real, total: real): (r: int)
    ensures total <= 0.0 ==> r == 0
  {
    if total > 0.0 then Round(used / total * 100.0) else 0
  }

  /** A quotient of a part by a larger positive whole lies in [0, 1). */
  lemma FractionBounds(r: real, d: real)
    requires 0.0 <= r < d
    ensures 0.0 <= r / d < 1.0
  {
    assert r / d * d == r;
  }

  /** A product by a non-zero factor can be divided back. */
  lemma Unscale(x: real, n: real, d: real)
    requires d != 0.0 && x * d == n
    ensures x == n / d
  {
    assert n / d * d == n;
  }

  /** The floor of an exact quotient is the integer quotient. */
  lemma FloorOfQuotient(n: int, d: int)
    requires d > 0
    ensures (n as real / d as real).Floor == n / d
  {
    var q, r := n / d, n % d;
    var D := d as real;
    assert n == q * d + r && 0 <= r < d;
    assert (q * d) as real == q as real * D;
    assert n as real == q as real * D + r as real;
    var x := n as real / D;
    assert x * D == n as real;
    assert (x - q as real) * D == r as real;
    Unscale(x - q as real, r as real, D);
    FractionBounds(r as real, D);
  }

  /** `Math.round(u / t * 100)` as one exact quotient. */
  lemma PercentAsQuotient(u: real, t: real)
    requires t > 0.0
    ensures u / t * 100.0 + 0.5 == (200.0 * u + t) / (2.0 * t)
  {
    var y := u / t;
    assert y * t == u;
    assert (y * 100.0 + 0.5) * (2.0 * t) == 200.0 * u + t;
    Unscale(y * 100.0 + 0.5, 200.0 * u + t, 2.0 * t);
  }

  /** On integer counts the rounded percentage is an integer quotient. */
  lemma PercentOfIntegers(u: int, t: int)
    requires t > 0
    ensures Percent(u as real, t as real) == (200 * u + t) / (2 * t)
  {
    PercentAsQuotient(u as real, t as real);
    assert (200 * u + t) as real == 200.0 * (u as real) + t as real;
    assert (2 * t) as real == 2.0 * (t as real);
    FloorOfQuotient(200 * u + t, 2 * t);
  }

  /** A part of a positive total is between 0 and 100 percent. */
  lemma PercentBounds(used: real, total: real)
    requires 0.0 <= used <= total && total > 0.0
    ensures 0 <= Percent(used, total) <= 100
  {
    var x := used / total * 100.0;
    assert used / total <= 1.0 by {
      assert used / total * total == used;
    }
    assert 0.0 <= x <= 100.0;
  }

  /** Scaling both sides, as the disk figures are in gigabytes of megabyte
      sums, leaves the percentage unchanged. */
  lemma PercentScale(used: real, total: real, k: real)
    requires k > 0.0
    ensures Percent(used / k, total / k) == Percent(used, total)
  {
    if total > 0.0 {
      assert (used / k) / (total / k) == used / total by {
        assert (used / k) / (total / k) * (total / k) == used / k;
        assert (used / total) * (total / k) == used / k;
      }
    }
  }

  /** The JSON numbers of the reply; the `toFixed` display strings of memory
      and disk are not modelled, their raw totals are. */
  datatype Report = Report(
    cpuTotal: int, cpuUsed: int, cpuPercent: int,
    memTotalMb: int, memUsedMb: int, memPercent: int,
    diskTotalGb: real, diskUsedGb: real, diskPercent: int,
    nodesTotal: nat, nodesOnline: nat)

  function ReportOf(t: Totals): Report {
    Report(t.totalCpu, t.usedCpu, Percent(t.usedCpu as real, t.totalCpu as real),
           t.totalMemMb, t.usedMemMb, Percent(t.usedMemMb as real, t.totalMemMb as real),
           t.totalDiskGb, t.usedDiskGb, Percent(t.usedDiskGb, t.totalDiskGb),
           t.nodeCount, t.onlineNodes)
  }

  /** The handler body after `SELECT * FROM nodes`. */
  method ClusterStats(ns: seq<Node>) returns (r: Report)
    ensures r == ReportOf(StatsOf(ns))
    ensures r.nodesTotal == |ns| && r.nodesOnline == |Filter(ns, IsOnline)|
    ensures StatsOf(ns).totalCpu <= 0 ==> r.cpuPercent == 0
    ensures StatsOf(ns).totalMemMb == 0 ==> r.memPercent == 0
    ensures StatsOf(ns).totalDiskGb == 0.0 ==> r.diskPercent == 0
  {
    var t := AccumulateStats(ns);
    r := ReportOf(t);
  }

  /** Each percentage of the reply is the integer rounding of its
      core or megabyte counts; the disk one is computed as if the sums
      stayed in megabytes. */
  lemma ReportPercentages(t: Totals, diskTotalMb: int, diskUsedMb: int)
    requires t.totalDiskGb == diskTotalMb as real / 1024.0 && t.usedDiskGb == diskUsedMb as real / 1024.0
    ensures t.totalCpu > 0 ==> ReportOf(t).cpuPercent == (200 * t.usedCpu + t.totalCpu) / (2 * t.totalCpu)
    ensures t.totalMemMb > 0 ==> ReportOf(t).memPercent == (200 * t.usedMemMb + t.totalMemMb) / (2 * t.totalMemMb)
    ensures diskTotalMb > 0 ==> ReportOf(t).diskPercent == (200 * diskUsedMb + diskTotalMb) / (2 * diskTotalMb)
  {
    if t.totalCpu > 0 {
      PercentOfIntegers(t.usedCpu, t.totalCpu);
    }
    if t.totalMemMb > 0 {
      PercentOfIntegers(t.usedMemMb, t.totalMemMb);
    }
    if diskTotalMb > 0 {
      PercentScale(diskUsedMb as real, diskTotalMb as real, 1024.0);
      PercentOfIntegers(diskUsedMb, diskTotalMb);
    }
  }
}

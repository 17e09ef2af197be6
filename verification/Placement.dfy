/**
 Choosing a host: filters, scores and the ranking (`internal/pkg/provider/placement.go`). Scores are
 real numbers, so ties are those of the exact values.
 */
module Placement {
  import opened Wrappers
  import opened Text
  import opened OpenNebula

  const HYPERVISOR_KVM := "kvm"
  const HYPERVISOR_QEMU := "qemu"
  const STORAGE_PROFILE_ANY := "any"
  const ENVIRONMENT_LAB_QEMU := "lab-qemu"
  const ENVIRONMENT_PRODUCTION_KVM := "production-kvm"
  const ENVIRONMENT_MIXED_STAGING := "mixed-staging"

  datatype PlacementRequest = PlacementRequest(
    host: string,
    cluster: string,
    vmGroup: string,
    role: string,
    storageProfile: string,
    requiredHostTags: seq<string>,
    excludedHostTags: seq<string>,
    networkZone: string)

  datatype Scoring = Scoring(
    cpuHeadroomWeight: real,
    memoryHeadroomWeight: real,
    vmCountWeight: real,
    hypervisorMatchWeight: real,
    environmentBiasWeight: real)

  datatype PlacementConfig = PlacementConfig(
    scoring: Scoring,
    environmentProfile: string,
    hostInNetworkZone: (string, string) -> bool)

  datatype ScoredHost = ScoredHost(host: HostInfo, score: real)

  datatype PlacementDecision = PlacementDecision(selected: HostInfo, topCandidates: seq<ScoredHost>)

  // ---------------------------------------------------------------- filters

  predicate HostMatchesTags(host: HostInfo, requiredTags: seq<string>, excludedTags: seq<string>) {
    && (forall k :: 0 <= k < |requiredTags| ==> host.HasTag(requiredTags[k]))
    && (forall k :: 0 <= k < |excludedTags| ==> !host.HasTag(excludedTags[k]))
  }

  /** A storage profile is required as a host tag only if some host of the listing carries it. */
  function EffectiveRequiredHostTags(request: PlacementRequest, hosts: seq<HostInfo>): seq<string> {
    var storageTag := TrimSpace(request.storageProfile);
    if storageTag == "" || storageTag == STORAGE_PROFILE_ANY then request.requiredHostTags
    else if exists k :: 0 <= k < |hosts| && hosts[k].HasTag(storageTag) then request.requiredHostTags + [storageTag]
    else request.requiredHostTags
  }

  predicate IsEligible(config: PlacementConfig, request: PlacementRequest, hypervisor: string,
                       requiredTags: seq<string>, host: HostInfo) {
    && (request.cluster != "" ==> EqualFold(host.clusterName, request.cluster))
    && (request.host != "" ==> EqualFold(host.name, request.host))
    && host.enabled && host.schedulable
    && (hypervisor != "" ==> EqualFold(host.hypervisor, hypervisor))
    && (request.networkZone != "" ==> config.hostInNetworkZone(request.networkZone, host.name))
    && HostMatchesTags(host, requiredTags, request.excludedHostTags)
  }

  // ---------------------------------------------------------------- scores

  function HeadroomRatio(total: int, used: int): (r: real)
    ensures 0.0 <= r && (used >= 0 ==> r <= 1.0)
  {
    if total <= 0 then 0.0
    else
      var available := if total - used < 0 then 0 else total - used;
      Fraction(available, total);
      available as real / total as real
  }

  lemma Fraction(a: nat, b: nat)
    requires b > 0
    ensures 0.0 <= a as real / b as real && (a <= b ==> a as real / b as real <= 1.0)
  {
  }

  /** The ratio is the free share, and no host has more than all or less than nothing free. */
  lemma HeadroomIsFreeShare(total: int, used: int)
    ensures total > 0 && used <= total ==> HeadroomRatio(total, used) * total as real == (total - used) as real
    ensures total <= 0 || used >= total ==> HeadroomRatio(total, used) == 0.0
    ensures total > 0 && used == 0 ==> HeadroomRatio(total, used) == 1.0
  {
  }

  /** The more is in use, the less it is. */
  lemma {:induction false} HeadroomFalls(total: int, used: int, used': int)
    requires used < used' && 0 < total && used < total
    ensures HeadroomRatio(total, used') < HeadroomRatio(total, used)
  {
    hide HeadroomRatio;
    HeadroomIsFreeShare(total, used);
    HeadroomIsFreeShare(total, used');
    if used' <= total {
      Smaller(HeadroomRatio(total, used), HeadroomRatio(total, used'), total as real, (total - used) as real,
              (total - used') as real);
    } else {
      Smaller(HeadroomRatio(total, used), 0.0, total as real, (total - used) as real, 0.0);
    }
  }

  lemma Smaller(x: real, y: real, z: real, xz: real, yz: real)
    requires z > 0.0 && x * z == xz && y * z == yz && yz < xz
    ensures y < x
  {
  }

  /** Headroom counts for a host, running VMs count against it. */
  function Ranking(scoring: Scoring, host: HostInfo): real {
    HeadroomRatio(host.cpuTotal, host.cpuUsed) * scoring.cpuHeadroomWeight
    + HeadroomRatio(host.memoryTotalMiB, host.memoryUsedMiB) * scoring.memoryHeadroomWeight
    - host.runningVMs as real * scoring.vmCountWeight
  }

  function Bonus(config: PlacementConfig, hypervisor: string, host: HostInfo): real {
    (if hypervisor == HYPERVISOR_KVM && EqualFold(host.hypervisor, HYPERVISOR_KVM) then
     config.scoring.hypervisorMatchWeight else 0.0)
    + (if hypervisor == HYPERVISOR_QEMU && EqualFold(host.hypervisor, HYPERVISOR_QEMU) then
       config.scoring.hypervisorMatchWeight else 0.0)
    + (if config.environmentProfile == ENVIRONMENT_LAB_QEMU && EqualFold(host.hypervisor, HYPERVISOR_QEMU)
       then config.scoring.environmentBiasWeight else 0.0)
    + (if config.environmentProfile == ENVIRONMENT_PRODUCTION_KVM && EqualFold(host.hypervisor, HYPERVISOR_KVM)
       then config.scoring.environmentBiasWeight else 0.0)
    + (if config.environmentProfile == ENVIRONMENT_MIXED_STAGING then config.scoring.environmentBiasWeight * 0.5
       else 0.0)
  }

  function Score(config: PlacementConfig, hypervisor: string, host: HostInfo): real {
    Ranking(config.scoring, host) + Bonus(config, hypervisor, host)
  }

  method ScoreHost(config: PlacementConfig, hypervisor: string, host: HostInfo) returns (score: real)
    ensures score == Score(config, hypervisor, host)
  {
    var scoring := config.scoring;
    score := Ranking(scoring, host);
    hide Ranking, EqualFold;
    if hypervisor == HYPERVISOR_KVM && EqualFold(host.hypervisor, HYPERVISOR_KVM) {
      score := score + scoring.hypervisorMatchWeight;
    }
    if hypervisor == HYPERVISOR_QEMU && EqualFold(host.hypervisor, HYPERVISOR_QEMU) {
      score := score + scoring.hypervisorMatchWeight;
    }
    if config.environmentProfile == ENVIRONMENT_LAB_QEMU && EqualFold(host.hypervisor, HYPERVISOR_QEMU) {
      score := score + scoring.environmentBiasWeight;
    }
    if config.environmentProfile == ENVIRONMENT_PRODUCTION_KVM && EqualFold(host.hypervisor, HYPERVISOR_KVM) {
      score := score + scoring.environmentBiasWeight;
    }
    if config.environmentProfile == ENVIRONMENT_MIXED_STAGING {
      score := score + scoring.environmentBiasWeight * 0.5;
    }
  }

  /** For a resolved hypervisor every candidate gets the same bonus: the ranking alone decides. */
  lemma BonusesAreEqual(config: PlacementConfig, request: PlacementRequest, hypervisor: string, tags: seq<string>,
                        a: HostInfo, b: HostInfo)
    requires hypervisor != "" && IsEligible(config, request, hypervisor, tags, a) &&
             IsEligible(config, request, hypervisor, tags, b)
    ensures Score(config, hypervisor, a) - Score(config, hypervisor, b) ==
            Ranking(config.scoring, a) - Ranking(config.scoring, b)
  {
    assert forall s :: EqualFold(a.hypervisor, s) <==> EqualFold(b.hypervisor, s);
  }

  lemma Weighted(ratio: real, weight: real)
    requires 0.0 <= ratio <= 1.0 && 0.0 <= weight
    ensures 0.0 <= ratio * weight <= weight
  {
  }

  /** A host with more than (cpuW + memW) / vmW VMs more than another never outranks it. */
  lemma {:induction false} ManyVmsLose(config: PlacementConfig, request: PlacementRequest, hypervisor: string,
                                       tags: seq<string>, a: HostInfo, b: HostInfo)
    requires hypervisor != "" && IsEligible(config, request, hypervisor, tags, a) &&
             IsEligible(config, request, hypervisor, tags, b)
    requires a.cpuUsed >= 0 && a.memoryUsedMiB >= 0
    requires config.scoring.cpuHeadroomWeight >= 0.0 && config.scoring.memoryHeadroomWeight >= 0.0 &&
             config.scoring.vmCountWeight > 0.0
    requires (a.runningVMs - b.runningVMs) as real
           > (config.scoring.cpuHeadroomWeight + config.scoring.memoryHeadroomWeight) / config.scoring.vmCountWeight
    ensures Score(config, hypervisor, a) < Score(config, hypervisor, b)
  {
    hide Score, Ranking, IsEligible, HeadroomRatio;
    BonusesAreEqual(config, request, hypervisor, tags, a, b);
    var cpu, memory, vms := RankingTerms(config.scoring, a);
    var cpu', memory', vms' := RankingTerms(config.scoring, b);
    var vmW := config.scoring.vmCountWeight;
    MultipliedOut((a.runningVMs - b.runningVMs) as real,
                  config.scoring.cpuHeadroomWeight + config.scoring.memoryHeadroomWeight, vmW);
    Distributes(a.runningVMs, b.runningVMs, vmW);
  }

  /** The three terms of a ranking. */
  lemma RankingTerms(s: Scoring, host: HostInfo) returns (cpu: real, memory: real, vms: real)
    requires s.cpuHeadroomWeight >= 0.0 && s.memoryHeadroomWeight >= 0.0
    ensures Ranking(s, host) == cpu + memory - vms && vms == host.runningVMs as real * s.vmCountWeight
    ensures 0.0 <= cpu && 0.0 <= memory
    ensures host.cpuUsed >= 0 ==> cpu <= s.cpuHeadroomWeight
    ensures host.memoryUsedMiB >= 0 ==> memory <= s.memoryHeadroomWeight
  {
    cpu := HeadroomTerm(host.cpuTotal, host.cpuUsed, s.cpuHeadroomWeight);
    memory := HeadroomTerm(host.memoryTotalMiB, host.memoryUsedMiB, s.memoryHeadroomWeight);
    vms := host.runningVMs as real * s.vmCountWeight;
  }

  lemma HeadroomTerm(total: int, used: int, weight: real) returns (term: real)
    requires weight >= 0.0
    ensures term == HeadroomRatio(total, used) * weight
    ensures 0.0 <= term && (used >= 0 ==> term <= weight)
  {
    var ratio := HeadroomRatio(total, used);
    hide HeadroomRatio;
    term := ratio * weight;
    NotNegative(ratio, weight);
    if used >= 0 {
      Weighted(ratio, weight);
    }
  }

  lemma NotNegative(x: real, y: real)
    requires x >= 0.0 && y >= 0.0
    ensures x * y >= 0.0
  {
  }

  lemma MultipliedOut(x: real, sum: real, weight: real)
    requires weight > 0.0 && x > sum / weight
    ensures x * weight > sum
  {
  }

  lemma Distributes(m: int, n: int, weight: real)
    ensures (m - n) as real * weight == m as real * weight - n as real * weight
  {
  }

  /** The host with its cpu, its memory or its VMs made those of another. */
  predicate AlikeButFor(a: HostInfo, b: HostInfo, cpuUsed: bool, memoryUsed: bool, vms: bool) {
    && a.hypervisor == b.hypervisor && a.cpuTotal == b.cpuTotal && a.memoryTotalMiB == b.memoryTotalMiB
    && (!cpuUsed ==> a.cpuUsed == b.cpuUsed) && (!memoryUsed ==> a.memoryUsedMiB == b.memoryUsedMiB)
    && (!vms ==> a.runningVMs == b.runningVMs)
  }

  function Term(x: real, weight: real): real {
    x * weight
  }

  /** The terms of a score; the bonus is that of the hypervisor. */
  lemma ScoreTerms(config: PlacementConfig, hypervisor: string, h: HostInfo)
    ensures Score(config, hypervisor, h)
         == Term(HeadroomRatio(h.cpuTotal, h.cpuUsed), config.scoring.cpuHeadroomWeight)
            + Term(HeadroomRatio(h.memoryTotalMiB, h.memoryUsedMiB), config.scoring.memoryHeadroomWeight)
            - Term(h.runningVMs as real, config.scoring.vmCountWeight) + Bonus(config, hypervisor, h)
  {
    hide HeadroomRatio, Bonus;
  }

  lemma SameBonus(config: PlacementConfig, hypervisor: string, a: HostInfo, b: HostInfo)
    requires a.hypervisor == b.hypervisor
    ensures Bonus(config, hypervisor, a) == Bonus(config, hypervisor, b)
  {
    hide EqualFold;
  }

  lemma Increases(x: real, y: real, weight: real)
    requires x < y && weight >= 0.0
    ensures Term(x, weight) <= Term(y, weight) && (weight > 0.0 ==> Term(x, weight) < Term(y, weight))
  {
  }

  /** Of two hosts alike but for the cpu in use the freer one scores no less, and more if cpu has a weight. */
  lemma {:induction false} FreerCpuScoresMore(config: PlacementConfig, hypervisor: string, a: HostInfo, b: HostInfo)
    requires AlikeButFor(a, b, true, false, false) && a.cpuUsed < b.cpuUsed && a.cpuUsed < a.cpuTotal
    requires config.scoring.cpuHeadroomWeight >= 0.0
    ensures Score(config, hypervisor, b) <= Score(config, hypervisor, a)
    ensures config.scoring.cpuHeadroomWeight > 0.0 && a.cpuTotal > 0 ==>
      Score(config, hypervisor, b) < Score(config, hypervisor, a)
  {
    hide HeadroomRatio, Score, Bonus, Term;
    ScoreTerms(config, hypervisor, a);
    ScoreTerms(config, hypervisor, b);
    SameBonus(config, hypervisor, a, b);
    if a.cpuTotal > 0 {
      HeadroomFalls(a.cpuTotal, a.cpuUsed, b.cpuUsed);
      Increases(HeadroomRatio(a.cpuTotal, b.cpuUsed), HeadroomRatio(a.cpuTotal, a.cpuUsed),
                config.scoring.cpuHeadroomWeight);
    } else {
      HeadroomIsFreeShare(a.cpuTotal, a.cpuUsed);
      HeadroomIsFreeShare(a.cpuTotal, b.cpuUsed);
    }
  }

  /** The same for memory, with its own weight. */
  lemma {:induction false} FreerMemoryScoresMore(config: PlacementConfig, hypervisor: string, a: HostInfo, b: HostInfo)
    requires AlikeButFor(a, b, false, true, false) && a.memoryUsedMiB < b.memoryUsedMiB
    requires a.memoryUsedMiB < a.memoryTotalMiB && config.scoring.memoryHeadroomWeight >= 0.0
    ensures Score(config, hypervisor, b) <= Score(config, hypervisor, a)
    ensures config.scoring.memoryHeadroomWeight > 0.0 && a.memoryTotalMiB > 0 ==>
      Score(config, hypervisor, b) < Score(config, hypervisor, a)
  {
    hide HeadroomRatio, Score, Bonus, Term;
    ScoreTerms(config, hypervisor, a);
    ScoreTerms(config, hypervisor, b);
    SameBonus(config, hypervisor, a, b);
    if a.memoryTotalMiB > 0 {
      HeadroomFalls(a.memoryTotalMiB, a.memoryUsedMiB, b.memoryUsedMiB);
      Increases(HeadroomRatio(a.memoryTotalMiB, b.memoryUsedMiB), HeadroomRatio(a.memoryTotalMiB, a.memoryUsedMiB),
                config.scoring.memoryHeadroomWeight);
    } else {
      HeadroomIsFreeShare(a.memoryTotalMiB, a.memoryUsedMiB);
      HeadroomIsFreeShare(a.memoryTotalMiB, b.memoryUsedMiB);
    }
  }

  /** And for VMs: each one more costs its weight. */
  lemma VmsCost(config: PlacementConfig, hypervisor: string, a: HostInfo, b: HostInfo)
    requires AlikeButFor(a, b, false, false, true)
    ensures Score(config, hypervisor, a) - Score(config, hypervisor, b)
         == (b.runningVMs - a.runningVMs) as real * config.scoring.vmCountWeight
  {
    hide HeadroomRatio, Score, Bonus;
    ScoreTerms(config, hypervisor, a);
    ScoreTerms(config, hypervisor, b);
    SameBonus(config, hypervisor, a, b);
    Distributes(b.runningVMs, a.runningVMs, config.scoring.vmCountWeight);
  }

  /** The whole score of a host on which nothing is overcommitted. */
  lemma {:induction false} ScoreMeans(config: PlacementConfig, hypervisor: string, h: HostInfo)
    requires 0 < h.cpuTotal && h.cpuUsed <= h.cpuTotal && 0 < h.memoryTotalMiB && h.memoryUsedMiB <= h.memoryTotalMiB
    ensures Score(config, hypervisor, h)
         == config.scoring.cpuHeadroomWeight * ((h.cpuTotal - h.cpuUsed) as real / h.cpuTotal as real)
            + config.scoring.memoryHeadroomWeight
              * ((h.memoryTotalMiB - h.memoryUsedMiB) as real / h.memoryTotalMiB as real)
            - config.scoring.vmCountWeight * h.runningVMs as real
            + (if (hypervisor == "kvm" && EqualFold(h.hypervisor, "kvm"))
                  || (hypervisor == "qemu" && EqualFold(h.hypervisor, "qemu"))
               then config.scoring.hypervisorMatchWeight else 0.0)
            + (if config.environmentProfile == "mixed-staging" then config.scoring.environmentBiasWeight * 0.5
               else if (config.environmentProfile == "lab-qemu" && EqualFold(h.hypervisor, "qemu"))
                       || (config.environmentProfile == "production-kvm" && EqualFold(h.hypervisor, "kvm"))
               then config.scoring.environmentBiasWeight else 0.0)
  {
    assert HeadroomRatio(h.cpuTotal, h.cpuUsed) == (h.cpuTotal - h.cpuUsed) as real / h.cpuTotal as real;
    assert HeadroomRatio(h.memoryTotalMiB, h.memoryUsedMiB)
        == (h.memoryTotalMiB - h.memoryUsedMiB) as real / h.memoryTotalMiB as real;
    hide HeadroomRatio, EqualFold;
  }

  // ---------------------------------------------------------------- the order of candidates

  predicate Less(a: string, b: string) {
    if b == "" then false
    else if a == "" then true
    else if a[0] == b[0] then Less(a[1..], b[1..])
    else a[0] < b[0]
  }

  lemma {:induction false} LessIsTotal(a: string, b: string)
    ensures (if Less(a, b) then 1 else 0) + (if Less(b, a) then 1 else 0) + (if a == b then 1 else 0) == 1
  {
    if a == "" || b == "" || a[0] != b[0] {
    } else {
      LessIsTotal(a[1..], b[1..]);
      assert a == [a[0]] + a[1..] && b == [b[0]] + b[1..];
    }
  }

  lemma {:induction false} LessIsTransitive(a: string, b: string, c: string)
    requires Less(a, b) && Less(b, c)
    ensures Less(a, c)
  {
    if a == "" || a[0] != b[0] || b[0] != c[0] {
    } else {
      LessIsTransitive(a[1..], b[1..], c[1..]);
    }
  }

  /** The order of the dictionary: a proper start comes first, else the first difference decides. */
  lemma {:induction false} LessExactly(a: string, b: string)
    ensures Less(a, b) <==> exists k: nat :: DiffersAt(a, b, k) && k < |b| && (k == |a| || a[k] < b[k])
  {
    if a == "" || b == "" || a[0] != b[0] {
      if a == "" && b != "" {
        assert DiffersAt(a, b, 0);
      } else if a != "" && b != "" && Less(a, b) {
        assert DiffersAt(a, b, 0);
      }
    } else {
      LessExactly(a[1..], b[1..]);
      forall k: nat ensures DiffersAt(a[1..], b[1..], k) <==> DiffersAt(a, b, k + 1) {
        if k + 1 <= |a| && k + 1 <= |b| {
          assert a[..k + 1] == [a[0]] + a[1..][..k] && b[..k + 1] == [b[0]] + b[1..][..k];
          assert a[1..][..k] == a[..k + 1][1..] && b[1..][..k] == b[..k + 1][1..];
        }
      }
      if Less(a, b) {
        var k: nat :| DiffersAt(a[1..], b[1..], k) && k < |b[1..]| && (k == |a[1..]| || a[1..][k] < b[1..][k]);
        assert DiffersAt(a, b, k + 1);
      }
      if k: nat :| DiffersAt(a, b, k) && k < |b| && (k == |a| || a[k] < b[k]) {
        assert k > 0;
        assert DiffersAt(a[1..], b[1..], k - 1);
      }
    }
  }

  /** Up to `k` the strings agree. */
  predicate DiffersAt(a: string, b: string, k: nat) {
    k <= |a| && k <= |b| && a[..k] == b[..k]
  }

  /** The less-than of the sort: higher score, then lower id, then lower name. */
  predicate Before(a: ScoredHost, b: ScoredHost) {
    if a.score == b.score then
      if a.host.id == b.host.id then Less(a.host.name, b.host.name) else a.host.id < b.host.id
    else a.score > b.score
  }

  /** It is a strict total order on candidates that differ in score, id or name. */
  lemma BeforeIsTotal(a: ScoredHost, b: ScoredHost)
    ensures !(Before(a, b) && Before(b, a))
    ensures !Before(a, b) && !Before(b, a)
       <==> a.score == b.score && a.host.id == b.host.id && a.host.name == b.host.name
  {
    LessIsTotal(a.host.name, b.host.name);
  }

  lemma BeforeIsTransitive(a: ScoredHost, b: ScoredHost, c: ScoredHost)
    requires !Before(b, a) && !Before(c, b)
    ensures !Before(c, a)
  {
    LessIsTotal(a.host.name, b.host.name);
    LessIsTotal(b.host.name, c.host.name);
    LessIsTotal(a.host.name, c.host.name);
    if Less(a.host.name, b.host.name) && Less(b.host.name, c.host.name) {
      LessIsTransitive(a.host.name, b.host.name, c.host.name);
    }
  }

  ghost predicate IsSorted(candidates: seq<ScoredHost>) {
    forall i, j :: 0 <= i < j < |candidates| ==> !Before(candidates[j], candidates[i])
  }

  // ---------------------------------------------------------------- the selection

  /** The candidates of a listing, in its order. */
  function Candidates(config: PlacementConfig, request: PlacementRequest, hypervisor: string, tags: seq<string>,
                      hosts: seq<HostInfo>)
    : seq<ScoredHost>
  {
    if hosts == [] then []
    else
      var last := hosts[|hosts| - 1];
      Candidates(config, request, hypervisor, tags, hosts[..|hosts| - 1])
      + if !IsEligible(config, request, hypervisor, tags, last) then []
        else [ScoredHost(last, Score(config, hypervisor, last))]
  }

  lemma {:induction false} CandidatesAreEligible(config: PlacementConfig, request: PlacementRequest,
                                                 hypervisor: string, tags: seq<string>, hosts: seq<HostInfo>,
                                                 c: ScoredHost)
    ensures c in Candidates(config, request, hypervisor, tags, hosts)
       <==> && c.host in hosts && IsEligible(config, request, hypervisor, tags, c.host)
            && c.score == Score(config, hypervisor, c.host)
  {
    if hosts == [] {
    } else {
      CandidatesAreEligible(config, request, hypervisor, tags, hosts[..|hosts| - 1], c);
      hide IsEligible, Score;
      assert hosts == hosts[..|hosts| - 1] + [hosts[|hosts| - 1]];
    }
  }

  /** Puts a candidate behind all that it does not come before: the step of a stable insertion. */
  method Insert(sorted: seq<ScoredHost>, c: ScoredHost) returns (r: seq<ScoredHost>)
    requires IsSorted(sorted)
    ensures IsSorted(r) && multiset(r) == multiset(sorted) + multiset{c}
  {
    var k := |sorted|;
    while k > 0 && Before(c, sorted[k - 1])
      invariant 0 <= k <= |sorted|
      invariant forall j :: k <= j < |sorted| ==> Before(c, sorted[j])
    {
      k := k - 1;
    }
    r := sorted[..k] + [c] + sorted[k..];
    assert sorted == sorted[..k] + sorted[k..];
    InsertedIsSorted(sorted, c, k);
  }

  lemma InsertedIsSorted(sorted: seq<ScoredHost>, c: ScoredHost, k: nat)
    requires IsSorted(sorted) && k <= |sorted|
    requires k > 0 ==> !Before(c, sorted[k - 1])
    requires forall j :: k <= j < |sorted| ==> Before(c, sorted[j])
    ensures IsSorted(sorted[..k] + [c] + sorted[k..])
  {
    hide Before;
    var r := sorted[..k] + [c] + sorted[k..];
    forall i | 0 <= i < k ensures !Before(c, sorted[i]) {
      if i < k - 1 {
        BeforeIsTransitive(sorted[i], sorted[k - 1], c);
      }
    }
    forall j | k <= j < |sorted| ensures !Before(sorted[j], c) {
      BeforeIsTotal(c, sorted[j]);
    }
    forall i, j | 0 <= i < j < |r| ensures !Before(r[j], r[i]) {
      var i', j' := if i < k then i else i - 1, if j < k then j else j - 1;
      assert i != k ==> r[i] == sorted[i'];
      assert j != k ==> r[j] == sorted[j'];
    }
  }

  /** A stable sort of the candidates. */
  method SortCandidates(candidates: seq<ScoredHost>) returns (r: seq<ScoredHost>)
    ensures IsSorted(r) && multiset(r) == multiset(candidates)
  {
    r := [];
    for k := 0 to |candidates|
      invariant IsSorted(r) && multiset(r) == multiset(candidates[..k])
    {
      r := Insert(r, candidates[k]);
      assert candidates[..k + 1] == candidates[..k] + [candidates[k]];
    }
    assert candidates[..|candidates|] == candidates;
  }

  /** The chosen host passes every filter and no candidate comes before it. */
  ghost predicate IsSelection(config: PlacementConfig, request: PlacementRequest, hypervisor: string,
                              hosts: seq<HostInfo>, selected: HostInfo) {
    var tags := EffectiveRequiredHostTags(request, hosts);
    && selected in hosts && IsEligible(config, request, hypervisor, tags, selected)
    && forall h :: h in hosts && IsEligible(config, request, hypervisor, tags, h) ==>
         !Before(ScoredHost(h, Score(config, hypervisor, h)), ScoredHost(selected, Score(config, hypervisor, selected)))
  }

  /** No eligible host scores higher than the chosen one; of those that score the same it has the lowest id. */
  lemma {:induction false} SelectedIsBest(config: PlacementConfig, request: PlacementRequest, hypervisor: string,
                                          hosts: seq<HostInfo>, selected: HostInfo, h: HostInfo)
    requires IsSelection(config, request, hypervisor, hosts, selected)
    requires h in hosts && IsEligible(config, request, hypervisor, EffectiveRequiredHostTags(request, hosts), h)
    ensures Score(config, hypervisor, h) <= Score(config, hypervisor, selected)
    ensures Score(config, hypervisor, h) == Score(config, hypervisor, selected) ==>
      selected.id < h.id || (selected.id == h.id && !Less(h.name, selected.name))
  {
    hide Score, IsEligible, EffectiveRequiredHostTags;
  }

  /** A host is never chosen while another that differs in nothing but more free cpu is eligible; so for memory. */
  lemma {:induction false} FullerIsNotSelected(config: PlacementConfig, request: PlacementRequest, hypervisor: string,
                                               hosts: seq<HostInfo>, a: HostInfo, b: HostInfo)
    requires a in hosts && IsEligible(config, request, hypervisor, EffectiveRequiredHostTags(request, hosts), a)
    requires || (AlikeButFor(a, b, true, false, false) && a.cpuUsed < b.cpuUsed && a.cpuUsed < a.cpuTotal
                 && 0 < a.cpuTotal && config.scoring.cpuHeadroomWeight > 0.0)
             || (AlikeButFor(a, b, false, true, false) && a.memoryUsedMiB < b.memoryUsedMiB
                 && a.memoryUsedMiB < a.memoryTotalMiB && 0 < a.memoryTotalMiB
                 && config.scoring.memoryHeadroomWeight > 0.0)
             || (AlikeButFor(a, b, false, false, true) && a.runningVMs < b.runningVMs
                 && config.scoring.vmCountWeight > 0.0)
    ensures !IsSelection(config, request, hypervisor, hosts, b)
  {
    hide Score, IsEligible, EffectiveRequiredHostTags;
    if a.cpuUsed < b.cpuUsed && AlikeButFor(a, b, true, false, false) && a.cpuUsed < a.cpuTotal
       && config.scoring.cpuHeadroomWeight > 0.0 {
      FreerCpuScoresMore(config, hypervisor, a, b);
    } else if a.memoryUsedMiB < b.memoryUsedMiB {
      FreerMemoryScoresMore(config, hypervisor, a, b);
    } else {
      VmsCost(config, hypervisor, a, b);
      Positive((b.runningVMs - a.runningVMs) as real, config.scoring.vmCountWeight);
    }
  }

  lemma Positive(x: real, y: real)
    requires x > 0.0 && y > 0.0
    ensures x * y > 0.0
  {
  }

  /** The filters, one by one. */
  lemma {:induction false} EligibleExactly(config: PlacementConfig, request: PlacementRequest, hypervisor: string,
                                           hosts: seq<HostInfo>, h: HostInfo)
    ensures IsEligible(config, request, hypervisor, EffectiveRequiredHostTags(request, hosts), h) <==>
      && h.enabled && h.schedulable
      && (request.cluster == "" || EqualFold(h.clusterName, request.cluster))
      && (request.host == "" || EqualFold(h.name, request.host))
      && (hypervisor == "" || EqualFold(h.hypervisor, hypervisor))
      && (request.networkZone == "" || config.hostInNetworkZone(request.networkZone, h.name))
      && (forall tag :: tag in request.requiredHostTags ==> tag in h.tags)
      && (forall tag :: tag in request.excludedHostTags ==> tag !in h.tags)
      && var storageTag := TrimSpace(request.storageProfile);
         (storageTag != "" && storageTag != "any" && (exists other :: other in hosts && storageTag in other.tags) ==>
            storageTag in h.tags)
  {
    hide EqualFold, TrimSpace;
    var tags := EffectiveRequiredHostTags(request, hosts);
    var storageTag := TrimSpace(request.storageProfile);
    assert (exists k :: 0 <= k < |hosts| && hosts[k].HasTag(storageTag)) <==>
      exists other :: other in hosts && storageTag in other.tags by {
      if other :| other in hosts && storageTag in other.tags {
        var k :| 0 <= k < |hosts| && hosts[k] == other;
        assert hosts[k].HasTag(storageTag);
      }
    }
    TagsMatch(h, tags, request.excludedHostTags);
  }

  lemma TagsMatch(host: HostInfo, requiredTags: seq<string>, excludedTags: seq<string>)
    ensures HostMatchesTags(host, requiredTags, excludedTags) <==>
      && (forall tag :: tag in requiredTags ==> tag in host.tags)
      && (forall tag :: tag in excludedTags ==> tag !in host.tags)
  {
  }

  method SelectPlacement(config: PlacementConfig, request: PlacementRequest, hypervisor: string,
                         listing: Result<seq<HostInfo>, ErrorClass>)
    returns (r: Result<PlacementDecision, ErrorClass>)
    ensures listing.Failure? ==> r == Failure(listing.error)
    ensures listing.Success? ==>
      var hosts := listing.value;
      var tags := EffectiveRequiredHostTags(request, hosts);
      && (r.Failure? <==> forall h :: h in hosts ==> !IsEligible(config, request, hypervisor, tags, h))
      && (r.Failure? ==> r.error == Policy)
      && (r.Success? ==>
            && IsSelection(config, request, hypervisor, hosts, r.value.selected)
            && IsSorted(r.value.topCandidates)
            && multiset(r.value.topCandidates) == multiset(Candidates(config, request, hypervisor, tags, hosts)))
  {
    if listing.Failure? {
      return Failure(listing.error);
    }
    var hosts := listing.value;
    var requiredTags := EffectiveRequiredHostTags(request, hosts);
    hide IsEligible, Score, EffectiveRequiredHostTags, Before;
    var candidates: seq<ScoredHost> := [];
    for k := 0 to |hosts|
      invariant candidates == Candidates(config, request, hypervisor, requiredTags, hosts[..k])
    {
      var host := hosts[k];
      if IsEligible(config, request, hypervisor, requiredTags, host) {
        var score := ScoreHost(config, hypervisor, host);
        candidates := candidates + [ScoredHost(host, score)];
      }
      assert hosts[..k + 1][..k] == hosts[..k];
    }
    assert hosts[..|hosts|] == hosts;
    forall c: ScoredHost
      ensures c in candidates <==> c.host in hosts && IsEligible(config, request, hypervisor, requiredTags, c.host)
                                   && c.score == Score(config, hypervisor, c.host)
    {
      CandidatesAreEligible(config, request, hypervisor, requiredTags, hosts, c);
    }
    if |candidates| == 0 {
      assert forall h :: h in hosts ==> ScoredHost(h, Score(config, hypervisor, h)) !in candidates;
      return Failure(Policy);
    }
    var sorted := SortCandidates(candidates);
    FirstOfSorted(candidates, sorted);
    var selected := sorted[0];
    forall h | h in hosts && IsEligible(config, request, hypervisor, requiredTags, h)
      ensures !Before(ScoredHost(h, Score(config, hypervisor, h)), selected)
    {
      assert ScoredHost(h, Score(config, hypervisor, h)) in candidates;
    }
    assert selected in candidates;
    r := Success(PlacementDecision(selected.host, sorted));
  }

  lemma FirstOfSorted(candidates: seq<ScoredHost>, sorted: seq<ScoredHost>)
    requires |candidates| > 0 && IsSorted(sorted) && multiset(sorted) == multiset(candidates)
    ensures |sorted| > 0 && sorted[0] in candidates
    ensures forall c :: c in candidates ==> !Before(c, sorted[0])
  {
    assert candidates[0] in multiset(candidates);
    assert |sorted| > 0;
    assert sorted[0] in multiset(sorted);
    forall c | c in candidates ensures !Before(c, sorted[0]) {
      assert c in multiset(sorted);
      var k :| 0 <= k < |sorted| && sorted[k] == c;
      if k == 0 {
        BeforeIsTotal(c, c);
      }
    }
  }

  /** Listings with the same hosts, in whatever order, have the same selection. */
  lemma SelectionIgnoresOrder(config: PlacementConfig, request: PlacementRequest, hypervisor: string,
                              hosts: seq<HostInfo>, hosts': seq<HostInfo>, selected: HostInfo, selected': HostInfo)
    requires forall h :: h in hosts <==> h in hosts'
    requires forall h, h' :: h in hosts && h' in hosts && h.id == h'.id && h.name == h'.name ==> h == h'
    requires IsSelection(config, request, hypervisor, hosts, selected)
    requires IsSelection(config, request, hypervisor, hosts', selected')
    ensures selected == selected'
  {
    SameHostsSameTags(request, hosts, hosts');
    hide IsEligible, Score, Before, EffectiveRequiredHostTags;
    BeforeIsTotal(ScoredHost(selected, Score(config, hypervisor, selected)),
                  ScoredHost(selected', Score(config, hypervisor, selected')));
  }

  lemma SameHostsSameTags(request: PlacementRequest, hosts: seq<HostInfo>, hosts': seq<HostInfo>)
    requires forall h :: h in hosts <==> h in hosts'
    ensures EffectiveRequiredHostTags(request, hosts) == EffectiveRequiredHostTags(request, hosts')
  {
    var storageTag := TrimSpace(request.storageProfile);
    assert (exists k :: 0 <= k < |hosts| && hosts[k].HasTag(storageTag)) <==>
      exists h :: h in hosts && h.HasTag(storageTag);
    assert (exists k :: 0 <= k < |hosts'| && hosts'[k].HasTag(storageTag)) <==>
      exists h :: h in hosts' && h.HasTag(storageTag);
  }

  /**
   A storage profile asked for is honoured as far as the inventory goes: if any host carries its tag,
   so does the chosen one, beside all required tags and none of the excluded.
   */
  lemma SelectedHostFits(config: PlacementConfig, request: PlacementRequest, hypervisor: string, hosts: seq<HostInfo>,
                         selected: HostInfo, tag: string)
    requires IsSelection(config, request, hypervisor, hosts, selected)
    ensures tag in request.requiredHostTags ==> selected.HasTag(tag)
    ensures tag in request.excludedHostTags ==> !selected.HasTag(tag)
    ensures tag == TrimSpace(request.storageProfile) && tag != "" && tag != STORAGE_PROFILE_ANY ==>
      (exists h :: h in hosts && h.HasTag(tag)) ==> selected.HasTag(tag)
  {
    var tags := EffectiveRequiredHostTags(request, hosts);
    assert HostMatchesTags(selected, tags, request.excludedHostTags);
    hide Before, Score;
    if h :| h in hosts && h.HasTag(tag) {
      var k :| 0 <= k < |hosts| && hosts[k] == h;
      assert hosts[k].HasTag(tag);
      if tag == TrimSpace(request.storageProfile) && tag != "" && tag != STORAGE_PROFILE_ANY {
        assert tags == request.requiredHostTags + [tag];
        assert tags[|tags| - 1] == tag;
      }
    }
    if tag in request.requiredHostTags {
      var k :| 0 <= k < |request.requiredHostTags| && request.requiredHostTags[k] == tag;
      assert tags[k] == tag;
    }
  }
}

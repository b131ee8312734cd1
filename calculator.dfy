/** The PHP-FPM pool sizing calculator (internal/calculator/calculator.go): from total memory,
    CPU cores, the measured per-process memory and the options it derives a `Config` whose
    process counts are bounded, plus warnings and recommendations. */
module Calculator {
  import opened Wrappers
  import opened Numeric
  import System
  import Php

  /** The process manager type, an enum of three names in the source. */
  datatype PMType = Static | Dynamic | OnDemand
  {
    /** The name written to `pm = …` in the pool file. */
    function Name(): (s: string)
      ensures |s| > 0
    {
      match this
      case Static => "static"
      case Dynamic => "dynamic"
      case OnDemand => "ondemand"
    }
  }

  /** The expected traffic level. */
  datatype TrafficProfile = Low | Medium | High

  /** Calculation options; for the numbers, a value that is not positive means "derive it",
      and `PMType` is `None` for the empty string (auto-select). */
  datatype Options = Options(
    ReservedMemoryMB: int,
    ProcessMemoryMB: real,
    TrafficProfile: TrafficProfile,
    PMType: Option<PMType>)

  /** `DefaultOptions`: derive every figure, medium traffic, automatic PM type. */
  const DefaultOptions := Options(0, 0.0, Medium, None)

  /** The list holding `x` when `c` holds and nothing otherwise: one conditional `append`. */
  function When(c: bool, x: string): (r: seq<string>)
    ensures |r| == (if c then 1 else 0)
    ensures x in r <==> c
    ensures forall i :: 0 <= i < |r| ==> r[i] == x
  {
    if c then [x] else []
  }

  // ---------------------------------------------------------------------------------------------
  // Warnings and recommendations

  const LowMemoryWarning := "Very low available memory, using minimum of 256MB"
  const EstimateWarning := "Could not detect PHP process memory, using 64MB estimate"
  const MinChildrenWarning := "max_children increased to minimum of 5"
  const MaxChildrenWarning := "max_children capped at 1000"

  const StaticAdvice := "Static PM keeps all workers running. Best for high-traffic, dedicated PHP servers."
  const OnDemandAdvice := "Ondemand PM spawns workers only when needed. Best for low-traffic or shared hosting."
  const DynamicAdvice := "Dynamic PM balances memory usage and response time. Good for most use cases."
  const LowMemoryAdvice := "Consider using 'ondemand' PM on low-memory systems to conserve resources."
  const HighChildrenAdvice := "High max_children value. Monitor for diminishing returns due to context switching."
  const MaxRequestsAdvice := "Set pm.max_requests to prevent memory leaks from accumulating over time."
  const PoolsAdvice := "Consider separate pools for frontend/backend with different PM configurations."

  /** The recommendation describing a PM type. */
  function PMAdvice(pm: PMType): string
  {
    match pm
    case Static => StaticAdvice
    case OnDemand => OnDemandAdvice
    case Dynamic => DynamicAdvice
  }

  // ---------------------------------------------------------------------------------------------
  // The derived figures

  /** `determineProcessMemory`: the override if positive, else the measured average if positive,
      else half the PHP `memory_limit` (in MB) if positive, else 0 (which selects the fallback). */
  function DetermineProcessMemory(phpInfo: Option<Php.ProcessInfo>, opts: Options, memoryLimit: Option<int>): real
  {
    if opts.ProcessMemoryMB > 0.0 then opts.ProcessMemoryMB
    else if phpInfo.Some? && phpInfo.value.AvgMemoryMB > 0.0 then phpInfo.value.AvgMemoryMB
    else if memoryLimit.Some? && memoryLimit.value > 0 then memoryLimit.value as real / 2.0
    else 0.0
  }

  /** The process size is never negative; it is positive exactly when one of the three sources
      is; a positive override always wins, then a positive average, and otherwise a positive
      result is half the memory limit. */
  lemma ProcessMemoryTiers(phpInfo: Option<Php.ProcessInfo>, opts: Options, memoryLimit: Option<int>)
    ensures var r := DetermineProcessMemory(phpInfo, opts, memoryLimit);
      && r >= 0.0
      && (opts.ProcessMemoryMB > 0.0 ==> r == opts.ProcessMemoryMB)
      && (opts.ProcessMemoryMB <= 0.0 && phpInfo.Some? && phpInfo.value.AvgMemoryMB > 0.0 ==>
          r == phpInfo.value.AvgMemoryMB)
      && (r > 0.0 <==>
          opts.ProcessMemoryMB > 0.0 || (phpInfo.Some? && phpInfo.value.AvgMemoryMB > 0.0)
          || (memoryLimit.Some? && memoryLimit.value > 0))
      && (r > 0.0 && r != opts.ProcessMemoryMB && !(phpInfo.Some? && r == phpInfo.value.AvgMemoryMB) ==>
          memoryLimit.Some? && r * 2.0 == memoryLimit.value as real)
  {
  }

  /** `determineReservedMemory`: a positive override as given; otherwise 512 MB for the
      operating system plus 15% of total memory (truncated), at most 4096 MB. */
  function DetermineReservedMemory(totalMB: int, opts: Options): int
  {
    if opts.ReservedMemoryMB > 0 then opts.ReservedMemoryMB
    else
      var reserved := 512 + TruncDiv(totalMB * 15, 100);
      if reserved > 4096 then 4096 else reserved
  }

  /** A positive override is used unchanged. The default keeps 512 MB plus the whole megabytes of
      15% of total memory, lies in [512, 4096] for a non-negative total, and reaches the 4096 MB
      cap exactly from 23894 MB of total memory on. */
  lemma ReservedMemoryRule(totalMB: int, opts: Options)
    ensures var r := DetermineReservedMemory(totalMB, opts);
      && (opts.ReservedMemoryMB > 0 ==> r == opts.ReservedMemoryMB)
      && (opts.ReservedMemoryMB <= 0 && totalMB >= 0 ==> 512 <= r <= 4096)
      && (opts.ReservedMemoryMB <= 0 ==> (r == 4096 <==> totalMB >= 23894))
      && (opts.ReservedMemoryMB <= 0 && 0 <= totalMB < 23894 ==>
          (r - 512) * 100 <= totalMB * 15 < (r - 512 + 1) * 100)
  {
    if opts.ReservedMemoryMB <= 0 {
      if totalMB < 23894 {
        TruncDivMonotone(totalMB * 15, 23893 * 15, 100);
      } else {
        TruncDivMonotone(23894 * 15, totalMB * 15, 100);
      }
    }
  }

  /** More memory never means less reserved. */
  lemma ReservedMemoryMonotone(totalMB: int, totalMB': int, opts: Options)
    requires totalMB <= totalMB'
    ensures DetermineReservedMemory(totalMB, opts) <= DetermineReservedMemory(totalMB', opts)
  {
    TruncDivMonotone(totalMB * 15, totalMB' * 15, 100);
  }

  /** `determinePMType`: the override when there is one, else by traffic: low → ondemand,
      high → static, medium → dynamic. */
  function DeterminePMType(opts: Options): PMType
  {
    match opts.PMType
    case Some(pm) => pm
    case None =>
      match opts.TrafficProfile
      case Low => OnDemand
      case High => Static
      case Medium => Dynamic
  }

  /** The override wins; without one, ondemand is chosen exactly for low traffic and static
      exactly for high traffic. */
  lemma PMTypeRule(opts: Options)
    ensures opts.PMType.Some? ==> DeterminePMType(opts) == opts.PMType.value
    ensures opts.PMType.None? ==> (DeterminePMType(opts) == OnDemand <==> opts.TrafficProfile == Low)
    ensures opts.PMType.None? ==> (DeterminePMType(opts) == Static <==> opts.TrafficProfile == High)
  {
  }

  /** Memory left to the pool: total minus reserved, but never below 256 MB. */
  function AvailableMemory(totalMB: int, reservedMB: int): int
  {
    var available := totalMB - reservedMB;
    if available < 256 then 256 else available
  }

  /** The available memory is `max(total - reserved, 256)`. */
  lemma AvailableMemoryFloor(totalMB: int, reservedMB: int)
    ensures var r := AvailableMemory(totalMB, reservedMB);
      r >= 256 && r >= totalMB - reservedMB && (r == totalMB - reservedMB || r == 256)
  {
  }

  /** `max_children` before the bounds: available memory over the process size, floored, with
      64 MB standing in for an unknown (non-positive) process size. */
  function ChildrenByMemory(availableMB: int, processMB: real): int
  {
    if processMB > 0.0 then (availableMB as real / processMB).Floor
    else (availableMB as real / 64.0).Floor
  }

  /** The memory bound is the largest number of processes of the given size (or of 64 MB) that
      fit in the available memory. */
  lemma ChildrenByMemoryFits(availableMB: int, processMB: real)
    ensures var n := ChildrenByMemory(availableMB, processMB);
      && (availableMB >= 0 && processMB > 0.0 ==> n >= 0)
      && (processMB > 0.0 ==> n as real * processMB <= availableMB as real < (n + 1) as real * processMB)
      && (processMB <= 0.0 ==> n * 64 <= availableMB < (n + 1) * 64)
  {
    if processMB > 0.0 {
      QuotientFloor(availableMB as real, processMB);
    } else {
      QuotientFloor(availableMB as real, 64.0);
    }
  }

  lemma QuotientFloor(a: real, b: real)
    requires b > 0.0
    ensures (a / b).Floor as real * b <= a < ((a / b).Floor + 1) as real * b
    ensures a >= 0.0 ==> (a / b).Floor >= 0
  {
    var q := a / b;
    var f := q.Floor;
    assert q * b == a;
    assert f as real <= q < f as real + 1.0;
    MulRealMonotone(f as real, q, b);
    MulRealStrict(q, f as real + 1.0, b);
    assert a < (f as real + 1.0) * b;
    if a >= 0.0 && q < 0.0 {
      MulRealStrict(q, 0.0, b);
    }
  }

  lemma MulRealMonotone(x: real, y: real, b: real)
    requires x <= y && b > 0.0
    ensures x * b <= y * b
  {
  }

  lemma MulRealStrict(x: real, y: real, b: real)
    requires x < y && b > 0.0
    ensures x * b < y * b
  {
  }

  /** `max_children`: the memory bound clamped to [5, 1000]. */
  function MaxChildren(availableMB: int, processMB: real): (n: int)
    ensures 5 <= n <= 1000
  {
    var n := ChildrenByMemory(availableMB, processMB);
    if n < 5 then 5 else if n > 1000 then 1000 else n
  }

  /** Within the bounds the memory bound is kept; below it 5 is used and above it 1000. */
  lemma MaxChildrenClamp(availableMB: int, processMB: real)
    ensures var c := ChildrenByMemory(availableMB, processMB);
      var n := MaxChildren(availableMB, processMB);
      && (5 <= c <= 1000 ==> n == c)
      && (c < 5 ==> n == 5)
      && (c > 1000 ==> n == 1000)
  {
  }

  /** `pm.start_servers`: four per core, at most `max_children`. */
  function StartServers(cores: int, maxChildren: int): int
  {
    Min(cores * 4, maxChildren)
  }

  /** `pm.min_spare_servers`: two per core, halved `max_children` when that is exceeded, and at
      most the start servers. */
  function MinSpareServers(cores: int, maxChildren: int): int
  {
    Min(if cores * 2 > maxChildren then maxChildren / 2 else cores * 2, StartServers(cores, maxChildren))
  }

  /** `pm.process_idle_timeout` by traffic. */
  function IdleTimeout(traffic: TrafficProfile): string
  {
    match traffic
    case Low => "10s"
    case High => "3s"
    case Medium => "5s"
  }

  /** The warnings of the `max_children` step, in order. */
  function ChildrenWarnings(availableMB: int, processMB: real): seq<string>
  {
    var children := ChildrenByMemory(availableMB, processMB);
    When(processMB <= 0.0, EstimateWarning)
    + When(children < 5, MinChildrenWarning)
    + When(children > 1000, MaxChildrenWarning)
  }

  /** The warnings `Calculate` appends, in order. */
  function Warnings(totalMB: int, reservedMB: int, processMB: real): seq<string>
  {
    When(totalMB - reservedMB < 256, LowMemoryWarning)
    + ChildrenWarnings(AvailableMemory(totalMB, reservedMB), processMB)
  }

  /** The recommendations `addRecommendations` appends, in order. */
  function Recommendations(pm: PMType, totalMB: int, maxChildren: int): seq<string>
  {
    [PMAdvice(pm)]
    + When(totalMB < 2048, LowMemoryAdvice)
    + When(maxChildren > 100, HighChildrenAdvice)
    + [MaxRequestsAdvice, PoolsAdvice]
  }

  // ---------------------------------------------------------------------------------------------
  // The configuration object

  /** The calculated pool configuration; `Calculate` fills it field by field. */
  class Config {
    var PM: PMType
    var MaxChildren: int
    var StartServers: int
    var MinSpareServers: int
    var MaxSpareServers: int
    var MaxRequests: int
    var ProcessIdleTimeout: string
    var ReservedMemoryMB: int
    var AvailableMemoryMB: int
    var ProcessMemoryMB: real
    var Warnings: seq<string>
    var Recommendations: seq<string>

    /** The configuration with the given figures and warnings and no recommendations yet. */
    constructor (pm: PMType, maxChildren: int, startServers: int, minSpareServers: int, maxSpareServers: int,
                 maxRequests: int, idleTimeout: string, reservedMB: int, availableMB: int, processMB: real,
                 warnings: seq<string>)
      ensures PM == pm && MaxChildren == maxChildren
      ensures StartServers == startServers && MinSpareServers == minSpareServers && MaxSpareServers == maxSpareServers
      ensures MaxRequests == maxRequests && ProcessIdleTimeout == idleTimeout
      ensures ReservedMemoryMB == reservedMB && AvailableMemoryMB == availableMB && ProcessMemoryMB == processMB
      ensures Warnings == warnings && Recommendations == []
    {
      PM, MaxChildren := pm, maxChildren;
      StartServers, MinSpareServers, MaxSpareServers := startServers, minSpareServers, maxSpareServers;
      MaxRequests, ProcessIdleTimeout := maxRequests, idleTimeout;
      ReservedMemoryMB, AvailableMemoryMB, ProcessMemoryMB := reservedMB, availableMB, processMB;
      Warnings, Recommendations := warnings, [];
    }
  }

  /** `addRecommendations`: appends the PM-type advice, the low-memory and high-children advice
      when they apply, and the two generic items; no other field changes. */
  method AddRecommendations(cfg: Config, sysInfo: System.Info)
    modifies cfg
    ensures cfg.Recommendations == old(cfg.Recommendations) + Recommendations(cfg.PM, sysInfo.MemTotalMB, cfg.MaxChildren)
    ensures cfg.PM == old(cfg.PM) && cfg.MaxChildren == old(cfg.MaxChildren)
    ensures cfg.StartServers == old(cfg.StartServers) && cfg.MinSpareServers == old(cfg.MinSpareServers)
    ensures cfg.MaxSpareServers == old(cfg.MaxSpareServers) && cfg.MaxRequests == old(cfg.MaxRequests)
    ensures cfg.ProcessIdleTimeout == old(cfg.ProcessIdleTimeout)
    ensures cfg.ReservedMemoryMB == old(cfg.ReservedMemoryMB) && cfg.AvailableMemoryMB == old(cfg.AvailableMemoryMB)
    ensures cfg.ProcessMemoryMB == old(cfg.ProcessMemoryMB) && cfg.Warnings == old(cfg.Warnings)
  {
    var recommendations := cfg.Recommendations;
    if cfg.PM == Static {
      recommendations := recommendations + [StaticAdvice];
    }
    if cfg.PM == OnDemand {
      recommendations := recommendations + [OnDemandAdvice];
    }
    if cfg.PM == Dynamic {
      recommendations := recommendations + [DynamicAdvice];
    }
    ghost var advice := [PMAdvice(cfg.PM)];
    assert recommendations == old(cfg.Recommendations) + advice;
    if sysInfo.MemTotalMB < 2048 {
      recommendations := recommendations + [LowMemoryAdvice];
    }
    advice := advice + When(sysInfo.MemTotalMB < 2048, LowMemoryAdvice);
    assert recommendations == old(cfg.Recommendations) + advice;
    if cfg.MaxChildren > 100 {
      recommendations := recommendations + [HighChildrenAdvice];
    }
    advice := advice + When(cfg.MaxChildren > 100, HighChildrenAdvice);
    assert recommendations == old(cfg.Recommendations) + advice;
    recommendations := recommendations + [MaxRequestsAdvice];
    recommendations := recommendations + [PoolsAdvice];
    assert recommendations == old(cfg.Recommendations) + (advice + [MaxRequestsAdvice, PoolsAdvice]);
    cfg.Recommendations := recommendations;
  }

  /** The `max_children` step of `Calculate`: the memory bound, the 64 MB fallback and the
      two clamps, with the warnings they append. */
  method SizeChildren(availableMB: int, processMB: real) returns (maxChildren: int, warnings: seq<string>)
    ensures maxChildren == MaxChildren(availableMB, processMB)
    ensures warnings == ChildrenWarnings(availableMB, processMB)
  {
    warnings := [];
    if processMB > 0.0 {
      maxChildren := (availableMB as real / processMB).Floor;
    } else {
      maxChildren := (availableMB as real / 64.0).Floor;
      warnings := warnings + [EstimateWarning];
    }
    assert maxChildren == ChildrenByMemory(availableMB, processMB);
    assert warnings == When(processMB <= 0.0, EstimateWarning);
    if maxChildren < 5 {
      maxChildren := 5;
      warnings := warnings + [MinChildrenWarning];
    }
    if maxChildren > 1000 {
      maxChildren := 1000;
      warnings := warnings + [MaxChildrenWarning];
    }
  }

  /** The spare-server step of `Calculate`: four start and maximum spare servers and two minimum
      spare servers per core, cut down to `max_children` and then to each other. */
  method SizeSpareServers(cores: int, maxChildren: int) returns (startServers: int, minSpareServers: int, maxSpareServers: int)
    ensures startServers == StartServers(cores, maxChildren)
    ensures minSpareServers == MinSpareServers(cores, maxChildren)
    ensures maxSpareServers == startServers
    ensures cores >= 0 && maxChildren >= 5 ==>
      0 <= minSpareServers <= startServers <= maxSpareServers <= maxChildren
  {
    startServers := cores * 4;
    minSpareServers := cores * 2;
    maxSpareServers := cores * 4;

    if startServers > maxChildren {
      startServers := maxChildren;
    }
    if minSpareServers > maxChildren {
      minSpareServers := maxChildren / 2;
    }
    if maxSpareServers > maxChildren {
      maxSpareServers := maxChildren;
    }

    if minSpareServers > startServers {
      minSpareServers := startServers;
    }
    if maxSpareServers < startServers {
      maxSpareServers := startServers;
    }
    if cores >= 0 && maxChildren >= 5 {
      SpareServersOrdered(cores, maxChildren);
    }
  }

  /** `Calculate`: the configuration for a host. `memoryLimit` is the result of querying PHP's
      `memory_limit` in MB (`None` when the query fails). */
  method Calculate(sysInfo: System.Info, phpInfo: Option<Php.ProcessInfo>, opts: Options, memoryLimit: Option<int>)
    returns (cfg: Config)
    ensures fresh(cfg)
    ensures cfg.ProcessMemoryMB == DetermineProcessMemory(phpInfo, opts, memoryLimit)
    ensures cfg.ReservedMemoryMB == DetermineReservedMemory(sysInfo.MemTotalMB, opts)
    ensures cfg.AvailableMemoryMB == AvailableMemory(sysInfo.MemTotalMB, cfg.ReservedMemoryMB)
    ensures cfg.PM == DeterminePMType(opts)
    ensures cfg.MaxChildren == MaxChildren(cfg.AvailableMemoryMB, cfg.ProcessMemoryMB)
    ensures cfg.StartServers == StartServers(sysInfo.CPUCores, cfg.MaxChildren)
    ensures cfg.MinSpareServers == MinSpareServers(sysInfo.CPUCores, cfg.MaxChildren)
    ensures cfg.MaxSpareServers == cfg.StartServers
    ensures cfg.ProcessIdleTimeout == IdleTimeout(opts.TrafficProfile)
    ensures cfg.MaxRequests == 500
    ensures cfg.Warnings == Warnings(sysInfo.MemTotalMB, cfg.ReservedMemoryMB, cfg.ProcessMemoryMB)
    ensures cfg.Recommendations == Recommendations(cfg.PM, sysInfo.MemTotalMB, cfg.MaxChildren)
    ensures 5 <= cfg.MaxChildren <= 1000
    ensures sysInfo.CPUCores >= 0 ==>
      0 <= cfg.MinSpareServers <= cfg.StartServers <= cfg.MaxSpareServers <= cfg.MaxChildren
  {
    var processMB := DetermineProcessMemory(phpInfo, opts, memoryLimit);
    var reservedMB := DetermineReservedMemory(sysInfo.MemTotalMB, opts);
    var warnings: seq<string> := [];

    var availableMB := sysInfo.MemTotalMB - reservedMB;
    if availableMB < 256 {
      availableMB := 256;
      warnings := warnings + [LowMemoryWarning];
    }
    assert availableMB == AvailableMemory(sysInfo.MemTotalMB, reservedMB);
    assert warnings == When(sysInfo.MemTotalMB - reservedMB < 256, LowMemoryWarning);

    var pm := DeterminePMType(opts);

    var maxChildren, childWarnings := SizeChildren(availableMB, processMB);
    warnings := warnings + childWarnings;

    var startServers, minSpareServers, maxSpareServers := SizeSpareServers(sysInfo.CPUCores, maxChildren);

    var idleTimeout;
    match opts.TrafficProfile {
      case Low => idleTimeout := "10s";
      case High => idleTimeout := "3s";
      case Medium => idleTimeout := "5s";
    }

    cfg := new Config(pm, maxChildren, startServers, minSpareServers, maxSpareServers, 500, idleTimeout,
                      reservedMB, availableMB, processMB, warnings);
    AddRecommendations(cfg, sysInfo);
  }

  // ---------------------------------------------------------------------------------------------
  // Properties

  /** With a non-negative core count the spare settings are ordered
      `0 <= min_spare <= start <= max_children`, and at least one spare server
      is kept when there is a core. */
  lemma SpareServersOrdered(cores: int, maxChildren: int)
    requires cores >= 0 && maxChildren >= 5
    ensures 0 <= MinSpareServers(cores, maxChildren) <= StartServers(cores, maxChildren) <= maxChildren
    ensures cores >= 1 ==> MinSpareServers(cores, maxChildren) >= 1
  {
  }

  /** Each warning is present exactly when its clamp or fallback fired. */
  lemma WarningsExact(totalMB: int, reservedMB: int, processMB: real)
    ensures var w := Warnings(totalMB, reservedMB, processMB);
      var children := ChildrenByMemory(AvailableMemory(totalMB, reservedMB), processMB);
      && (LowMemoryWarning in w <==> totalMB - reservedMB < 256)
      && (EstimateWarning in w <==> processMB <= 0.0)
      && (MinChildrenWarning in w <==> children < 5)
      && (MaxChildrenWarning in w <==> children > 1000)
      && |w| <= 4
  {
  }

  /** The recommendations: exactly one PM-type item and it comes first, the low-memory item
      exactly when total memory is under 2048 MB, the high-children item exactly when
      `max_children` exceeds 100, and the two generic items last. */
  lemma RecommendationsShape(pm: PMType, totalMB: int, maxChildren: int)
    ensures var r := Recommendations(pm, totalMB, maxChildren);
      && |r| >= 3
      && r[0] == PMAdvice(pm)
      && (forall i :: 1 <= i < |r| ==> r[i] !in {StaticAdvice, OnDemandAdvice, DynamicAdvice})
      && (LowMemoryAdvice in r <==> totalMB < 2048)
      && (HighChildrenAdvice in r <==> maxChildren > 100)
      && r[|r| - 2..] == [MaxRequestsAdvice, PoolsAdvice]
  {
    var r := Recommendations(pm, totalMB, maxChildren);
    var rest := When(totalMB < 2048, LowMemoryAdvice) + When(maxChildren > 100, HighChildrenAdvice)
      + [MaxRequestsAdvice, PoolsAdvice];
    assert r == [PMAdvice(pm)] + rest;
  }

  /** More available memory never lowers `max_children`. */
  lemma MaxChildrenMonotone(availableMB: int, availableMB': int, processMB: real)
    requires availableMB <= availableMB'
    ensures MaxChildren(availableMB, processMB) <= MaxChildren(availableMB', processMB)
  {
    var d := if processMB > 0.0 then processMB else 64.0;
    FloorMonotone(availableMB as real / d, availableMB' as real / d);
  }

  /** A larger process size never raises `max_children`. */
  lemma MaxChildrenAntitone(availableMB: int, processMB: real, processMB': real)
    requires availableMB >= 0 && 0.0 < processMB <= processMB'
    ensures MaxChildren(availableMB, processMB') <= MaxChildren(availableMB, processMB)
  {
    var a := availableMB as real;
    assert a / processMB' <= a / processMB by {
      assert a / processMB' * processMB' == a;
      assert a / processMB * processMB == a;
      assert a / processMB' * processMB <= a / processMB' * processMB';
    }
    FloorMonotone(a / processMB', a / processMB);
  }

  lemma FloorMonotone(x: real, y: real)
    requires x <= y
    ensures x.Floor <= y.Floor
  {
  }

  /** A 4096 MB, four-core host with medium traffic, no overrides, no measured processes and no
      known memory limit: 1126 MB reserved, 2970 MB available, 46 dynamic children, 16 start and
      maximum spare servers, 8 minimum spare servers, and the 64 MB estimate warning. */
  lemma Scenario4096()
    ensures var processMB := DetermineProcessMemory(None, DefaultOptions, None);
      var reserved := DetermineReservedMemory(4096, DefaultOptions);
      var available := AvailableMemory(4096, reserved);
      var children := MaxChildren(available, processMB);
      && processMB == 0.0 && reserved == 1126 && available == 2970 && children == 46
      && DeterminePMType(DefaultOptions) == Dynamic
      && StartServers(4, children) == 16 && MinSpareServers(4, children) == 8
      && IdleTimeout(DefaultOptions.TrafficProfile) == "5s"
      && Warnings(4096, reserved, processMB) == [EstimateWarning]
  {
    assert (2970 as real / 64.0).Floor == 46;
  }
}

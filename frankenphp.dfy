/** The FrankenPHP thread calculator (internal/calculator/frankenphp.go): the same inputs as the
    PHP-FPM calculator, different constants, and thread counts instead of process counts. */
module FrankenPHP {
  import opened Numeric
  import System
  import Calculator

  /** Calculation options. Unlike the PHP-FPM options, an override is used whenever it is
      non-zero: only 0 means "derive it". */
  datatype Options = Options(
    ReservedMemoryMB: int,
    ThreadMemoryMB: real,
    TrafficProfile: Calculator.TrafficProfile,
    WorkerMode: bool)

  /** `DefaultFrankenPHPOptions`: derive the figures, medium traffic, worker mode on. */
  const DefaultOptions := Options(0, 0.0, Calculator.Medium, true)

  const ThreadEstimateWarning := "Using estimated 30MB per thread. Use --process-mem to override if known."
  const LowMemoryWarning := "Very low available memory, using minimum of 128MB"
  const MemoryLimitedWarning := "Thread count limited by available memory"
  const ThreadCapWarning := "num_threads capped at 1000"

  const WorkerModeAdvice := "Worker mode keeps your app in memory for faster responses."
  const EnableWorkerAdvice := "Consider enabling worker mode for significant performance gains."
  const LowMemoryAdvice := "Low memory system detected. Monitor memory usage closely."
  const SharedMemoryAdvice := "FrankenPHP threads share memory, so they're more efficient than FPM processes."
  const WatchAdvice := "Use the 'watch' directive in development for hot reloading."

  /** The memory assumed per thread: the option unless it is 0, then 30 MB. */
  function ThreadMemory(opts: Options): real
  {
    if opts.ThreadMemoryMB == 0.0 then 30.0 else opts.ThreadMemoryMB
  }

  /** Memory reserved for the system and Caddy: the option unless it is 0, then 256 MB plus 10%
      of total memory (truncated), at most 2048 MB. */
  function ReservedMemory(totalMB: int, opts: Options): int
  {
    if opts.ReservedMemoryMB == 0 then Min(256 + TruncDiv(totalMB * 10, 100), 2048)
    else opts.ReservedMemoryMB
  }

  /** Memory left to the threads: total minus reserved, never below 128 MB. */
  function AvailableMemory(totalMB: int, reservedMB: int): int
  {
    Max(totalMB - reservedMB, 128)
  }

  /** How many threads of the assumed size fit: Go's `int(available / threadMem)`, truncated
      toward zero. */
  function ThreadsByMemory(availableMB: int, threadMB: real): int
    requires threadMB != 0.0
  {
    Trunc(availableMB as real / threadMB)
  }

  /** `num_threads`: two per core or the memory bound if lower, clamped to [2, 1000]. */
  function NumThreads(cores: int, byMemory: int): (n: int)
    ensures 2 <= n <= 1000
  {
    Min(Max(Min(cores * 2, byMemory), 2), 1000)
  }

  /** `max_threads`: four per core or the memory bound if lower, but never below `num_threads`. */
  function MaxThreads(cores: int, byMemory: int): int
  {
    Max(Min(cores * 4, byMemory), NumThreads(cores, byMemory))
  }

  /** `max_wait_time` by traffic; empty (disabled) for low traffic. */
  function MaxWaitTime(traffic: Calculator.TrafficProfile): string
  {
    match traffic
    case Low => ""
    case High => "5s"
    case Medium => "10s"
  }

  /** The warnings `CalculateFrankenPHP` appends, in order. Raising the thread count to the
      minimum of 2 appends none. */
  function Warnings(opts: Options, totalMB: int, reservedMB: int, cores: int, byMemory: int): seq<string>
  {
    Calculator.When(opts.ThreadMemoryMB == 0.0, ThreadEstimateWarning)
    + Calculator.When(totalMB - reservedMB < 128, LowMemoryWarning)
    + Calculator.When(byMemory < cores * 2, MemoryLimitedWarning)
    + Calculator.When(Max(Min(cores * 2, byMemory), 2) > 1000, ThreadCapWarning)
  }

  /** The recommendations `addFrankenPHPRecommendations` appends, in order. */
  function Recommendations(workerMode: bool, totalMB: int): seq<string>
  {
    [if workerMode then WorkerModeAdvice else EnableWorkerAdvice]
    + Calculator.When(totalMB < 1024, LowMemoryAdvice)
    + [SharedMemoryAdvice, WatchAdvice]
  }

  /** The calculated FrankenPHP configuration. */
  class Config {
    var NumThreads: int
    var MaxThreads: int
    var WorkerNum: int
    var MaxWaitTime: string
    var ReservedMemoryMB: int
    var AvailableMemoryMB: int
    var ThreadMemoryMB: real
    var Warnings: seq<string>
    var Recommendations: seq<string>

    /** The configuration with the given figures and warnings and no recommendations yet. */
    constructor (numThreads: int, maxThreads: int, workerNum: int, maxWaitTime: string,
                 reservedMB: int, availableMB: int, threadMB: real, warnings: seq<string>)
      ensures NumThreads == numThreads && MaxThreads == maxThreads && WorkerNum == workerNum
      ensures MaxWaitTime == maxWaitTime && ReservedMemoryMB == reservedMB
      ensures AvailableMemoryMB == availableMB && ThreadMemoryMB == threadMB
      ensures Warnings == warnings && Recommendations == []
    {
      NumThreads, MaxThreads, WorkerNum, MaxWaitTime := numThreads, maxThreads, workerNum, maxWaitTime;
      ReservedMemoryMB, AvailableMemoryMB, ThreadMemoryMB := reservedMB, availableMB, threadMB;
      Warnings, Recommendations := warnings, [];
    }
  }

  /** `addFrankenPHPRecommendations`: appends the worker-mode item, the low-memory item when total
      memory is under 1024 MB, and the two generic items; no other field changes. */
  method AddRecommendations(cfg: Config, sysInfo: System.Info, opts: Options)
    modifies cfg
    ensures cfg.Recommendations == old(cfg.Recommendations) + Recommendations(opts.WorkerMode, sysInfo.MemTotalMB)
    ensures cfg.NumThreads == old(cfg.NumThreads) && cfg.MaxThreads == old(cfg.MaxThreads)
    ensures cfg.WorkerNum == old(cfg.WorkerNum) && cfg.MaxWaitTime == old(cfg.MaxWaitTime)
    ensures cfg.ReservedMemoryMB == old(cfg.ReservedMemoryMB) && cfg.AvailableMemoryMB == old(cfg.AvailableMemoryMB)
    ensures cfg.ThreadMemoryMB == old(cfg.ThreadMemoryMB) && cfg.Warnings == old(cfg.Warnings)
  {
    var recommendations := cfg.Recommendations;
    if opts.WorkerMode {
      recommendations := recommendations + [WorkerModeAdvice];
    } else {
      recommendations := recommendations + [EnableWorkerAdvice];
    }
    ghost var advice := [if opts.WorkerMode then WorkerModeAdvice else EnableWorkerAdvice];
    if sysInfo.MemTotalMB < 1024 {
      recommendations := recommendations + [LowMemoryAdvice];
    }
    advice := advice + Calculator.When(sysInfo.MemTotalMB < 1024, LowMemoryAdvice);
    assert recommendations == old(cfg.Recommendations) + advice;
    recommendations := recommendations + [SharedMemoryAdvice];
    recommendations := recommendations + [WatchAdvice];
    assert recommendations == old(cfg.Recommendations) + (advice + [SharedMemoryAdvice, WatchAdvice]);
    cfg.Recommendations := recommendations;
  }

  /** The thread-count step of `CalculateFrankenPHP`: two threads per core, lowered to the memory
      bound, then clamped to [2, 1000]; `max_threads` four per core, lowered to the memory bound,
      raised to `num_threads`. */
  method SizeThreads(cores: int, availableMB: int, threadMB: real) returns (numThreads: int, maxThreads: int, warnings: seq<string>)
    requires threadMB != 0.0
    ensures var byMemory := ThreadsByMemory(availableMB, threadMB);
      && numThreads == NumThreads(cores, byMemory)
      && maxThreads == MaxThreads(cores, byMemory)
      && warnings == Calculator.When(byMemory < cores * 2, MemoryLimitedWarning)
         + Calculator.When(Max(Min(cores * 2, byMemory), 2) > 1000, ThreadCapWarning)
    ensures 2 <= numThreads <= maxThreads
  {
    var byMemory := Trunc(availableMB as real / threadMB);
    warnings := [];
    var defaultThreads := cores * 2;
    numThreads := defaultThreads;
    if byMemory < numThreads {
      numThreads := byMemory;
      warnings := warnings + [MemoryLimitedWarning];
    }
    if numThreads < 2 {
      numThreads := 2;
    }
    if numThreads > 1000 {
      numThreads := 1000;
      warnings := warnings + [ThreadCapWarning];
    }

    maxThreads := cores * 4;
    if maxThreads > byMemory {
      maxThreads := byMemory;
    }
    if maxThreads < numThreads {
      maxThreads := numThreads;
    }
  }

  /** The memory step of `CalculateFrankenPHP`: the per-thread size (0 becomes the 30 MB
      estimate), the reserve (0 becomes 256 MB plus 10% of the total, capped at 2048 MB) and the
      available memory (raised to 128 MB), with the warnings the first and last of these emit. */
  method SizeMemory(totalMB: int, opts: Options) returns (threadMB: real, reservedMB: int, availableMB: int, warnings: seq<string>)
    ensures threadMB == ThreadMemory(opts) && threadMB != 0.0
    ensures reservedMB == ReservedMemory(totalMB, opts)
    ensures availableMB == AvailableMemory(totalMB, reservedMB)
    ensures warnings == Calculator.When(opts.ThreadMemoryMB == 0.0, ThreadEstimateWarning)
      + Calculator.When(totalMB - reservedMB < 128, LowMemoryWarning)
  {
    warnings := [];
    threadMB := opts.ThreadMemoryMB;
    if threadMB == 0.0 {
      threadMB := 30.0;
      warnings := warnings + [ThreadEstimateWarning];
    }

    reservedMB := opts.ReservedMemoryMB;
    if reservedMB == 0 {
      reservedMB := 256 + TruncDiv(totalMB * 10, 100);
      if reservedMB > 2048 {
        reservedMB := 2048;
      }
    }

    availableMB := totalMB - reservedMB;
    if availableMB < 128 {
      availableMB := 128;
      warnings := warnings + [LowMemoryWarning];
    }
  }

  /** `CalculateFrankenPHP`: the configuration for a host. */
  method Calculate(sysInfo: System.Info, opts: Options) returns (cfg: Config)
    ensures fresh(cfg)
    ensures cfg.ThreadMemoryMB == ThreadMemory(opts)
    ensures cfg.ReservedMemoryMB == ReservedMemory(sysInfo.MemTotalMB, opts)
    ensures cfg.AvailableMemoryMB == AvailableMemory(sysInfo.MemTotalMB, cfg.ReservedMemoryMB)
    ensures var byMemory := ThreadsByMemory(cfg.AvailableMemoryMB, cfg.ThreadMemoryMB);
      && cfg.NumThreads == NumThreads(sysInfo.CPUCores, byMemory)
      && cfg.MaxThreads == MaxThreads(sysInfo.CPUCores, byMemory)
      && cfg.Warnings == Warnings(opts, sysInfo.MemTotalMB, cfg.ReservedMemoryMB, sysInfo.CPUCores, byMemory)
    ensures cfg.WorkerNum == if opts.WorkerMode then cfg.NumThreads else 0
    ensures cfg.MaxWaitTime == MaxWaitTime(opts.TrafficProfile)
    ensures cfg.Recommendations == Recommendations(opts.WorkerMode, sysInfo.MemTotalMB)
    ensures 2 <= cfg.NumThreads <= cfg.MaxThreads
  {
    var threadMB, reservedMB, availableMB, warnings := SizeMemory(sysInfo.MemTotalMB, opts);

    var cpuCores := sysInfo.CPUCores;
    var numThreads, maxThreads, threadWarnings := SizeThreads(cpuCores, availableMB, threadMB);
    warnings := warnings + threadWarnings;
    assert warnings == Warnings(opts, sysInfo.MemTotalMB, reservedMB, cpuCores, ThreadsByMemory(availableMB, threadMB));

    var workerNum := 0;
    if opts.WorkerMode {
      workerNum := numThreads;
    }

    var maxWaitTime;
    match opts.TrafficProfile {
      case Low => maxWaitTime := "";
      case High => maxWaitTime := "5s";
      case Medium => maxWaitTime := "10s";
    }

    cfg := new Config(numThreads, maxThreads, workerNum, maxWaitTime, reservedMB, availableMB, threadMB, warnings);
    AddRecommendations(cfg, sysInfo, opts);
  }

  // ---------------------------------------------------------------------------------------------
  // Properties

  /** A non-zero thread size is used as given (even a negative one); 0 becomes 30 MB. */
  lemma ThreadMemoryRule(opts: Options)
    ensures ThreadMemory(opts) != 0.0
    ensures opts.ThreadMemoryMB != 0.0 ==> ThreadMemory(opts) == opts.ThreadMemoryMB
    ensures opts.ThreadMemoryMB == 0.0 ==> ThreadMemory(opts) == 30.0
  {
  }

  /** A non-zero override is used as given. The default is 256 MB plus the whole megabytes of 10%
      of total memory, lies in [256, 2048] for a non-negative total, and reaches the 2048 MB cap
      exactly from 17920 MB of total memory on. */
  lemma ReservedMemoryRule(totalMB: int, opts: Options)
    ensures opts.ReservedMemoryMB != 0 ==> ReservedMemory(totalMB, opts) == opts.ReservedMemoryMB
    ensures opts.ReservedMemoryMB == 0 && totalMB >= 0 ==> 256 <= ReservedMemory(totalMB, opts) <= 2048
    ensures opts.ReservedMemoryMB == 0 ==> (ReservedMemory(totalMB, opts) == 2048 <==> totalMB >= 17920)
    ensures opts.ReservedMemoryMB == 0 && 0 <= totalMB < 17920 ==>
      var r := ReservedMemory(totalMB, opts);
      (r - 256) * 100 <= totalMB * 10 < (r - 256 + 1) * 100
  {
    if opts.ReservedMemoryMB == 0 {
      if totalMB < 17920 {
        TruncDivMonotone(totalMB * 10, 17919 * 10, 100);
      } else {
        TruncDivMonotone(17920 * 10, totalMB * 10, 100);
      }
    }
  }

  /** With the default thread size, the memory bound is the number of whole 30 MB threads that
      fit in the available memory. */
  lemma ThreadsByMemoryDefault(availableMB: int)
    requires availableMB >= 0
    ensures var n := ThreadsByMemory(availableMB, 30.0);
      n >= 0 && n * 30 <= availableMB < (n + 1) * 30
  {
    var q := availableMB as real / 30.0;
    assert q * 30.0 == availableMB as real;
  }

  /** `num_threads` is two per core when memory allows it and the core count is in range,
      and is limited by memory exactly when the memory bound is below two per core. */
  lemma NumThreadsRule(cores: int, byMemory: int)
    ensures byMemory >= cores * 2 && 1 <= cores <= 500 ==> NumThreads(cores, byMemory) == cores * 2
    ensures byMemory < cores * 2 && 2 <= byMemory <= 1000 ==> NumThreads(cores, byMemory) == byMemory
    ensures NumThreads(cores, byMemory) <= MaxThreads(cores, byMemory)
  {
  }

  /** The warnings: the thread-size estimate exactly when the option is 0, the low-memory one
      exactly when the 128 MB floor applied, the memory-limit one exactly when the memory bound is
      below two threads per core, and the cap exactly when the upper clamp fired. */
  lemma WarningsExact(opts: Options, totalMB: int, reservedMB: int, cores: int, byMemory: int)
    ensures var w := Warnings(opts, totalMB, reservedMB, cores, byMemory);
      && (ThreadEstimateWarning in w <==> opts.ThreadMemoryMB == 0.0)
      && (LowMemoryWarning in w <==> totalMB - reservedMB < 128)
      && (MemoryLimitedWarning in w <==> byMemory < cores * 2)
      && (ThreadCapWarning in w <==> Max(Min(cores * 2, byMemory), 2) > 1000)
  {
  }

  /** The recommendations: exactly one worker-mode item, first; the low-memory item exactly
      when total memory is under 1024 MB; the two generic items last. */
  lemma RecommendationsShape(workerMode: bool, totalMB: int)
    ensures var r := Recommendations(workerMode, totalMB);
      && |r| >= 3
      && r[0] == (if workerMode then WorkerModeAdvice else EnableWorkerAdvice)
      && (forall i :: 1 <= i < |r| ==> r[i] != WorkerModeAdvice && r[i] != EnableWorkerAdvice)
      && (LowMemoryAdvice in r <==> totalMB < 1024)
      && r[|r| - 2..] == [SharedMemoryAdvice, WatchAdvice]
  {
  }

  /** More available memory never lowers the thread counts. */
  lemma ThreadsMonotone(cores: int, availableMB: int, availableMB': int, threadMB: real)
    requires availableMB <= availableMB' && threadMB > 0.0
    ensures var n := ThreadsByMemory(availableMB, threadMB);
      var n' := ThreadsByMemory(availableMB', threadMB);
      NumThreads(cores, n) <= NumThreads(cores, n') && MaxThreads(cores, n) <= MaxThreads(cores, n')
  {
    var x := availableMB as real / threadMB;
    var x' := availableMB' as real / threadMB;
    assert x <= x' by {
      assert x * threadMB == availableMB as real;
      assert x' * threadMB == availableMB' as real;
      if x > x' {
        Calculator.MulRealStrict(x', x, threadMB);
      }
    }
    TruncMonotone(x, x');
  }

  lemma TruncMonotone(x: real, y: real)
    requires x <= y
    ensures Trunc(x) <= Trunc(y)
  {
    if x < 0.0 && y < 0.0 {
      Calculator.FloorMonotone(-y, -x);
    }
  }
}

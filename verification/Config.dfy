/** Pool configuration and the system-aware defaults. */
module Config {
  import opened Routing

  /**
   Settings fixed before a pool is used: `limit` is the thread-cache depth per class,
   `batch` the transfer size, `maxBuffers` the shared-queue capacity per class.
   */
  datatype Settings = Settings(limit: nat, batch: nat, maxBuffers: nat, minSize: nat, track: bool)

  /** What the builders assert, for a queue whose capacity is a machine word; nothing is asked of the batch size. */
  predicate Accepted(cfg: Settings) {
    cfg.limit > 0 && 0 < cfg.maxBuffers < TWO64
  }

  /** Batches that, after a refill, never leave a cache above its limit. */
  predicate Modest(cfg: Settings) {
    cfg.batch <= cfg.limit + 1
  }

  /** Modest batches that are never empty. */
  predicate Tame(cfg: Settings) {
    1 <= cfg.batch && Modest(cfg)
  }

  /** Most buffers a thread's cache for one class can ever hold. */
  function CacheBound(cfg: Settings): (b: nat)
    ensures b >= cfg.limit && b + 1 >= cfg.batch
  {
    if cfg.batch > cfg.limit + 1 then cfg.batch - 1 else cfg.limit
  }

  function DefaultTlsCacheSize(cpus: nat): nat {
    if cpus <= 2 then 2 else if cpus <= 4 then 4 else if cpus <= 8 then 6 else 8
  }

  function DefaultMaxBuffersPerClass(cpus: nat): nat {
    var scaling := if cpus < 16 then 1 else if cpus < 32 then 2 else if cpus < 64 then 3 else 4;
    32 * scaling
  }

  function DefaultBatchSize(tlsCacheSize: nat): nat {
    var half := tlsCacheSize / 2;
    if half < 2 then 2 else half
  }

  function DefaultSettings(cpus: nat): Settings {
    var tls := DefaultTlsCacheSize(cpus);
    Settings(tls, DefaultBatchSize(tls), DefaultMaxBuffersPerClass(cpus), 4096, false)
  }

  /** The builder that sets the cache size also recomputes the batch. */
  function WithTlsCacheSize(cfg: Settings, size: nat): Settings
    requires size > 0
  {
    cfg.(limit := size, batch := DefaultBatchSize(size))
  }

  /**
   The defaults as the processors grow in number: caches of two, two deeper at 3, at 5 and at 9; queues of
   32, with 32 more at 16, at 32 and at 64. A batch is half a cache, and never less than two;
   buffers below the smallest class are not kept, and statistics are off.
   */
  lemma DefaultsGrow(cpus: nat, size: nat)
    ensures var d := DefaultSettings(cpus);
            && d.limit == DefaultTlsCacheSize(cpus) && d.maxBuffers == DefaultMaxBuffersPerClass(cpus)
            && d.batch == DefaultBatchSize(d.limit) && d.minSize == Boundary(0) && !d.track
    ensures DefaultTlsCacheSize(0) == 2 && DefaultMaxBuffersPerClass(0) == 32
    ensures DefaultTlsCacheSize(cpus + 1) - DefaultTlsCacheSize(cpus) == (if cpus + 1 in {3, 5, 9} then 2 else 0)
    ensures DefaultMaxBuffersPerClass(cpus + 1) - DefaultMaxBuffersPerClass(cpus)
            == (if cpus + 1 in {16, 32, 64} then 32 else 0)
    ensures var batch := DefaultBatchSize(size);
            batch >= 2 && (2 * batch <= size < 2 * batch + 2 || (size < 4 && batch == 2))
  {
  }

  /** Every batch size derived from a cache size is tame, and the cache bound is then the limit itself. */
  lemma DefaultsAreTame(cfg: Settings, size: nat, cpus: nat)
    requires size > 0
    ensures Tame(WithTlsCacheSize(cfg, size)) && CacheBound(WithTlsCacheSize(cfg, size)) == size
    ensures Accepted(DefaultSettings(cpus)) && Tame(DefaultSettings(cpus))
    ensures CacheBound(DefaultSettings(cpus)) == DefaultSettings(cpus).limit <= 8
  {
    assert size / 2 <= size;
  }
}

/** `MetricsCollector`: query, error and cache counters with derived rates. */
module Metrics {

  /** What `get_metrics` reports: the six counters and the two rates. */
  datatype Snapshot = Snapshot(
    queryCount: nat,
    totalResponseTime: real,
    averageResponseTime: real,
    errorCount: nat,
    embeddingCacheHits: nat,
    embeddingCacheMisses: nat,
    cacheHitRate: real,
    errorRate: real)

  /** `part / whole`, or 0 when `whole` is 0. */
  function Rate(part: nat, whole: nat): (r: real)
    requires part <= whole
    ensures 0.0 <= r <= 1.0
    ensures whole == 0 ==> r == 0.0
    ensures whole > 0 ==> r * whole as real == part as real
  {
    if whole > 0 then part as real / whole as real else 0.0
  }

  class MetricsCollector {
    var queryCount: nat
    var totalResponseTime: real
    var averageResponseTime: real
    var errorCount: nat
    var embeddingCacheHits: nat
    var embeddingCacheMisses: nat

    /** Errors are among the queries, and the average is the mean response time
        of the successful queries (0 while there are none). */
    ghost predicate Valid()
      reads this
    {
      && errorCount <= queryCount
      && (queryCount == errorCount ==> totalResponseTime == 0.0 && averageResponseTime == 0.0)
      && (queryCount > errorCount ==>
            averageResponseTime == totalResponseTime / (queryCount - errorCount) as real)
    }

    /** All six counters start at 0. */
    constructor ()
      ensures Valid()
      ensures queryCount == 0 && totalResponseTime == 0.0 && averageResponseTime == 0.0
      ensures errorCount == 0 && embeddingCacheHits == 0 && embeddingCacheMisses == 0
    {
      queryCount, totalResponseTime, averageResponseTime := 0, 0.0, 0.0;
      errorCount, embeddingCacheHits, embeddingCacheMisses := 0, 0, 0;
    }

    /** `record_query`: every query is counted; a failed one only adds an
        error, a successful one adds its time and recomputes the average. */
    method RecordQuery(responseTime: real, error: bool)
      requires Valid()
      modifies this
      ensures Valid()
      ensures queryCount == old(queryCount) + 1
      ensures embeddingCacheHits == old(embeddingCacheHits) && embeddingCacheMisses == old(embeddingCacheMisses)
      ensures error ==>
        && errorCount == old(errorCount) + 1
        && totalResponseTime == old(totalResponseTime)
        && averageResponseTime == old(averageResponseTime)
      ensures !error ==>
        && errorCount == old(errorCount)
        && totalResponseTime == old(totalResponseTime) + responseTime
        && averageResponseTime == totalResponseTime / (queryCount - errorCount) as real
    {
      queryCount := queryCount + 1;
      if error {
        errorCount := errorCount + 1;
      } else {
        totalResponseTime := totalResponseTime + responseTime;
        averageResponseTime := totalResponseTime / (queryCount - errorCount) as real;
      }
    }

    /** `record_cache_hit`. */
    method RecordCacheHit()
      requires Valid()
      modifies this
      ensures Valid()
      ensures embeddingCacheHits == old(embeddingCacheHits) + 1
      ensures embeddingCacheMisses == old(embeddingCacheMisses)
      ensures queryCount == old(queryCount) && errorCount == old(errorCount)
      ensures totalResponseTime == old(totalResponseTime) && averageResponseTime == old(averageResponseTime)
    {
      embeddingCacheHits := embeddingCacheHits + 1;
    }

    /** `record_cache_miss`. */
    method RecordCacheMiss()
      requires Valid()
      modifies this
      ensures Valid()
      ensures embeddingCacheMisses == old(embeddingCacheMisses) + 1
      ensures embeddingCacheHits == old(embeddingCacheHits)
      ensures queryCount == old(queryCount) && errorCount == old(errorCount)
      ensures totalResponseTime == old(totalResponseTime) && averageResponseTime == old(averageResponseTime)
    {
      embeddingCacheMisses := embeddingCacheMisses + 1;
    }

    /** `get_metrics`: the counters as they are, the hit rate over all cache
        lookups and the error rate over all queries, both in [0, 1]. */
    function GetMetrics(): (m: Snapshot)
      requires Valid()
      reads this
      ensures m.queryCount == queryCount && m.errorCount == errorCount
      ensures m.totalResponseTime == totalResponseTime && m.averageResponseTime == averageResponseTime
      ensures m.embeddingCacheHits == embeddingCacheHits && m.embeddingCacheMisses == embeddingCacheMisses
      ensures 0.0 <= m.cacheHitRate <= 1.0 && 0.0 <= m.errorRate <= 1.0
      ensures embeddingCacheHits + embeddingCacheMisses == 0 ==> m.cacheHitRate == 0.0
      ensures embeddingCacheHits + embeddingCacheMisses > 0 ==>
        m.cacheHitRate * (embeddingCacheHits + embeddingCacheMisses) as real == embeddingCacheHits as real
      ensures queryCount == 0 ==> m.errorRate == 0.0
      ensures queryCount > 0 ==> m.errorRate * queryCount as real == errorCount as real
    {
      var cacheTotal := embeddingCacheHits + embeddingCacheMisses;
      Snapshot(queryCount, totalResponseTime, averageResponseTime, errorCount,
               embeddingCacheHits, embeddingCacheMisses,
               Rate(embeddingCacheHits, cacheTotal), Rate(errorCount, queryCount))
    }

    /** `reset_metrics`: every counter, the average included, back to 0. */
    method ResetMetrics()
      modifies this
      ensures Valid()
      ensures queryCount == 0 && totalResponseTime == 0.0 && averageResponseTime == 0.0
      ensures errorCount == 0 && embeddingCacheHits == 0 && embeddingCacheMisses == 0
    {
      queryCount, totalResponseTime, averageResponseTime := 0, 0.0, 0.0;
      errorCount, embeddingCacheHits, embeddingCacheMisses := 0, 0, 0;
    }
  }
}

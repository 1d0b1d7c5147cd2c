/** Statistics as values: running totals, what a 64-bit load sees of them, and the rates a snapshot derives. */
module Stats {

  /** Counters as running totals; a 64-bit load sees the total modulo 2^64. */
  datatype Totals = Totals(gets: nat, tlsHits: nat, sharedHits: nat, allocations: nat,
                           puts: nat, discards: nat, oversize: nat)

  const ZERO_TOTALS: Totals := Totals(0, 0, 0, 0, 0, 0, 0)

  function Load(total: nat): nat {
    total % 0x1_0000_0000_0000_0000
  }

  function TlsHitRate(ctr: Totals): real {
    var gets := Load(ctr.gets);
    if gets == 0 then 0.0 else Load(ctr.tlsHits) as real / gets as real
  }

  /** The sum of the two loads is again a 64-bit word. */
  function HitRate(ctr: Totals): real {
    var gets := Load(ctr.gets);
    if gets == 0 then 0.0 else Load(Load(ctr.tlsHits) + Load(ctr.sharedHits)) as real / gets as real
  }

  lemma RatioMonotone(a: nat, c: nat, b: nat)
    requires a <= c && b > 0
    ensures a as real / b as real <= c as real / b as real
  {
  }

  lemma LoadSmall(x: nat)
    requires x < 0x1_0000_0000_0000_0000
    ensures Load(x) == x
  {
  }

  /** A load is a 64-bit word, and wraps. */
  lemma LoadWraps(total: nat)
    ensures Load(total) < 0x1_0000_0000_0000_0000 && Load(total + 0x1_0000_0000_0000_0000) == Load(total)
  {
  }

  /** What the rates are: zero before the first get, and from then on the part of the gets that hit. */
  lemma RatesAre(ctr: Totals)
    ensures Load(ctr.gets) == 0 ==> TlsHitRate(ctr) == 0.0 == HitRate(ctr)
    ensures Load(ctr.gets) > 0 ==> TlsHitRate(ctr) * Load(ctr.gets) as real == Load(ctr.tlsHits) as real
    ensures Load(ctr.gets) > 0 ==>
              HitRate(ctr) * Load(ctr.gets) as real == Load(Load(ctr.tlsHits) + Load(ctr.sharedHits)) as real
  {
    hide Load;
  }

  /** Exactly when each rate is at most one; the cache rate never exceeds the other. */
  lemma RatesAtMostOne(ctr: Totals)
    requires ctr.gets < 0x1_0000_0000_0000_0000 && ctr.tlsHits + ctr.sharedHits < 0x1_0000_0000_0000_0000
    ensures 0.0 <= TlsHitRate(ctr) <= HitRate(ctr)
    ensures TlsHitRate(ctr) <= 1.0 <==> ctr.gets == 0 || ctr.tlsHits <= ctr.gets
    ensures HitRate(ctr) <= 1.0 <==> ctr.gets == 0 || ctr.tlsHits + ctr.sharedHits <= ctr.gets
  {
    LoadSmall(ctr.gets);
    LoadSmall(ctr.tlsHits);
    LoadSmall(ctr.sharedHits);
    LoadSmall(ctr.tlsHits + ctr.sharedHits);
    hide Load;
    if ctr.gets > 0 {
      RatioAtMostOne(ctr.tlsHits, ctr.gets);
      RatioAtMostOne(ctr.tlsHits + ctr.sharedHits, ctr.gets);
      RatioMonotone(ctr.tlsHits, ctr.tlsHits + ctr.sharedHits, ctr.gets);
    }
  }

  lemma RatioAtMostOne(a: nat, b: nat)
    requires b > 0
    ensures 0.0 <= a as real / b as real
    ensures a as real / b as real <= 1.0 <==> a <= b
  {
    var q := a as real / b as real;
    assert q * b as real == a as real;
  }

  /** Both rates are in range whenever gets cover everything served and have not wrapped. */
  lemma RatesFromBooks(ctr: Totals, inFlight: nat)
    requires ctr.gets == ctr.tlsHits + ctr.sharedHits + ctr.allocations + inFlight < 0x1_0000_0000_0000_0000
    ensures 0.0 <= TlsHitRate(ctr) <= HitRate(ctr) <= 1.0
  {
    RatesAtMostOne(ctr);
    hide TlsHitRate, HitRate;
  }
}

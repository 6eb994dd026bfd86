/**
  Derived-mode benchmark behind the SignLess comparison.

  Per-trial RSA-3072 timings (a trial is 50 back-to-back encryptions) are the
  only measured input; Kyber and Dilithium timings are fixed multiples of
  them.  Five protocols' latency series are built element-wise from the three
  timing series, byte overheads come from a fixed table, and the summary
  reports the population mean and variance of each latency series and each
  overhead's efficiency against the Hybrid TLS 1.3 baseline of 8500 bytes.
*/
module SignLessBenchmark {
  import opened Stats

  /** Artifact sizes in bytes, keyed by the names the script uses. */
  const SIZES: map<string, nat> := map[
    "Kyber768_PK" := 1184, "Kyber768_CT" := 1088,
    "Dilithium3_SIG" := 3293, "Dilithium3_PK" := 1952,
    "RSA3072_CT" := 384, "Auth_Tag" := 128, "Cert_Chain" := 2000
  ]

  /** Trials the script asks the benchmark for. */
  const N_RUNS: nat := 10

  /** RSA encryptions timed together in one trial. */
  const ENCRYPTIONS_PER_TRIAL: nat := 50

  /** Reference performance ratios of Kyber and Dilithium against RSA. */
  const KYBER_RATIO: real := 0.35
  const DILITHIUM_RATIO: real := 2.8

  /** Overhead of the Hybrid TLS 1.3 baseline, the denominator of the efficiency column. */
  const HYBRID_TLS_OVERHEAD: nat := 8500

  /** Milliseconds per encryption, from one trial's elapsed wall-clock seconds. */
  function MsPerEncryption(elapsedSeconds: real): (ms: real)
    ensures ms * (ENCRYPTIONS_PER_TRIAL as real) == elapsedSeconds * 1000.0
    ensures elapsedSeconds >= 0.0 ==> ms >= 0.0
  {
    elapsedSeconds / (ENCRYPTIONS_PER_TRIAL as real) * 1000.0
  }

  /** The RSA samples one benchmark run produces: one per trial, in trial order. */
  function RsaSamples(elapsed: seq<real>): (r: seq<real>)
    ensures |r| == |elapsed|
    ensures (forall i :: 0 <= i < |elapsed| ==> elapsed[i] >= 0.0) ==> forall i :: 0 <= i < |r| ==> r[i] >= 0.0
  {
    seq(|elapsed|, i requires 0 <= i < |elapsed| => MsPerEncryption(elapsed[i]))
  }

  /** Element-wise product of a timing series with a scalar. */
  function Scale(s: seq<real>, ratio: real): (r: seq<real>)
    ensures |r| == |s|
    ensures forall i :: 0 <= i < |s| ==> r[i] == s[i] * ratio
  {
    seq(|s|, i requires 0 <= i < |s| => s[i] * ratio)
  }

  /**
    The dynamic benchmark with the clock abstracted: `elapsed[i]` is the
    wall-clock time, in seconds, of trial i's 50 encryptions.  One RSA sample
    is appended per trial; Kyber and Dilithium samples are scaled from it.
  */
  method HardwareBenchmark(n: nat, elapsed: seq<real>)
    returns (tKyber: seq<real>, tRsa: seq<real>, tDilithium: seq<real>)
    requires |elapsed| == n
    ensures |tKyber| == n && |tRsa| == n && |tDilithium| == n
    ensures forall i :: 0 <= i < n ==> tRsa[i] == MsPerEncryption(elapsed[i])
    ensures tRsa == RsaSamples(elapsed)
    ensures tKyber == Scale(tRsa, KYBER_RATIO) && tDilithium == Scale(tRsa, DILITHIUM_RATIO)
    ensures (forall i :: 0 <= i < n ==> elapsed[i] >= 0.0) ==> forall i :: 0 <= i < n ==> tRsa[i] >= 0.0
  {
    var samples: seq<real> := [];
    for i := 0 to n
      invariant |samples| == i
      invariant forall j :: 0 <= j < i ==> samples[j] == MsPerEncryption(elapsed[j])
    {
      var tRsaTrial := MsPerEncryption(elapsed[i]);
      samples := samples + [tRsaTrial];
    }
    tRsa := samples;
    tKyber := Scale(tRsa, KYBER_RATIO);
    tDilithium := Scale(tRsa, DILITHIUM_RATIO);
  }

  /** The protocols compared, in table order. */
  datatype Protocol = KyberOnly | HybridTls13 | Kemtls | KyberDilithium | HpqAke

  const PROTOCOLS: seq<Protocol> := [KyberOnly, HybridTls13, Kemtls, KyberDilithium, HpqAke]

  /** One protocol's handshake latency (ms) from one trial's Kyber, RSA and Dilithium timings. */
  function Latency(p: Protocol, tk: real, tr: real, td: real): real
  {
    match p
    case KyberOnly => tk * 2.0
    case HybridTls13 => (tk * 2.0) + td + tr + 1.2
    case Kemtls => (tk * 3.0) + 0.5
    case KyberDilithium => (tk * 2.0) + td
    case HpqAke => (tk * 2.0) + tr + 0.15
  }

  /** One protocol's latency series, trial by trial. */
  function Series(p: Protocol, tk: seq<real>, tr: seq<real>, td: seq<real>): (r: seq<real>)
    requires |tk| == |tr| == |td|
    ensures |r| == |tr|
    ensures forall i :: 0 <= i < |tr| ==> r[i] == Latency(p, tk[i], tr[i], td[i])
  {
    seq(|tr|, i requires 0 <= i < |tr| => Latency(p, tk[i], tr[i], td[i]))
  }

  /** The five latency series, one per protocol in table order. */
  function LatencySamples(tk: seq<real>, tr: seq<real>, td: seq<real>): (r: seq<seq<real>>)
    requires |tk| == |tr| == |td|
    ensures |r| == |PROTOCOLS|
    ensures forall k :: 0 <= k < |PROTOCOLS| ==> r[k] == Series(PROTOCOLS[k], tk, tr, td)
  {
    [ Series(KyberOnly, tk, tr, td), Series(HybridTls13, tk, tr, td), Series(Kemtls, tk, tr, td),
      Series(KyberDilithium, tk, tr, td), Series(HpqAke, tk, tr, td) ]
  }

  /** Every series has one sample per trial; HPQ-AKE and Hybrid TLS 1.3 follow their formulas. */
  lemma LatencySamplesShape(tk: seq<real>, tr: seq<real>, td: seq<real>)
    requires |tk| == |tr| == |td|
    ensures forall k :: 0 <= k < |PROTOCOLS| ==> |LatencySamples(tk, tr, td)[k]| == |tr|
    ensures forall i :: 0 <= i < |tr| ==>
      LatencySamples(tk, tr, td)[4][i] == 2.0 * tk[i] + tr[i] + 0.15
    ensures forall i :: 0 <= i < |tr| ==>
      LatencySamples(tk, tr, td)[1][i] == 2.0 * tk[i] + td[i] + tr[i] + 1.2
  {
  }

  /** The timing series as the benchmark derives them from the RSA samples. */
  predicate Derived(tk: seq<real>, tr: seq<real>, td: seq<real>)
  {
    tk == Scale(tr, KYBER_RATIO) && td == Scale(tr, DILITHIUM_RATIO)
  }

  /**
    On every trial whose RSA time is non-negative, HPQ-AKE is strictly faster
    than Hybrid TLS 1.3 and Kyber-only is no slower than Kyber + Dilithium.
  */
  lemma TrialOrdering(tk: seq<real>, tr: seq<real>, td: seq<real>, i: nat)
    requires Derived(tk, tr, td)
    requires i < |tr| && tr[i] >= 0.0
    ensures Series(HpqAke, tk, tr, td)[i] < Series(HybridTls13, tk, tr, td)[i]
    ensures Series(KyberOnly, tk, tr, td)[i] <= Series(KyberDilithium, tk, tr, td)[i]
  {
  }

  /** The same orderings hold of the mean latencies when every RSA time is non-negative. */
  lemma MeanOrdering(tk: seq<real>, tr: seq<real>, td: seq<real>)
    requires Derived(tk, tr, td)
    requires |tr| > 0
    requires forall i :: 0 <= i < |tr| ==> tr[i] >= 0.0
    ensures Mean(Series(HpqAke, tk, tr, td)) < Mean(Series(HybridTls13, tk, tr, td))
    ensures Mean(Series(KyberOnly, tk, tr, td)) <= Mean(Series(KyberDilithium, tk, tr, td))
  {
    forall i | 0 <= i < |tr|
      ensures Series(HpqAke, tk, tr, td)[i] < Series(HybridTls13, tk, tr, td)[i]
      ensures Series(KyberOnly, tk, tr, td)[i] <= Series(KyberDilithium, tk, tr, td)[i]
    {
      TrialOrdering(tk, tr, td, i);
    }
    MeanStrictlyMonotone(Series(HpqAke, tk, tr, td), Series(HybridTls13, tk, tr, td));
    MeanMonotone(Series(KyberOnly, tk, tr, td), Series(KyberDilithium, tk, tr, td));
  }

  /** Without jitter (every RSA sample equal) every latency series has variance zero. */
  lemma NoJitterNoVariance(tk: seq<real>, tr: seq<real>, td: seq<real>, c: real)
    requires Derived(tk, tr, td)
    requires |tr| > 0
    requires forall i :: 0 <= i < |tr| ==> tr[i] == c
    ensures forall k :: 0 <= k < |PROTOCOLS| ==> Variance(LatencySamples(tk, tr, td)[k]) == 0.0
  {
    forall k | 0 <= k < |PROTOCOLS|
      ensures Variance(LatencySamples(tk, tr, td)[k]) == 0.0
    {
      var p := PROTOCOLS[k];
      VarianceOfConstant(Series(p, tk, tr, td), Latency(p, c * KYBER_RATIO, c, c * DILITHIUM_RATIO));
    }
  }

  /** Byte overheads per protocol, in table order; they do not depend on any measurement. */
  function OverheadData(): (r: seq<int>)
    ensures |r| == |PROTOCOLS|
  {
    [ SIZES["Kyber768_PK"] + SIZES["Kyber768_CT"], 8500, 6544, 7517, 2784 ]
  }

  /** The table's values: Kyber-only is a Kyber public key plus a Kyber ciphertext. */
  lemma OverheadTable()
    ensures OverheadData() == [2272, 8500, 6544, 7517, 2784]
    ensures OverheadData()[0] == SIZES["Kyber768_PK"] + SIZES["Kyber768_CT"]
  {
  }

  /** The literals for HPQ-AKE and Kyber + Dilithium agree with the size table. */
  lemma OverheadConsistency()
    ensures OverheadData()[4] == SIZES["Kyber768_PK"] + SIZES["Kyber768_CT"] + SIZES["RSA3072_CT"] + SIZES["Auth_Tag"]
    ensures OverheadData()[3] == SIZES["Kyber768_PK"] + SIZES["Kyber768_CT"] + SIZES["Dilithium3_SIG"] + SIZES["Dilithium3_PK"]
  {
  }

  /**
    Efficiency against Hybrid TLS 1.3 in percent, (1 - o / 8500) * 100.
    Signed and unclamped: an overhead above the baseline gives a negative value.
  */
  function Efficiency(o: int): (e: real)
    ensures e == 0.0 <==> o == HYBRID_TLS_OVERHEAD
    ensures 0 < o < HYBRID_TLS_OVERHEAD ==> 0.0 < e < 100.0
    ensures o > HYBRID_TLS_OVERHEAD ==> e < 0.0
    ensures o == 0 <==> e == 100.0
  {
    (1.0 - (o as real) / (HYBRID_TLS_OVERHEAD as real)) * 100.0
  }

  /** The overhead is recovered from its efficiency. */
  lemma EfficiencyInverse(o: int)
    ensures o as real == (HYBRID_TLS_OVERHEAD as real) * (1.0 - Efficiency(o) / 100.0)
  {
  }

  /** Less overhead means strictly higher efficiency. */
  lemma EfficiencyDecreasing(o1: int, o2: int)
    requires o1 < o2
    ensures Efficiency(o1) > Efficiency(o2)
  {
  }

  /**
    Over the overhead table, efficiency is exactly zero for Hybrid TLS 1.3 and
    strictly between 0 and 100 for every other protocol.
  */
  lemma TableEfficiency()
    ensures forall k :: 0 <= k < |PROTOCOLS| ==>
      (Efficiency(OverheadData()[k]) == 0.0 <==> PROTOCOLS[k] == HybridTls13)
    ensures forall k :: 0 <= k < |PROTOCOLS| && PROTOCOLS[k] != HybridTls13 ==>
      0.0 < Efficiency(OverheadData()[k]) < 100.0
  {
  }

  /** One line of the results table; the standard deviation column is the square root of `variance`. */
  datatype SummaryRow = SummaryRow(protocol: Protocol, meanLatency: real, variance: real, overhead: int, efficiency: real)

  function Row(k: nat, samples: seq<seq<real>>): (row: SummaryRow)
    requires k < |PROTOCOLS| && |samples| == |PROTOCOLS| && |samples[k]| > 0
    ensures row.protocol == PROTOCOLS[k] && row.overhead == OverheadData()[k]
    ensures row.meanLatency == Mean(samples[k]) && row.variance == Variance(samples[k])
    ensures row.variance >= 0.0
    ensures row.efficiency == Efficiency(row.overhead)
  {
    VarianceNonNegative(samples[k]);
    SummaryRow(PROTOCOLS[k], Mean(samples[k]), Variance(samples[k]), OverheadData()[k], Efficiency(OverheadData()[k]))
  }

  /**
    The results table: per protocol, the population mean and variance of its
    latency series, its byte overhead and its efficiency against Hybrid TLS 1.3.
  */
  function Summary(tk: seq<real>, tr: seq<real>, td: seq<real>): (table: seq<SummaryRow>)
    requires |tk| == |tr| == |td| > 0
    ensures |table| == |PROTOCOLS|
    ensures forall k :: 0 <= k < |PROTOCOLS| ==>
      table[k].protocol == PROTOCOLS[k] &&
      table[k].meanLatency == Mean(LatencySamples(tk, tr, td)[k]) &&
      table[k].variance == Variance(LatencySamples(tk, tr, td)[k]) &&
      table[k].variance >= 0.0 &&
      table[k].overhead == OverheadData()[k] &&
      table[k].efficiency == Efficiency(table[k].overhead)
    ensures forall k :: 0 <= k < |PROTOCOLS| ==> (table[k].efficiency == 0.0 <==> table[k].protocol == HybridTls13)
    ensures forall k :: 0 <= k < |PROTOCOLS| && table[k].protocol != HybridTls13 ==>
      0.0 < table[k].efficiency < 100.0
  {
    var samples := LatencySamples(tk, tr, td);
    TableEfficiency();
    seq(|PROTOCOLS|, k requires 0 <= k < |PROTOCOLS| => Row(k, samples))
  }

  /**
    The whole script with the clock abstracted: N_RUNS trials, then the
    results table computed from the derived timing series.
  */
  method Benchmark(elapsed: seq<real>) returns (table: seq<SummaryRow>)
    requires |elapsed| == N_RUNS
    ensures |table| == |PROTOCOLS|
    ensures (forall i :: 0 <= i < N_RUNS ==> elapsed[i] >= 0.0) ==>
      table[4].meanLatency < table[1].meanLatency && table[0].meanLatency <= table[3].meanLatency
    ensures forall k :: 0 <= k < |PROTOCOLS| ==> table[k].variance >= 0.0
    ensures table[1].efficiency == 0.0
    ensures table == Summary(Scale(RsaSamples(elapsed), KYBER_RATIO), RsaSamples(elapsed),
                             Scale(RsaSamples(elapsed), DILITHIUM_RATIO))
  {
    var tK, tR, tD := HardwareBenchmark(N_RUNS, elapsed);
    table := Summary(tK, tR, tD);
    if forall i :: 0 <= i < N_RUNS ==> elapsed[i] >= 0.0 {
      MeanOrdering(tK, tR, tD);
    }
  }
}

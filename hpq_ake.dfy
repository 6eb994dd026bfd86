/**
  Static handshake cost model of HPQ-AKE and its Monte Carlo averaging.

  Four parameter-free cost functions combine reference primitive timings (ms)
  and artifact sizes (bytes) into one (latency, overhead) pair per handshake.
  The simulation runs every scheme `runs` times, adds one noise draw to each
  run's latency, and keeps the mean latency and mean overhead per scheme.  The
  pseudo-random Gaussian draws are an input: one stream of draws consumed in
  scheme order, `runs` draws per scheme.
*/
module HpqAkeSimulation {
  import opened Stats

  /** Number of Monte Carlo runs per scheme in the script. */
  const NUM_RUNS: nat := 500

  // Reference cryptographic timings (ms)
  const T_KYBER: real := 1.8
  const T_DILITHIUM: real := 6.4
  const T_RSA: real := 1.2
  const T_SYM: real := 0.15  // HMAC + HKDF + AEAD

  // Communication overhead (bytes)
  const SIZE_KYBER_CT: nat := 1088
  const SIZE_KYBER_PK: nat := 1184
  const SIZE_DILITHIUM_SIG: nat := 2700
  const SIZE_RSA_CT: nat := 256
  const SIZE_SYM_TAG: nat := 64

  /** One handshake's cost: latency in ms, overhead in bytes. */
  datatype Cost = Cost(latency: real, overhead: int)

  /** Two Kyber operations; Kyber ciphertext and public key on the wire. */
  function KyberOnlyCost(): (c: Cost)
    ensures c.latency == 3.6 && c.overhead == 2272
  {
    Cost(2.0 * T_KYBER, SIZE_KYBER_CT + SIZE_KYBER_PK)
  }

  /** Kyber-only plus one Dilithium signature. */
  function KyberDilithiumCost(): (c: Cost)
    ensures c.latency == KyberOnlyCost().latency + T_DILITHIUM
    ensures c.overhead == KyberOnlyCost().overhead + SIZE_DILITHIUM_SIG
    ensures c.latency == 10.0 && c.overhead == 4972
  {
    Cost(2.0 * T_KYBER + T_DILITHIUM, SIZE_KYBER_CT + SIZE_KYBER_PK + SIZE_DILITHIUM_SIG)
  }

  /** Kyber-only plus one RSA encryption. */
  function HybridRsaKyberCost(): (c: Cost)
    ensures c.latency == KyberOnlyCost().latency + T_RSA
    ensures c.overhead == KyberOnlyCost().overhead + SIZE_RSA_CT
    ensures c.latency == 4.8 && c.overhead == 2528
  {
    Cost(2.0 * T_KYBER + T_RSA, SIZE_KYBER_CT + SIZE_KYBER_PK + SIZE_RSA_CT)
  }

  /** The hybrid RSA-Kyber handshake plus one symmetric authentication step. */
  function HpqAkeCost(): (c: Cost)
    ensures c.latency == HybridRsaKyberCost().latency + T_SYM
    ensures c.overhead == HybridRsaKyberCost().overhead + SIZE_SYM_TAG
    ensures c.latency == 4.95 && c.overhead == 2592
  {
    Cost(2.0 * T_KYBER + T_RSA + T_SYM, SIZE_KYBER_CT + SIZE_KYBER_PK + SIZE_RSA_CT + SIZE_SYM_TAG)
  }

  /** The schemes of the simulation, each bound to its own cost function. */
  datatype Scheme = KyberOnly | KyberDilithium | HybridRsaKyber | HpqAke

  /** Iteration order of the scheme table. */
  const SCHEMES: seq<Scheme> := [KyberOnly, KyberDilithium, HybridRsaKyber, HpqAke]

  function CostOf(s: Scheme): Cost
  {
    match s
    case KyberOnly => KyberOnlyCost()
    case KyberDilithium => KyberDilithiumCost()
    case HybridRsaKyber => HybridRsaKyberCost()
    case HpqAke => HpqAkeCost()
  }

  /** Byte overheads are strictly ordered Kyber-only < Hybrid RSA-Kyber < HPQ-AKE < Kyber + Dilithium. */
  lemma OverheadOrdering()
    ensures CostOf(KyberOnly).overhead < CostOf(HybridRsaKyber).overhead
    ensures CostOf(HybridRsaKyber).overhead < CostOf(HpqAke).overhead
    ensures CostOf(HpqAke).overhead < CostOf(KyberDilithium).overhead
  {
  }

  /** Every scheme appears exactly once in the table. */
  lemma SchemesCoverAll()
    ensures |SCHEMES| == 4
    ensures forall s: Scheme :: s in SCHEMES
    ensures forall i, j :: 0 <= i < j < |SCHEMES| ==> SCHEMES[i] != SCHEMES[j]
  {
    forall s: Scheme ensures s in SCHEMES {
      match s
      case KyberOnly => assert SCHEMES[0] == s;
      case KyberDilithium => assert SCHEMES[1] == s;
      case HybridRsaKyber => assert SCHEMES[2] == s;
      case HpqAke => assert SCHEMES[3] == s;
    }
  }

  /** The position of a scheme in the table. */
  function IndexOf(s: Scheme): (k: nat)
    ensures k < |SCHEMES| && SCHEMES[k] == s
  {
    match s
    case KyberOnly => 0
    case KyberDilithium => 1
    case HybridRsaKyber => 2
    case HpqAke => 3
  }

  /** The noise draws scheme number `k` consumes from the stream. */
  function Draws(noise: seq<real>, runs: nat, k: nat): (d: seq<real>)
    requires k < |SCHEMES| && |noise| == |SCHEMES| * runs
    ensures |d| == runs
    ensures forall j :: 0 <= j < runs ==> d[j] == noise[k * runs + j]
  {
    DrawBounds(runs, k);
    noise[k * runs..(k + 1) * runs]
  }

  /** The four schemes' draws, in table order, are exactly the whole stream. */
  lemma DrawsPartition(noise: seq<real>, runs: nat)
    requires |noise| == |SCHEMES| * runs
    ensures Draws(noise, runs, 0) + Draws(noise, runs, 1) + Draws(noise, runs, 2) + Draws(noise, runs, 3) == noise
  {
  }

  lemma DrawBounds(runs: nat, k: nat)
    requires k < |SCHEMES|
    ensures 0 <= k * runs <= (k + 1) * runs <= |SCHEMES| * runs
  {
  }

  /** A noise stream of zeros gives every scheme zero draws. */
  lemma QuietDraws(noise: seq<real>, runs: nat, k: nat)
    requires k < |SCHEMES| && |noise| == |SCHEMES| * runs
    requires forall i :: 0 <= i < |noise| ==> noise[i] == 0.0
    ensures forall j :: 0 <= j < runs ==> Draws(noise, runs, k)[j] == 0.0
  {
  }

  /**
    The means of one scheme's lists: the static latency plus the mean draw,
    and exactly the static overhead.
  */
  lemma SchemeMeans(s: Scheme, draws: seq<real>, latencies: seq<real>, overheads: seq<int>)
    requires |draws| > 0
    requires |latencies| == |draws| && |overheads| == |draws|
    requires forall j :: 0 <= j < |draws| ==> latencies[j] == CostOf(s).latency + draws[j]
    requires forall j :: 0 <= j < |draws| ==> overheads[j] == CostOf(s).overhead
    ensures Mean(latencies) == CostOf(s).latency + Mean(draws)
    ensures Mean(AsReals(overheads)) == CostOf(s).overhead as real
    ensures (forall j :: 0 <= j < |draws| ==> draws[j] == 0.0) ==> Mean(latencies) == CostOf(s).latency
  {
    MeanShift(latencies, draws, CostOf(s).latency);
    MeanConstant(AsReals(overheads), CostOf(s).overhead as real);
    if forall j :: 0 <= j < |draws| ==> draws[j] == 0.0 {
      MeanConstant(draws, 0.0);
    }
  }

  /**
    The inner loop for one scheme: one cost evaluation per draw, the draw
    added to the latency, latency and overhead appended to their lists.
  */
  method RunScheme(s: Scheme, draws: seq<real>) returns (latencies: seq<real>, overheads: seq<int>)
    ensures |latencies| == |draws| && |overheads| == |draws|
    ensures forall j :: 0 <= j < |draws| ==> latencies[j] == CostOf(s).latency + draws[j]
    ensures forall j :: 0 <= j < |draws| ==> overheads[j] == CostOf(s).overhead
  {
    latencies, overheads := [], [];
    for j := 0 to |draws|
      invariant |latencies| == j && |overheads| == j
      invariant forall i :: 0 <= i < j ==> latencies[i] == CostOf(s).latency + draws[i]
      invariant forall i :: 0 <= i < j ==> overheads[i] == CostOf(s).overhead
    {
      var c := CostOf(s);
      latencies := latencies + [c.latency + draws[j]];
      overheads := overheads + [c.overhead];
    }
  }

  /**
    The Monte Carlo simulation.  Scheme number k (in table order) consumes
    draws k * runs .. (k + 1) * runs - 1 of the noise stream.  Both result maps
    hold exactly the four schemes; each mean latency is the scheme's static
    latency plus the mean of its own draws, and each mean overhead is the
    scheme's static overhead.
  */
  method MonteCarlo(runs: nat, noise: seq<real>)
    returns (latencyResults: map<Scheme, real>, overheadResults: map<Scheme, real>)
    requires runs > 0
    requires |noise| == |SCHEMES| * runs
    ensures forall s: Scheme :: s in latencyResults && s in overheadResults
    ensures forall s: Scheme ::
      latencyResults[s] == CostOf(s).latency + Mean(Draws(noise, runs, IndexOf(s)))
    ensures forall s: Scheme :: overheadResults[s] == CostOf(s).overhead as real
    ensures (forall i :: 0 <= i < |noise| ==> noise[i] == 0.0) ==>
      forall s: Scheme :: latencyResults[s] == CostOf(s).latency
  {
    latencyResults, overheadResults := map[], map[];
    for k := 0 to |SCHEMES|
      invariant forall s: Scheme :: s in latencyResults <==> IndexOf(s) < k
      invariant forall s: Scheme :: s in overheadResults <==> IndexOf(s) < k
      invariant forall s: Scheme :: IndexOf(s) < k ==>
        latencyResults[s] == CostOf(s).latency + Mean(Draws(noise, runs, IndexOf(s)))
      invariant forall s: Scheme :: IndexOf(s) < k ==> overheadResults[s] == CostOf(s).overhead as real
      invariant (forall i :: 0 <= i < |noise| ==> noise[i] == 0.0) ==>
        forall s: Scheme :: IndexOf(s) < k ==> latencyResults[s] == CostOf(s).latency
    {
      var s := SCHEMES[k];
      assert IndexOf(s) == k;
      var draws := Draws(noise, runs, k);
      var latencies, overheads := RunScheme(s, draws);
      SchemeMeans(s, draws, latencies, overheads);
      if forall i :: 0 <= i < |noise| ==> noise[i] == 0.0 {
        QuietDraws(noise, runs, k);
      }
      latencyResults := latencyResults[s := Mean(latencies)];
      overheadResults := overheadResults[s := Mean(AsReals(overheads))];
    }
  }

  /** The simulation as the script runs it: NUM_RUNS runs per scheme. */
  method Simulate(noise: seq<real>)
    returns (latencyResults: map<Scheme, real>, overheadResults: map<Scheme, real>)
    requires |noise| == |SCHEMES| * NUM_RUNS
    ensures forall s: Scheme :: s in latencyResults && s in overheadResults
    ensures forall s: Scheme ::
      latencyResults[s] == CostOf(s).latency + Mean(Draws(noise, NUM_RUNS, IndexOf(s)))
    ensures overheadResults[KyberOnly] == 2272.0 && overheadResults[KyberDilithium] == 4972.0
    ensures overheadResults[HybridRsaKyber] == 2528.0 && overheadResults[HpqAke] == 2592.0
    ensures (forall i :: 0 <= i < |noise| ==> noise[i] == 0.0) ==>
      latencyResults[KyberOnly] == 3.6 && latencyResults[KyberDilithium] == 10.0 &&
      latencyResults[HybridRsaKyber] == 4.8 && latencyResults[HpqAke] == 4.95
  {
    latencyResults, overheadResults := MonteCarlo(NUM_RUNS, noise);
  }
}

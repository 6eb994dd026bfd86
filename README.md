# HPQ-AKE handshake cost model in Dafny

This project models the handshake cost model of the HPQ-AKE performance
study and proves properties of it. The study has two parts.

- **Static cost model and Monte Carlo averaging** (`HPQ-AKE.py`, module
  `HpqAkeSimulation` in `hpq_ake.dfy`). Four handshake variants are modelled:
  Kyber-only, Kyber + Dilithium, Hybrid RSA–Kyber and HPQ-AKE. Each one
  combines reference primitive timings (ms) and artifact sizes (bytes) into a
  (latency, overhead) pair. The simulation runs every scheme `NUM_RUNS` = 500
  times and adds one Gaussian noise draw to each run's latency. It then keeps
  the mean latency and the mean overhead per scheme. The noise is an input: a
  single stream of draws that the schemes consume in table order, `runs`
  draws each.
- **Derived-mode benchmark** (`SignLess-Benchmark.py`, module
  `SignLessBenchmark` in `signless_benchmark.dfy`). Each trial times 50 RSA-3072
  encryptions, and the per-trial elapsed seconds are the input. These become
  ms per encryption. Kyber and Dilithium timings are 0.35× and 2.8× the RSA
  timing. Five per-protocol latency series are built element-wise, and the
  byte overheads come from a fixed table. The results table holds the
  population mean and variance of each series, plus each overhead's efficiency
  against the 8500-byte Hybrid TLS 1.3 baseline.
- `stats.dfy` (module `Stats`) holds the shared statistics: sum, population
  mean and population variance (numpy's default `ddof = 0`). It also holds the
  lemmas about them.

Millisecond quantities are exact `real`s and byte counts are `int`/`nat`.

Two fixed choices of the scripts shape the inputs:
- The script hard-codes `np.random.seed(42)`. The model takes the noise
  draws themselves as input.
- The efficiency denominator is the literal 8500
  (SignLess-Benchmark.py:80), so there is no zero-baseline case.

## Model

| member | source | states |
|---|---|---|
| `HpqAkeSimulation.KyberOnlyCost` | HPQ-AKE.py:32-35 | latency is exactly 2·1.8 = 3.6 ms and overhead 1088 + 1184 = 2272 bytes |
| `HpqAkeSimulation.KyberDilithiumCost` | HPQ-AKE.py:37-40 | Kyber-only plus exactly T_DILITHIUM in latency and SIZE_DILITHIUM_SIG in bytes: 10.0 ms, 4972 bytes |
| `HpqAkeSimulation.HybridRsaKyberCost` | HPQ-AKE.py:42-45 | Kyber-only plus exactly T_RSA in latency and SIZE_RSA_CT in bytes: 4.8 ms, 2528 bytes |
| `HpqAkeSimulation.HpqAkeCost` | HPQ-AKE.py:47-55 | Hybrid RSA–Kyber plus exactly T_SYM (0.15 ms) and SIZE_SYM_TAG (64 bytes): 4.95 ms and 2592 bytes |
| `HpqAkeSimulation.OverheadOrdering` | HPQ-AKE.py:32-55 | overheads strictly ordered Kyber-only < Hybrid RSA–Kyber < HPQ-AKE < Kyber + Dilithium |
| `HpqAkeSimulation.SchemesCoverAll` | HPQ-AKE.py:60-65 | the scheme table has four entries, every scheme occurs in it, and no scheme occurs twice |
| `HpqAkeSimulation.DrawsPartition` | HPQ-AKE.py:70-75 | the four schemes' draws, concatenated in table order, are exactly the whole noise stream: every draw is used once, by one scheme |
| `HpqAkeSimulation.QuietDraws` | HPQ-AKE.py:75 | an all-zero noise stream gives every scheme all-zero draws |
| `HpqAkeSimulation.RunScheme` | HPQ-AKE.py:71-76 | after the inner loop both lists hold exactly one entry per draw; latency j is the static latency plus draw j, and every overhead is the static overhead |
| `HpqAkeSimulation.SchemeMeans` | HPQ-AKE.py:75-78 | a scheme's mean latency is its static latency plus the mean of its draws (exactly the static latency when the draws are zero), and its mean overhead is exactly the static overhead |
| `HpqAkeSimulation.MonteCarlo` | HPQ-AKE.py:67-78 | both result maps contain every scheme; each scheme's latency result is its own cost plus the mean of its own draws only, and its overhead result equals its static overhead; with all-zero noise every latency result equals the deterministic latency |
| `HpqAkeSimulation.Simulate` | HPQ-AKE.py:14-78 | with NUM_RUNS = 500 runs, the overhead results are exactly 2272, 4972, 2528 and 2592 bytes; each latency result is its cost plus the mean of its own draws; with all-zero noise the latency results are exactly 3.6, 10.0, 4.8 and 4.95 ms |
| `Stats.MeanShift` | HPQ-AKE.py:75-77 | adding the same constant to every sample shifts the population mean by that constant |
| `Stats.MeanConstant` | HPQ-AKE.py:76-78 | the mean of a series whose samples all equal c is c |
| `Stats.MeanMonotone` | SignLess-Benchmark.py:77 | a series that is element-wise no larger has no larger population mean |
| `Stats.MeanStrictlyMonotone` | SignLess-Benchmark.py:77 | a series that is element-wise strictly smaller has a strictly smaller population mean |
| `Stats.VarianceNonNegative` | SignLess-Benchmark.py:78 | the population variance (ddof = 0) is never negative |
| `Stats.VarianceOfConstant` | SignLess-Benchmark.py:78 | the population variance of a series whose samples are all equal is zero |
| `SignLessBenchmark.MsPerEncryption` | SignLess-Benchmark.py:31-34 | the sample times 50 encryptions equals the elapsed time in ms; a non-negative elapsed time gives a non-negative sample |
| `SignLessBenchmark.RsaSamples` | SignLess-Benchmark.py:30-35 | one RSA sample per trial; all samples are non-negative when every elapsed time is non-negative |
| `SignLessBenchmark.HardwareBenchmark` | SignLess-Benchmark.py:21-43 | returns three series of length n; the RSA series is exactly `RsaSamples(elapsed)`, one sample per trial in trial order; t_kyber[i] = 0.35·t_rsa[i] and t_dilithium[i] = 2.8·t_rsa[i]; non-negative elapsed times give non-negative RSA samples |
| `SignLessBenchmark.LatencySamplesShape` | SignLess-Benchmark.py:55-61 | all five series have the length of the RSA samples; HPQ-AKE[i] = 2·t_k[i] + t_r[i] + 0.15 and Hybrid TLS[i] = 2·t_k[i] + t_d[i] + t_r[i] + 1.2 |
| `SignLessBenchmark.TrialOrdering` | SignLess-Benchmark.py:55-61 | for derived timings and t_r[i] ≥ 0: HPQ-AKE[i] < Hybrid TLS[i] and Kyber-only[i] ≤ Kyber+Dilithium[i] |
| `SignLessBenchmark.MeanOrdering` | SignLess-Benchmark.py:55-77 | when every RSA sample is non-negative, the mean HPQ-AKE latency is strictly below the mean Hybrid TLS latency, and the Kyber-only mean is at most the Kyber + Dilithium mean |
| `SignLessBenchmark.NoJitterNoVariance` | SignLess-Benchmark.py:55-78 | when all RSA samples are equal, every protocol's latency series has zero population variance |
| `SignLessBenchmark.OverheadData` | SignLess-Benchmark.py:64-70 | one overhead per protocol, independent of the measured samples |
| `SignLessBenchmark.OverheadTable` | SignLess-Benchmark.py:64-70 | the table is [2272, 8500, 6544, 7517, 2784], and its first entry is Kyber768_PK + Kyber768_CT |
| `SignLessBenchmark.OverheadConsistency` | SignLess-Benchmark.py:12-70 | the literal 2784 equals Kyber768_PK + Kyber768_CT + RSA3072_CT + Auth_Tag, and 7517 equals Kyber768_PK + Kyber768_CT + Dilithium3_SIG + Dilithium3_PK |
| `SignLessBenchmark.Efficiency` | SignLess-Benchmark.py:80 | the percentage is zero iff the overhead equals 8500, and 100 iff the overhead is 0; it lies strictly between 0 and 100 for overheads strictly between 0 and 8500, and is negative (unclamped) above the baseline |
| `SignLessBenchmark.EfficiencyInverse` | SignLess-Benchmark.py:80 | the overhead is recovered from its efficiency as 8500·(1 − e/100) |
| `SignLessBenchmark.EfficiencyDecreasing` | SignLess-Benchmark.py:80 | a smaller overhead gives a strictly higher efficiency |
| `SignLessBenchmark.TableEfficiency` | SignLess-Benchmark.py:64-80 | over the overhead table, efficiency is exactly 0 for Hybrid TLS 1.3 only, and strictly between 0 and 100 for every other protocol |
| `SignLessBenchmark.Row` | SignLess-Benchmark.py:75-80 | one table line: the protocol, its mean and non-negative variance, its overhead and that overhead's efficiency |
| `SignLessBenchmark.Summary` | SignLess-Benchmark.py:75-81 | five lines in protocol order, each with its series' population mean and variance (never negative), its overhead and that overhead's efficiency; the efficiency is zero on the Hybrid TLS 1.3 line only and strictly between 0 and 100 on every other line |
| `SignLessBenchmark.Benchmark` | SignLess-Benchmark.py:46-80 | with N_RUNS = 10 trials, the table is exactly the summary of the timing series derived from the elapsed times (RSA samples, scaled by 0.35 and 2.8); every variance is non-negative; Hybrid TLS's efficiency is 0; when elapsed times are non-negative, mean HPQ-AKE latency < mean Hybrid TLS latency and mean Kyber-only ≤ mean Kyber + Dilithium |

## Left out

- Live RSA timing is not modelled: key generation, OAEP encryption, `time.perf_counter` and the 20 ms inter-trial `time.sleep`. These are foreign crypto calls and wall-clock I/O. The elapsed seconds per trial are an input sequence, and a failing encryption (which aborts the script) is not modelled.
- Pseudo-random noise is not modelled: `np.random.seed(42)` and `np.random.normal(0, 0.05)`. The draws are an input sequence. The Gaussian distribution and the reproducibility of the seed are not modelled.
- Plotting, printing, string formatting (`:.4f`, `:.1f`, `:.2f`, `:.0f`), the pandas DataFrame, `savefig`/`show` and `files.download` are not modelled. They are presentation and I/O only.
- IEEE-754 floating point is not modelled. All ms quantities are exact reals, so `2 * 1.8` is exactly 3.6 here.
- The standard deviation column is not modelled. It is the square root of the variance, and Dafny has no real square root, so `SummaryRow` carries the population variance instead.
- The mean of an empty series is not modelled. Numpy returns NaN for it, and both scripts always average 500 or 10 samples, so `Mean` and `Variance` require a non-empty series.
- Python dicts keep insertion order, but Dafny maps do not. The order of the result maps is carried by the `SCHEMES` sequence instead: it fixes which draws each scheme consumes.
- `NETWORK PERFORMANCE SIMULATION.py` is not part of this model: the bandwidth conversion, the 2·RTT term and the projected totals.
- The default argument `n=10` of `hardware_benchmark_dynamic` has no counterpart: `HardwareBenchmark` always takes `n` explicitly. No behaviour is lost, because the script's only call passes `N_RUNS` = 10.

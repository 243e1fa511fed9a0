# AI-driven firewall: a Dafny model of the traffic decision core

The firewall captures raw frames and turns them into feature vectors. It screens each
vector with an anomaly detector. A flagged vector goes to a threat classifier, and a
confident classification blocks the source address with an iptables rule. A cleanup pass
lifts a block after an hour.

This project models that core in Dafny and proves properties of the model:

- the capture queue,
- the frame decoder and the two window aggregators,
- the detector's and the classifier's contracts,
- the engine's decision rule and its block registry,
- the bounded alert history,
- the dashboard's statistics.

Each stateful object of the program is a class whose methods are proved against pure
functions of the old state. What the program promises across calls is proved as lemmas
about those functions.

Files and modules:

| file | module | what it holds |
|---|---|---|
| `wrappers.dfy` | `Wrappers` | `Option` |
| `pyseq.dfy` | `PySeq` | Python's `s[:n]`, `s[k:]` and `s[lo:hi]`, including negative indexes |
| `statistics.dfy` | `Statistics` | column statistics as a parameter, `np.concatenate` of per-column blocks, sums, maximum, normalisation |
| `packets.dfy` | `Packets` | bytes and the packet-record dictionary (every key optional) |
| `packet_analyzer.dfy` | `PacketAnalysis` | big-endian header unpacking and its round trips, the fixed-offset decode, the five-statistic aggregate |
| `feature_engineer.dfy` | `FeatureEngineering` | the per-packet vector, the window gate and the seven-statistic aggregate, the fit-once scaler |
| `packet_capture.dfy` | `PacketCapturing` | the bounded capture queue |
| `alert_system.dfy` | `Alerting` | the 1000-record alert history |
| `dashboard.dfy` | `Dashboard` | counters and the 20-line activity list |
| `anomaly_detector.dfy` | `AnomalyDetection` | estimator choice, the fitted and `is_trained` transitions, every raise of `predict`, the -1 to 1 label conversion |
| `classifier.dfy` | `ThreatClassification` | class names, the fitted and `is_trained` transitions, both `predict` branches and its raises |
| `block_registry.dfy` | `BlockRegistry` | the registry as a value, the block and cleanup steps, properties over many detections |
| `firewall_engine.dfy` | `Engine` | the decision rule and the engine object |

Parameters stand in for everything outside the program's own logic:

- **scikit-learn:** the fitted estimator's label for a row is a `Row -> int`, and whether a fit completes is a `bool`.
- **numpy statistics:** a `Statistic` maps a statistic kind and a column to a value.
- **The classifier's probability row:** its `np.random.rand` row is a `seq<real>` of five values in `[0, 1)`.
- **`np.random.normal` noise:** `nat -> NormalDraw`.
- **Python's string `hash`:** `string -> int`.
- **Clocks:** engine time is `int` seconds. Packet time is `real`. Dashboard and alert times are strings.
- **iptables:** the outcome of each call is a `bool`, or a `string -> bool` for a cleanup pass.
- **Sockets and joblib files:** whether the socket opened and what a file read back are parameters.
- **The scalers:** whether a scaler's `transform` rejects a row (a row of another width than it was fitted on) is a `bool`.

Where a branch or an error case matters, the model states it explicitly:

- Each estimator records whether it has been fitted. `build_model` installs a fresh, unfitted
  estimator and does not reset `is_trained`. So a detector or classifier rebuilt after training
  still reports itself trained, but its `predict` raises `NotFittedError`. `RebuiltAfterTraining`
  in each module shows this.
- The detector's `predict` raises (`None`) when it is untrained, when its scaler rejects the row,
  or when its estimator is unfitted. The trained classifier's `predict` raises in the last two
  cases. In `analyze_traffic` either raise gives the error triple.
- `ntohs` is modelled for a little-endian host, so it swaps the two bytes.

The engine's specification functions are `Decide`, `AfterBlock`, `BlockCalls` and
`AfterCleanup`. The engine's methods are proved equal to them. The lemmas in `BlockRegistry`
and `Engine` then state what the engine promises.

`Decide`, and so `Engine.FirewallEngine.AnalyzeTraffic`, implements the intended decision rule.
`firewall_engine.py` calls `np.max` without importing numpy. As written, therefore, every flagged
vector gives the error triple and nothing is blocked. `DecideAsWritten` models the code as
written, and "## Findings" records the discrepancy.

Apart from that missing import, where the code and the system's specification disagree, the model follows the code:

- An entry expires when it is strictly older than 3600 seconds (`>`, not `>=`).
- Re-detecting a blocked address does not refresh its time.
- The 0.85 threshold is a constant.
- There is no release operation.
- `suspicious_ips` is exactly the map of block times, so it always has the same keys as `blocked_ips`.

## Model

| member | source | states |
|---|---|---|
| PySeq.Prefix | feature_engineer.py:22 | `s[:n]` has `min(n, len)` elements for `n >= 0` and `max(len + n, 0)` for negative `n`, taken from the front |
| PySeq.Suffix | src/monitoring/alert_system.py:78 | `s[k:]` has the Python length for either sign of `k` and is the tail of `s` |
| PySeq.Slice | packet_analyzer.py:23 | `s[lo:hi]` is as long as what lies between the clamped bounds and is that part of `s`, so a slice past the end is short |
| Statistics.Aggregate | packet_analyzer.py:82-90 | the concatenation is ten entries per statistic, and block `k` is the column-wise statistic `k` of the rows |
| Statistics.AggregateAt | packet_analyzer.py:82-90 | entry `10*k + j` of the concatenation is statistic `k` of column `j` |
| Statistics.MaxOf | firewall_engine.py:32 | `np.max` of a non-empty row is one of its entries and no entry exceeds it |
| Statistics.NormalisedIsDistribution | src/ml_models/classifier.py:73 | dividing a non-negative row with positive sum by its sum gives entries in `[0, 1]` that sum to one |
| PacketAnalysis.NtohsSwaps | packet_analyzer.py:25 | `ntohs` of the big-endian value of two bytes is their value with the bytes swapped |
| PacketAnalysis.UnpackEthernet | packet_analyzer.py:23-24 | `!6s6sH` succeeds exactly on 14 bytes, and the EtherType is the big-endian value of bytes 12-13 |
| PacketAnalysis.UnpackIpv4 | packet_analyzer.py:33-34 | `!BBHHHBBH4s4s` succeeds exactly on 20 bytes, with each field in its byte range |
| PacketAnalysis.UnpackTcp | packet_analyzer.py:50-51 | `!HHLLBBHHH` succeeds exactly on 20 bytes, with each field in its byte range |
| PacketAnalysis.EthernetRoundTrip | packet_analyzer.py:24 | unpacking the packed bytes of a valid Ethernet header gives the header back |
| PacketAnalysis.Ipv4RoundTrip | packet_analyzer.py:34 | unpacking the packed bytes of a valid IPv4 header gives the header back |
| PacketAnalysis.TcpRoundTrip | packet_analyzer.py:51 | unpacking the packed bytes of a valid TCP header gives the header back |
| PacketAnalysis.EthernetBytesRoundTrip | packet_analyzer.py:24 | packing what 14 bytes unpack to gives the same bytes |
| PacketAnalysis.Ipv4BytesRoundTrip | packet_analyzer.py:34 | packing what 20 bytes unpack to gives the same bytes |
| PacketAnalysis.TcpBytesRoundTrip | packet_analyzer.py:51 | packing what 20 bytes unpack to gives the same bytes |
| PacketAnalysis.Vector | packet_analyzer.py:27-30 | the feature vector has exactly ten entries |
| PacketAnalysis.FeaturesOf | packet_analyzer.py:17-63 | a frame under 14 bytes gives `None`; any vector has ten entries, and entry 0 is the frame length |
| PacketAnalysis.WriteIpv4 | packet_analyzer.py:36-46 | writing the IPv4 slots turns the zero-header vector into the vector with that IPv4 header |
| PacketAnalysis.WriteTcp | packet_analyzer.py:53-57 | writing the TCP slots adds that TCP header to the vector |
| PacketAnalysis.ExtractFeatures | packet_analyzer.py:17-63 | the array filled slot by slot equals the decode of the packet's raw bytes, and a missing `raw_data` gives `None` |
| PacketAnalysis.Ipv4BranchIffEtherType | packet_analyzer.py:24-32 | on a little-endian host the IPv4 branch is taken exactly when bytes 12-13 are 0x08 0x00 |
| PacketAnalysis.NonIpv4Frame | packet_analyzer.py:27-32 | a frame of 14 or more bytes that is not IPv4 gives its length followed by nine zeros |
| PacketAnalysis.ZeroFrame | tests/test_firewall.py:39-45 | one hundred zero bytes give `[100, 0, …, 0]`, which is not `None` |
| PacketAnalysis.ShortIpv4Frame | packet_analyzer.py:33-34 | an IPv4 frame shorter than 34 bytes gives `None` |
| PacketAnalysis.Ipv4Fields | packet_analyzer.py:36-46 | entries 9, 2 and 1 are bytes 15, 22 and 23; entry 8 is the big-endian value of bytes 20-21 masked to 13 bits, so it is below 8192 |
| PacketAnalysis.Ipv4FrameDecodes | packet_analyzer.py:32-51 | an IPv4 frame of 34 or more bytes decodes iff it is not a TCP frame of 35 to 53 bytes |
| PacketAnalysis.ShortTcpFrame | packet_analyzer.py:49-51 | a TCP-over-IPv4 frame of 35 to 53 bytes gives `None` |
| PacketAnalysis.TcpFields | packet_analyzer.py:49-57 | a TCP frame of 54 or more bytes decodes; ports, flags, window and urgent pointer are read at fixed offsets 34-35, 36-37, 47, 48-49 and 52-53 |
| PacketAnalysis.NoTcpFields | packet_analyzer.py:49-57 | when the TCP branch is not taken, entries 3 to 7 are zero |
| PacketAnalysis.ParsedRows | packet_analyzer.py:70-74 | the kept vectors are rectangular and are at most as many as the packets |
| PacketAnalysis.SkipsUndecodable | packet_analyzer.py:72-74 | a packet that does not decode adds nothing to the kept vectors |
| PacketAnalysis.AppendsDecodable | packet_analyzer.py:72-74 | a packet that decodes adds its vector at the end |
| PacketAnalysis.TrafficFeatures | packet_analyzer.py:65-90 | `None` exactly for no packets or no decodable packet; otherwise 50 values, in blocks of mean, std, max, min and median of the kept vectors |
| PacketAnalysis.CreateTrafficFeatures | packet_analyzer.py:65-90 | the loop's result equals `TrafficFeatures`, for any `window_size` |
| FeatureEngineering.ModThousand | feature_engineer.py:65 | Python's float `% 1000` lies in `[0, 1000)` and differs from the input by a whole multiple of 1000 |
| FeatureEngineering.PacketVector | feature_engineer.py:53-81 | the per-packet vector has ten entries |
| FeatureEngineering.PacketVectorFields | feature_engineer.py:56-75 | entry 0 is the raw length (0 if absent); entries 3 and 4 are the ports mod 100 in `[0, 100)`; entry 5 is the TCP flags (0 if absent); entries 1 and 2 are in `[0, 10)` and `[0, 1000)`; entries 6-9 are the noise |
| FeatureEngineering.WindowRows | feature_engineer.py:21-25 | one vector per examined packet, all of the same width |
| FeatureEngineering.WindowGate | feature_engineer.py:15-17 | for a positive window, the result is `None` exactly when fewer packets than the window are offered |
| FeatureEngineering.EmptyWindow | feature_engineer.py:22-28 | for a window of zero or less the result is `None` iff the window is zero or drops every packet |
| FeatureEngineering.WindowShape | feature_engineer.py:33-44 | a present result has 70 values: mean, std, median, max, min, 75th and 25th percentile of the window's vectors, ten each, in that order |
| FeatureEngineering.OnlyWindowCounts | feature_engineer.py:22 | packets after the first `window_size` have no influence on the result |
| FeatureEngineering.Standardise | feature_engineer.py:89 | the transform is defined exactly for a non-empty row of the fitted width |
| FeatureEngineering.FittedRowIsZero | feature_engineer.py:85-89 | the row the scaler was fitted on normalises to zeros |
| FeatureEngineering.FeatureEngineer.constructor | feature_engineer.py:9-11 | a new engineer is not fitted |
| FeatureEngineering.FeatureEngineer.ExtractPacketFeatures | feature_engineer.py:53-81 | the array written slot by slot is the packet's vector |
| FeatureEngineering.FeatureEngineer.CreateTrafficFeatures | feature_engineer.py:13-51 | the loop's result equals `WindowFeatures` |
| FeatureEngineering.FeatureEngineer.NormalizeFeatures | feature_engineer.py:83-89 | only the first call with a non-empty row fits; once fitted, the flag stays set and the fitted row never changes; the result is the transform under the current fit |
| PacketCapturing.CaptureRecord | src/network/packet_capture.py:41-46 | a captured record carries the raw bytes, their length, the arrival time and the configured interface |
| PacketCapturing.PacketCapture.constructor | src/network/packet_capture.py:12-17 | a new capture has an empty queue and is not capturing |
| PacketCapturing.PacketCapture.StartCapture | src/network/packet_capture.py:19-32 | the flag is raised only when the socket opened; the queue is unchanged |
| PacketCapturing.PacketCapture.CaptureStep | src/network/packet_capture.py:34-52 | while capturing, the record is appended at the back only if the queue holds fewer than `max_pps`; otherwise the queue is unchanged and nothing is evicted; the bound is kept |
| PacketCapturing.PacketCapture.GetPackets | src/network/packet_capture.py:54-60 | returns the oldest `min(max(count, 0), len)` records in arrival order and leaves the remaining suffix |
| PacketCapturing.PacketCapture.StopCapture | src/network/packet_capture.py:62-67 | the flag is cleared and the queue is kept |
| Alerting.EmailNeedsFlag | src/monitoring/alert_system.py:21-22 | the e-mail path is taken iff the `email_alerts` section exists and its `enabled` key is true |
| Alerting.TrimmedIsNewest | src/monitoring/alert_system.py:52-54 | trimming keeps exactly the newest `min(len, 1000)` records, in order |
| Alerting.LoggedIsNewest | src/monitoring/alert_system.py:43-54 | after logging, the new record is the last one and the history has `min(len + 1, 1000)` records |
| Alerting.AlertSystem.constructor | src/monitoring/alert_system.py:9-11 | a new system has an empty history |
| Alerting.AlertSystem.SendAlert | src/monitoring/alert_system.py:13-25 | one unacknowledged record is logged, the history is the trimmed `old + [new]`, and the e-mail path follows the configuration |
| Alerting.AlertSystem.LogAlert | src/monitoring/alert_system.py:43-54 | the history becomes the last 1000 of `old + [new]`, with `acknowledged` false |
| Alerting.AlertSystem.GetRecentAlerts | src/monitoring/alert_system.py:76-78 | `count >= 1` gives the newest `min(count, len)` records in order; 0 gives the whole history; negative `count` drops that many from the front |
| Alerting.AlertSystem.AcknowledgeAlert | src/monitoring/alert_system.py:80-83 | an index in range sets that record's flag only; any other index changes nothing |
| Dashboard.UpdatedActivityShape | src/monitoring/dashboard.py:219-225 | after an update at most 20 lines remain; a truthy activity is line 0 as `"<ts> - <activity>"`, followed by the newest old lines; a falsy one adds nothing |
| Dashboard.FirewallDashboard.constructor | src/monitoring/dashboard.py:171-182 | the three counters start at 0 and the activity list is the one startup line |
| Dashboard.FirewallDashboard.UpdateStats | src/monitoring/dashboard.py:213-225 | the counters are overwritten with the arguments, and the list is the updated activity |
| Dashboard.FirewallDashboard.ClearLogs | src/monitoring/dashboard.py:201-204 | the list becomes one "Logs cleared at" line; the counters are unchanged |
| Dashboard.FirewallDashboard.TestAlert | src/monitoring/dashboard.py:206-211 | threats go up by one and one line is prepended, with no truncation |
| AnomalyDetection.Labels | src/ml_models/anomaly_detector.py:59 | one label per input row |
| AnomalyDetection.ToBinary | src/ml_models/anomaly_detector.py:61-62 | output `i` is 1 iff label `i` is -1, and every output is 0 or 1 |
| AnomalyDetection.ModelFor | src/ml_models/anomaly_detector.py:18-34 | an estimator exists exactly for `isolation_forest` and `svm` |
| AnomalyDetection.AnomalyDetector.constructor | src/ml_models/anomaly_detector.py:12-16 | a new detector has no estimator, nothing fitted, and is not trained |
| AnomalyDetection.AnomalyDetector.BuildModel | src/ml_models/anomaly_detector.py:18-34 | succeeds exactly for the two supported types and installs an unfitted estimator; `is_trained` is left alone |
| AnomalyDetection.AnomalyDetector.Train | src/ml_models/anomaly_detector.py:36-51 | the estimator becomes fitted and `is_trained` true only after a completed fit on an existing estimator; otherwise both keep their old values |
| AnomalyDetection.AnomalyDetector.Predict | src/ml_models/anomaly_detector.py:53-62 | raises (`None`) exactly when untrained, when the scaler rejects the rows, or when the estimator is unfitted; otherwise one flag per row, 1 iff the estimator says -1 |
| AnomalyDetection.AnomalyDetector.SaveModel | src/ml_models/anomaly_detector.py:64-71 | writes exactly when trained, with the estimator as it is, fitted or not |
| AnomalyDetection.AnomalyDetector.LoadModel | src/ml_models/anomaly_detector.py:73-80 | a missing file changes nothing; a file that reads back installs its estimator and sets `is_trained`; one that does not read back raises |
| AnomalyDetection.RebuiltAfterTraining | src/ml_models/anomaly_detector.py:18-59 | build, train, build again: the detector reports itself trained, yet `predict` raises |
| ThreatClassification.Normalised | src/ml_models/classifier.py:73 | a normalised row has five entries |
| ThreatClassification.ModelFor | src/ml_models/classifier.py:25-43 | an estimator exists exactly for `random_forest` and `neural_network` |
| ThreatClassification.ThreatName | firewall_engine.py:34-36 | the class map's name for a known label, `"Unknown"` otherwise |
| ThreatClassification.DefaultNames | src/ml_models/classifier.py:17-23 | labels 0 to 4 name Normal, Port Scan, DDoS, Malware and Brute Force; any other label is Unknown |
| ThreatClassification.UniformRowFacts | src/ml_models/classifier.py:66 | the untrained row is a distribution whose largest entry is 0.2 |
| ThreatClassification.ThreatClassifier.constructor | src/ml_models/classifier.py:12-23 | a new classifier has nothing fitted, is untrained and has the default class names |
| ThreatClassification.ThreatClassifier.BuildModel | src/ml_models/classifier.py:25-43 | succeeds exactly for the two supported types and installs an unfitted estimator; the flag and the class names are unchanged |
| ThreatClassification.ThreatClassifier.Train | src/ml_models/classifier.py:45-60 | the estimator becomes fitted and `is_trained` true only after a completed fit; nothing else changes |
| ThreatClassification.ThreatClassifier.Predict | src/ml_models/classifier.py:62-75 | untrained: all labels 0 and all rows 0.2; trained: raises (`None`) exactly when the scaler rejects the rows or the estimator is unfitted, and otherwise gives the estimator's labels and one five-entry row per input |
| ThreatClassification.ThreatClassifier.SaveModel | src/ml_models/classifier.py:77-84 | writes the estimator, fitted or not, and the class names exactly when trained |
| ThreatClassification.ThreatClassifier.LoadModel | src/ml_models/classifier.py:86-97 | success installs the estimator, replaces the class names only if saved, and sets `is_trained`; failure clears `is_trained` |
| ThreatClassification.PredictionsAreDistributions | src/ml_models/classifier.py:62-75 | every probability row of a `predict` that does not raise, trained or not, is a distribution |
| ThreatClassification.RebuiltAfterTraining | src/ml_models/classifier.py:25-69 | build, train, build again: the classifier reports itself trained, yet `predict` raises |
| BlockRegistry.Argv | firewall_engine.py:68-70 | the call reads `iptables -A\|-D INPUT -s <ip> -j DROP`, with `-A` for a block and `-D` for a removal |
| BlockRegistry.Expired | firewall_engine.py:83-88 | an address is expired iff it is in `suspicious_ips` and `now - t > 3600` |
| BlockRegistry.BlockKeepsInv | firewall_engine.py:62-64 | blocking keeps the keys of `suspicious_ips` equal to `blocked_ips`, and keeps the empty address out |
| BlockRegistry.CleanupKeepsInv | firewall_engine.py:90-97 | a cleanup pass keeps the same invariant |
| BlockRegistry.RejectedBlock | firewall_engine.py:58-60 | a missing, empty or already blocked address changes nothing and makes no call, so the old time is not refreshed |
| BlockRegistry.FreshBlock | firewall_engine.py:62-76 | a fresh address is added with time `now`, and exactly one add-rule call follows, whatever its outcome |
| BlockRegistry.BlockIdempotent | firewall_engine.py:56-64 | blocking an address twice is blocking it once, and the second time makes no call |
| BlockRegistry.CleanupByAge | firewall_engine.py:83-102 | an entry at most an hour old is kept with its time; an older one is removed from both structures iff its remove-rule call succeeds |
| BlockRegistry.CleanupOnlyRemoves | firewall_engine.py:90-102 | a cleanup pass adds nothing and changes no kept time |
| BlockRegistry.BlockAllCounts | firewall_engine.py:56-76 | over any sequence of detections the blocked set only grows, and by exactly the number of add-rule calls |
| BlockRegistry.BlockAllKeepsTimes | firewall_engine.py:56-64 | over any sequence of detections the invariant holds, and an address blocked before keeps its original time |
| BlockRegistry.AddCallsDistinct | firewall_engine.py:56-76 | between cleanups the add-rule calls name pairwise distinct addresses, none blocked before and all blocked after |
| BlockRegistry.DistinctFreshBlocks | firewall_engine.py:56-76 | N distinct fresh addresses give exactly N add-rule calls and exactly those N new entries |
| Engine.NormalWhenNotFlagged | firewall_engine.py:27-50 | a falsy screen gives `(False, "Normal", 0.0)` and no block |
| Engine.ErrorWhenRaised | firewall_engine.py:52-54 | a screen that raised, or a classification that raised, gives `(False, "Error", 0.0)` and no block |
| Engine.FlaggedDetection | firewall_engine.py:31-48 | a flagged, classified vector gives `(True, name, conf)`, with `conf` the row maximum, `name` from the class map or "Unknown", and a block requested iff `conf > 0.85` |
| Engine.BlockNeedsThreat | firewall_engine.py:45-48 | a block is only requested for a reported threat above 0.85 |
| Engine.NoBlockAtThreshold | firewall_engine.py:45 | a maximum of exactly 0.85 is never blocked |
| Engine.AsWrittenNeverDetects | firewall_engine.py:32 | as written, no vector is reported as a threat and nothing is blocked; a flagged vector gives the error result |
| Engine.MissingImportWitness | firewall_engine.py:31-54 | a flagged DDoS row with maximum 0.9 is blocked by the intended rule but is an error as written |
| Engine.Screen | firewall_engine.py:27 | the screen is `None` iff the detector is untrained, its estimator is unfitted or its scaler rejects the row, and otherwise is 1 iff the estimator says -1 |
| Engine.DetectorFaultErrs | firewall_engine.py:27-54 | a detector whose `predict` raises (untrained, unfitted estimator, rejected row) gives the error result for every vector |
| Engine.ClassifierFaultErrs | firewall_engine.py:31-54 | a flagged vector whose classification raises (trained but unfitted, or rejected row) gives the error result and no block |
| Engine.UntrainedClassifierNeverBlocks | firewall_engine.py:31-48 | with an untrained classifier, whatever its class names, nothing is blocked, and a flag is reported under label 0's name with confidence 0.2 |
| Engine.UntrainedDefaultClassifierSaysNormal | firewall_engine.py:31-48 | under the default class names that report is "Normal" |
| Engine.FirewallEngine.constructor | firewall_engine.py:10-21 | a new engine has an empty registry |
| Engine.FirewallEngine.AnalyzeTraffic | firewall_engine.py:23-54 | returns the intended decision's triple (`Decide`, with `numpy` imported), including the error triple for either estimator's raise; it changes the registry and makes calls exactly as `_block_threat` does when a block is requested |
| Engine.FirewallEngine.BlockThreat | firewall_engine.py:56-76 | the registry becomes `AfterBlock` of the old one, with its calls |
| Engine.FirewallEngine.CleanupPass | firewall_engine.py:78-102 | the registry becomes `AfterCleanup`; one remove-rule call per expired address, each with its outcome |
| Engine.FirewallEngine.Unblock | firewall_engine.py:96-97 | both structures lose the address |
| Engine.FirewallEngine.GetStatus | firewall_engine.py:104-113 | both counts, which are equal; the blocked addresses listed once each; the two trained flags |

## Findings

| source | as written | input that shows it | evidently intended | confidence | as-written member | corrected member |
|---|---|---|---|---|---|---|
| firewall_engine.py:1-5, 32 | `np.max` is called but `numpy` is never imported, so every flagged vector raises `NameError`; the handler returns `(False, "Error", 0.0)`, and the engine never blocks | a flagged vector that the classifier labels 2 with probability row `[0.9, 0.025, 0.025, 0.025, 0.025]` | report `(True, "DDoS", 0.9)` and block the source | high (not executed) | Engine.DecideAsWritten, Engine.AsWrittenNeverDetects, Engine.MissingImportWitness | Engine.Decide, Engine.FlaggedDetection, Engine.FirewallEngine.AnalyzeTraffic |

## Left out

- Threads, locks and sleeps are not modelled: the cleanup thread, the capture thread, the dashboard and main-loop threads, and `time.sleep(300)`. Lock sections are sequential code, and one cleanup pass or one capture iteration is one method call.
- The race in `_block_threat` is not modelled. The blocked check happens outside the lock, so two threads can both pass it and make two add-rule calls. The sequential model cannot show this.
- Engine.FirewallEngine.CleanupPass: makes its calls in an unspecified order instead of the dictionary's insertion order; the resulting registry does not depend on the order.
- Exceptions from `subprocess.run` other than `CalledProcessError` are not modelled, for example a missing `iptables` binary. They would escape `_block_threat` and `_cleanup_loop`.
- Floating-point arithmetic is modelled as exact reals: the statistics, the probability normalisation, the timestamp modulo and the scaler.
- numpy's statistics and scikit-learn's fitting and prediction are parameters, not models. So are `np.random`, Python's randomised `hash`, and `time.time()`.
- ThreatClassification.ValidDraw: excludes a random row of five zeros, which has probability zero and would divide by zero in the normalisation.
- ThreatClassification.ThreatClassifier.Predict: the trained branch says nothing about the estimator's labels beyond the label function. The scaler's transform enters only through that function and the flag saying whether it raises.
- ThreatClassification.ThreatClassifier.LoadModel: a file that raises after `model` was assigned but before `threat_classes` was is modelled as a failure that assigns nothing.
- AnomalyDetection.AnomalyDetector.LoadModel: a file that holds `model` but lacks `scaler` is modelled as a read that raises before anything is assigned.
- The scalers inside the detector and the classifier are not modelled beyond whether `transform` raises. `save_model` files hold the estimator, whether it was fitted, and the class names only.
- Default arguments are not modelled: every parameter is passed explicitly. This covers `get_packets(count=100)`, `get_recent_alerts(count=10)`, `create_traffic_features(window_size=100)` in both modules, the constructors' `model_type`, `interface`, `max_pps` and `port`, and `update_stats`' zeros and `None`.
- Alerting.AlertSystem.GetRecentAlerts and Alerting.AlertSystem.AcknowledgeAlert: the source hands out the stored alert dicts themselves, so a caller that mutates a returned alert changes the history. The model returns values, so it does not capture that aliasing.
- Alerting.AlertSystem.SendAlert: the text of the alert message and its `:.2%` formatting are not modelled, and the two `datetime.now()` readings are taken as one.
- Sending e-mail over SMTP is not modelled. `SendAlert` only reports whether the e-mail path is taken.
- The `MimeText` import error is not modelled. alert_system.py imports a name that does not exist, so the module fails to import as written.
- The dashboard's Flask routes, its HTML and JavaScript, the `/api/status` and `/api/health` payloads, and `time.strftime` are not modelled. The formatted time is a string parameter.
- The raw socket, `recvfrom`, and `socket.close` are not modelled. Whether the socket opened and each frame received are parameters.
- PacketCapturing.PacketCapture.constructor: takes `max_pps` as a `nat`, because `deque(maxlen=...)` refuses a negative bound.
- PacketAnalysis.NtohsSwaps: states the little-endian host only; on a big-endian host `ntohs` is the identity and the IPv4 branch would test EtherType 0x0008.
- FeatureEngineering.FeatureEngineer.ExtractPacketFeatures: its exception path is not modelled. Its record fields are typed, so its `except` branch cannot be reached in the model.
- main.py, the data manager, the data loader, the model trainer, the helpers and the logger are not part of this model: they are simulation, persistence, training and logging glue.
- Calling `build_model` after training is modelled as written. It replaces the estimator and leaves `is_trained` true.

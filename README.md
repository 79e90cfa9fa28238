# Kademlia Statistician, modelled in Dafny

A Kademlia node keeps in-memory statistics about itself for one session. These are:

- how many bytes it sent and received, and in how many messages;
- how long its last bootstrap took;
- how many content lookups it made, their total time and their total route length.

The Java class `kademlia.Statistician` holds these as eight mutable fields. Four mutators update them in place. Getters and two averages read them.

The model has two modules.

- `StatisticianHistory` (history.dfy) is the reference, written on values:
  - `Stats` is a record of the eight counters.
  - `Event` is one mutator call.
  - `Step` applies one call to a `Stats`.
  - `Run` replays a call history.
  - `SumSent`, `CountSent`, `LastBootstrap`, `CountLookups`, ... compute what a history adds up to, independently of `Step`.
  - Inductive lemmas connect `Run` to those aggregates.
- `Kademlia` (statistician.dfy) holds the class `Statistician`.
  - It has the same eight fields plus a ghost `history` of the calls made on it.
  - Its invariant `Valid()` says that the fields are `Run(Initial(), history)`.
  - Each mutator names exactly the fields the Java method assigns in its `modifies` frame (``this`totalDataSent``, ...). So "nothing else changes" is enforced by the frame.
  - Each mutator's `ensures` states the new value of every field it touches and the call appended to `history`.
  - The getters are functions that read the fields. Their contracts say what the value means in terms of the calls made so far (a sum, a count, the last value written).

Counters, sizes, times and route lengths are unbounded naturals.

## Model

| member | source | states |
|---|---|---|
| `Kademlia.Statistician.constructor` | src/kademlia/Statistician.java:17-36 | a new instance has all eight counters at zero (the two message counts by Java's field defaults) and an empty call history |
| `Kademlia.Statistician.SentData` | src/kademlia/Statistician.java:43-47 | `totalDataSent` grows by exactly `size` and `numDataSent` by exactly 1; the frame allows no other counter to change; the invariant is kept |
| `Kademlia.Statistician.ReceivedData` | src/kademlia/Statistician.java:62-66 | `totalDataReceived` grows by exactly `size` and `numDataReceived` by exactly 1; no other counter changes; the invariant is kept |
| `Kademlia.Statistician.SetBootstrapTime` | src/kademlia/Statistician.java:81-84 | `bootstrapTime` becomes `time` (overwritten, not added); no other counter changes |
| `Kademlia.Statistician.AddContentLookup` | src/kademlia/Statistician.java:97-102 | `numContentLookups` grows by 1, `totalContentLookupTime` by `time` and `totalRouteLength` by `routeLength`, in one call; no other counter changes |
| `Kademlia.Statistician.GetTotalDataSent` | src/kademlia/Statistician.java:52-55 | reads without side effects and returns `totalDataSent`, which equals the sum of the sizes of every `sentData` call so far |
| `Kademlia.Statistician.GetTotalDataReceived` | src/kademlia/Statistician.java:71-74 | returns `totalDataReceived`, which equals the sum of the sizes of every `receivedData` call so far |
| `Kademlia.Statistician.GetBootstrapTime` | src/kademlia/Statistician.java:86-89 | returns `bootstrapTime`, which is the time given to the last `setBootstrapTime` call, or 0 before any (last write wins) |
| `Kademlia.Statistician.NumContentLookups` | src/kademlia/Statistician.java:104-107 | returns `numContentLookups`, which equals the number of `addContentLookup` calls so far |
| `Kademlia.Statistician.TotalContentLookupTime` | src/kademlia/Statistician.java:109-112 | returns `totalContentLookupTime`, which equals the sum of the times of every `addContentLookup` call so far |
| `Kademlia.Statistician.AverageContentLookupTime` | src/kademlia/Statistician.java:119-121 | with at least one lookup, the result is the exact unrounded mean lookup time in milliseconds: result × 1,000,000 × `numContentLookups` = `totalContentLookupTime` (nanoseconds); it is never negative. Combined with the two getters above, this is the mean over all `addContentLookup` calls |
| `Kademlia.Statistician.AverageContentLookupRouteLength` | src/kademlia/Statistician.java:126-128 | with at least one lookup, the result is the exact unrounded mean route length: result × `numContentLookups` = `totalRouteLength`; never negative |
| `StatisticianHistory.RunDataSent` | src/kademlia/Statistician.java:43-47 | after any sequence of calls, the total sent has grown by the sum of the `sentData` sizes and the send count by the number of `sentData` calls |
| `StatisticianHistory.RunDataReceived` | src/kademlia/Statistician.java:62-66 | after any sequence of calls, the total received has grown by the sum of the `receivedData` sizes and the receive count by the number of `receivedData` calls |
| `StatisticianHistory.RunBootstrap` | src/kademlia/Statistician.java:81-84 | after any sequence of calls, the bootstrap time is the one given by the last `setBootstrapTime` call, or the starting value if there was none |
| `StatisticianHistory.RunContentLookups` | src/kademlia/Statistician.java:97-102 | after any sequence of calls, the lookup count, total lookup time and total route length have grown by the number of `addContentLookup` calls and by the sums of their times and route lengths |
| `StatisticianHistory.RunMonotone` | src/kademlia/Statistician.java:43-102 | no sequence of calls ever decreases any counter except `bootstrapTime` |
| `StatisticianHistory.NoLookupsNoLookupTotals` | src/kademlia/Statistician.java:97-102 | a history with no `addContentLookup` call adds no lookup time and no route length |
| `StatisticianHistory.LookupTripleMovesTogether` | src/kademlia/Statistician.java:97-102 | if a sequence of calls leaves the lookup count unchanged, it also leaves the total lookup time and the total route length unchanged |
| `StatisticianHistory.SentCallsFromFresh` | src/kademlia/Statistician.java:43-55 | N `sentData` calls with sizes s1..sN on a fresh instance leave `totalDataSent` = s1+...+sN, `numDataSent` = N and every other counter at 0 |
| `StatisticianHistory.ReceivedCallsFromFresh` | src/kademlia/Statistician.java:62-74 | N `receivedData` calls with sizes s1..sN on a fresh instance leave `totalDataReceived` = s1+...+sN, `numDataReceived` = N and every other counter at 0 |

`Kademlia.BootstrapExample`, `Kademlia.DataExample` and `Kademlia.LookupExample` are clients that use only the contracts above. They replay concrete sessions and assert the results:

- two bootstrap times in a row, where the second one wins;
- sends of 100 and 50 bytes and a receive of 30 bytes;
- lookups of (2,000,000 ns, 3 hops) and (4,000,000 ns, 5 hops), which average 3.0 ms and 4.0 hops.

## Left out

- Kademlia.Statistician.AverageContentLookupTime: computes only the exact real ratio. Java's `double` division, the `DecimalFormat("#.00")` rounding (HALF_EVEN, locale-dependent separator) and re-parsing the result with `new Double(String)` are floating point and library formatting, so they are not modelled.
- Kademlia.Statistician.AverageContentLookupRouteLength: the same; only the exact real ratio is modelled.
- Both averages with zero lookups: in Java, the `double` division by zero gives NaN, and re-parsing the formatted NaN depends on the JDK. The model requires `numContentLookups > 0` instead.
- `toString` (src/kademlia/Statistician.java:133-170): building the string embeds the rounded `double` renderings of the averages, so it is left out with them.
- Java `long`/`int` overflow: the counters are unbounded naturals, so two's-complement wrap-around after 2^63 bytes or 2^31 lookups is not modelled.
- Negative arguments: the Java methods accept negative `long`/`int` values. The model takes naturals, treating negative sizes, times and route lengths as a caller error.
- Concurrency: the Java class has no synchronisation. The model is sequential.
- `numDataSent` and `numDataReceived` have no getter in the Java class. The model reads them as fields, as `toString` does.

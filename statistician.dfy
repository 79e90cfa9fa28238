/** The statistics a Kademlia node keeps about itself for the length of one session:
    data sent and received, the bootstrap time, and content lookup timings and route
    lengths. Nothing is persisted; everything is lost when the node shuts down. */
module Kademlia {
  import opened StatisticianHistory

  class Statistician {
    // How much data the node sent and received over the network, and in how many messages.
    var totalDataSent: nat
    var totalDataReceived: nat
    var numDataSent: nat
    var numDataReceived: nat

    // The time the last bootstrap took, in nanoseconds.
    var bootstrapTime: nat

    // Content lookups: how many, their total time in nanoseconds and total route length.
    var numContentLookups: nat
    var totalContentLookupTime: nat
    var totalRouteLength: nat

    /** The mutator calls made on this object so far, oldest first. */
    ghost var history: seq<Event>

    /** The current counters as a value. */
    function State(): Stats
      reads this
    {
      Stats(totalDataSent, totalDataReceived, numDataSent, numDataReceived,
            bootstrapTime, numContentLookups, totalContentLookupTime, totalRouteLength)
    }

    /** The counters are exactly what the recorded calls produce from a fresh instance. */
    ghost predicate Valid()
      reads this
    {
      State() == Run(Initial(), history)
    }

    /** A new Statistician starts with every counter at zero and no calls recorded. */
    constructor ()
      ensures Valid() && history == []
      ensures totalDataSent == 0 && totalDataReceived == 0
      ensures numDataSent == 0 && numDataReceived == 0
      ensures bootstrapTime == 0
      ensures numContentLookups == 0 && totalContentLookupTime == 0 && totalRouteLength == 0
    {
      totalDataSent := 0;
      totalDataReceived := 0;
      numDataSent := 0;
      numDataReceived := 0;
      bootstrapTime := 0;
      numContentLookups := 0;
      totalContentLookupTime := 0;
      totalRouteLength := 0;
      history := [];
    }

    /** Records that `size` bytes were sent: the total sent grows by `size`, the send
        count by one, and no other counter changes. */
    method SentData(size: nat)
      requires Valid()
      modifies this`totalDataSent, this`numDataSent, this`history
      ensures Valid() && history == old(history) + [DataSent(size)]
      ensures totalDataSent == old(totalDataSent) + size
      ensures numDataSent == old(numDataSent) + 1
    {
      totalDataSent := totalDataSent + size;
      numDataSent := numDataSent + 1;
      RunSnoc(Initial(), history, DataSent(size));
      history := history + [DataSent(size)];
    }

    /** Records that `size` bytes were received: the total received grows by `size`, the
        receive count by one, and no other counter changes. */
    method ReceivedData(size: nat)
      requires Valid()
      modifies this`totalDataReceived, this`numDataReceived, this`history
      ensures Valid() && history == old(history) + [DataReceived(size)]
      ensures totalDataReceived == old(totalDataReceived) + size
      ensures numDataReceived == old(numDataReceived) + 1
    {
      totalDataReceived := totalDataReceived + size;
      numDataReceived := numDataReceived + 1;
      RunSnoc(Initial(), history, DataReceived(size));
      history := history + [DataReceived(size)];
    }

    /** Sets the bootstrap time, in nanoseconds, replacing any earlier value; no other
        counter changes. */
    method SetBootstrapTime(time: nat)
      requires Valid()
      modifies this`bootstrapTime, this`history
      ensures Valid() && history == old(history) + [BootstrapTimeSet(time)]
      ensures bootstrapTime == time
    {
      bootstrapTime := time;
      RunSnoc(Initial(), history, BootstrapTimeSet(time));
      history := history + [BootstrapTimeSet(time)];
    }

    /** Records one content lookup that took `time` nanoseconds over a route of
        `routeLength` hops: the lookup count grows by one, the total lookup time by `time`
        and the total route length by `routeLength`, together; no other counter changes. */
    method AddContentLookup(time: nat, routeLength: nat)
      requires Valid()
      modifies this`numContentLookups, this`totalContentLookupTime, this`totalRouteLength, this`history
      ensures Valid() && history == old(history) + [ContentLookup(time, routeLength)]
      ensures numContentLookups == old(numContentLookups) + 1
      ensures totalContentLookupTime == old(totalContentLookupTime) + time
      ensures totalRouteLength == old(totalRouteLength) + routeLength
    {
      numContentLookups := numContentLookups + 1;
      totalContentLookupTime := totalContentLookupTime + time;
      totalRouteLength := totalRouteLength + routeLength;
      RunSnoc(Initial(), history, ContentLookup(time, routeLength));
      history := history + [ContentLookup(time, routeLength)];
    }

    /** The total data sent: the sum of the sizes of every sentData call so far. */
    function GetTotalDataSent(): (r: nat)
      reads this
      requires Valid()
      ensures r == totalDataSent
      ensures r == SumSent(history)
    {
      RunDataSent(Initial(), history);
      totalDataSent
    }

    /** The total data received: the sum of the sizes of every receivedData call so far. */
    function GetTotalDataReceived(): (r: nat)
      reads this
      requires Valid()
      ensures r == totalDataReceived
      ensures r == SumReceived(history)
    {
      RunDataReceived(Initial(), history);
      totalDataReceived
    }

    /** The bootstrap time: the value of the last setBootstrapTime call, or zero before any. */
    function GetBootstrapTime(): (r: nat)
      reads this
      requires Valid()
      ensures r == bootstrapTime
      ensures r == LastBootstrap(history, 0)
    {
      RunBootstrap(Initial(), history);
      bootstrapTime
    }

    /** The number of addContentLookup calls so far. */
    function NumContentLookups(): (r: nat)
      reads this
      requires Valid()
      ensures r == numContentLookups
      ensures r == CountLookups(history)
    {
      RunContentLookups(Initial(), history);
      numContentLookups
    }

    /** The total lookup time in nanoseconds: the sum of the times of every
        addContentLookup call so far. */
    function TotalContentLookupTime(): (r: nat)
      reads this
      requires Valid()
      ensures r == totalContentLookupTime
      ensures r == SumLookupTime(history)
    {
      RunContentLookups(Initial(), history);
      totalContentLookupTime
    }

    /** The mean lookup time in milliseconds, before any rounding: the total lookup time
        over the number of lookups, taken from nanoseconds to milliseconds. */
    function AverageContentLookupTime(): (r: real)
      reads this
      requires numContentLookups > 0
      ensures r >= 0.0
      ensures (r * 1000000.0) * (numContentLookups as real) == totalContentLookupTime as real
    {
      MeanTimesCount(totalContentLookupTime, numContentLookups, 1000000.0);
      Mean(totalContentLookupTime, numContentLookups, 1000000.0)
    }

    /** The mean route length of a lookup, before any rounding. */
    function AverageContentLookupRouteLength(): (r: real)
      reads this
      requires numContentLookups > 0
      ensures r >= 0.0
      ensures r * (numContentLookups as real) == totalRouteLength as real
    {
      MeanTimesCount(totalRouteLength, numContentLookups, 1.0);
      Mean(totalRouteLength, numContentLookups, 1.0)
    }
  }

  /** `total` spread over `count`, then divided by `scale` (a unit conversion). */
  function Mean(total: nat, count: nat, scale: real): real
    requires count > 0 && scale > 0.0
  {
    (total as real / count as real) / scale
  }

  /** The mean, scaled back and multiplied by the count, is the total; it is never negative. */
  lemma MeanTimesCount(total: nat, count: nat, scale: real)
    requires count > 0 && scale > 0.0
    ensures Mean(total, count, scale) >= 0.0
    ensures (Mean(total, count, scale) * scale) * (count as real) == total as real
  {
    var perCount := total as real / count as real;
    assert perCount * (count as real) == total as real;
    assert Mean(total, count, scale) * scale == perCount;
  }

  // Three sessions as a caller sees them: only the contracts above are used.

  /** Two bootstrap times in a row: the second one wins. */
  method BootstrapExample()
  {
    var stats := new Statistician();
    stats.SetBootstrapTime(500);
    stats.SetBootstrapTime(700);
    assert stats.GetBootstrapTime() == 700;
  }

  /** Sends of 100 and 50 bytes, then a receive of 30 bytes. */
  method DataExample()
  {
    var stats := new Statistician();
    stats.SentData(100);
    stats.SentData(50);
    stats.ReceivedData(30);
    assert stats.GetTotalDataSent() == 150 && stats.numDataSent == 2;
    assert stats.GetTotalDataReceived() == 30 && stats.numDataReceived == 1;
  }

  /** Lookups of 2 ms over 3 hops and 4 ms over 5 hops: averages 3 ms and 4 hops. */
  method LookupExample()
  {
    var stats := new Statistician();
    stats.AddContentLookup(2000000, 3);
    stats.AddContentLookup(4000000, 5);
    assert stats.NumContentLookups() == 2;
    assert stats.TotalContentLookupTime() == 6000000;
    assert stats.AverageContentLookupTime() == 3.0;
    assert stats.AverageContentLookupRouteLength() == 4.0;
  }
}

/** The counters of a Kademlia node's Statistician as a plain value, the calls that
    update them as events, and the replay of a call history from a given state.
    This is the reference the class in module Kademlia is verified against: every
    mutator of the class appends its event to a ghost history, and the class invariant
    says that the fields are the replay of that history from the all-zero state. */
module StatisticianHistory {

  /** A snapshot of the eight counters, in the order the class declares its fields.
      Byte counts, event counts, nanoseconds and hop counts are unbounded naturals. */
  datatype Stats = Stats(
    totalDataSent: nat,
    totalDataReceived: nat,
    numDataSent: nat,
    numDataReceived: nat,
    bootstrapTime: nat,
    numContentLookups: nat,
    totalContentLookupTime: nat,
    totalRouteLength: nat)

  /** One call of a mutator: sentData, receivedData, setBootstrapTime or addContentLookup. */
  datatype Event =
    | DataSent(size: nat)
    | DataReceived(size: nat)
    | BootstrapTimeSet(time: nat)
    | ContentLookup(time: nat, routeLength: nat)

  /** The state of a freshly constructed Statistician: every counter at zero. */
  function Initial(): Stats {
    Stats(0, 0, 0, 0, 0, 0, 0, 0)
  }

  /** The effect of one mutator call on the counters. */
  function Step(s: Stats, e: Event): Stats {
    match e
    case DataSent(size) =>
      s.(totalDataSent := s.totalDataSent + size, numDataSent := s.numDataSent + 1)
    case DataReceived(size) =>
      s.(totalDataReceived := s.totalDataReceived + size, numDataReceived := s.numDataReceived + 1)
    case BootstrapTimeSet(time) =>
      s.(bootstrapTime := time)
    case ContentLookup(time, routeLength) =>
      s.(numContentLookups := s.numContentLookups + 1,
         totalContentLookupTime := s.totalContentLookupTime + time,
         totalRouteLength := s.totalRouteLength + routeLength)
  }

  /** The counters after the calls `es`, in order, starting from `s`. */
  function Run(s: Stats, es: seq<Event>): Stats
    decreases |es|
  {
    if es == [] then s else Step(Run(s, es[..|es| - 1]), es[|es| - 1])
  }

  /** Replaying one more call is one more Step. */
  lemma RunSnoc(s: Stats, es: seq<Event>, e: Event)
    ensures Run(s, es + [e]) == Step(Run(s, es), e)
  {
    assert (es + [e])[..|es|] == es;
  }

  // Aggregates of a call history, each defined on its own, independently of Step.

  /** Sum of the sizes of all sentData calls. */
  function SumSent(es: seq<Event>): nat
    decreases |es|
  {
    if es == [] then 0
    else SumSent(es[..|es| - 1]) + (if es[|es| - 1].DataSent? then es[|es| - 1].size else 0)
  }

  /** Number of sentData calls. */
  function CountSent(es: seq<Event>): nat
    decreases |es|
  {
    if es == [] then 0
    else CountSent(es[..|es| - 1]) + (if es[|es| - 1].DataSent? then 1 else 0)
  }

  /** Sum of the sizes of all receivedData calls. */
  function SumReceived(es: seq<Event>): nat
    decreases |es|
  {
    if es == [] then 0
    else SumReceived(es[..|es| - 1]) + (if es[|es| - 1].DataReceived? then es[|es| - 1].size else 0)
  }

  /** Number of receivedData calls. */
  function CountReceived(es: seq<Event>): nat
    decreases |es|
  {
    if es == [] then 0
    else CountReceived(es[..|es| - 1]) + (if es[|es| - 1].DataReceived? then 1 else 0)
  }

  /** The time given to the last setBootstrapTime call, or `default` when there is none. */
  function LastBootstrap(es: seq<Event>, default: nat): nat
    decreases |es|
  {
    if es == [] then default
    else if es[|es| - 1].BootstrapTimeSet? then es[|es| - 1].time
    else LastBootstrap(es[..|es| - 1], default)
  }

  /** Number of addContentLookup calls. */
  function CountLookups(es: seq<Event>): nat
    decreases |es|
  {
    if es == [] then 0
    else CountLookups(es[..|es| - 1]) + (if es[|es| - 1].ContentLookup? then 1 else 0)
  }

  /** Sum of the times of all addContentLookup calls. */
  function SumLookupTime(es: seq<Event>): nat
    decreases |es|
  {
    if es == [] then 0
    else SumLookupTime(es[..|es| - 1]) + (if es[|es| - 1].ContentLookup? then es[|es| - 1].time else 0)
  }

  /** Sum of the route lengths of all addContentLookup calls. */
  function SumRouteLength(es: seq<Event>): nat
    decreases |es|
  {
    if es == [] then 0
    else SumRouteLength(es[..|es| - 1]) + (if es[|es| - 1].ContentLookup? then es[|es| - 1].routeLength else 0)
  }

  /** Sum of a sequence of sizes. */
  function Sum(xs: seq<nat>): nat
    decreases |xs|
  {
    if xs == [] then 0 else Sum(xs[..|xs| - 1]) + xs[|xs| - 1]
  }

  /** One sentData call per size, in order. */
  function SentCalls(sizes: seq<nat>): (es: seq<Event>)
    ensures |es| == |sizes|
  {
    seq(|sizes|, i requires 0 <= i < |sizes| => DataSent(sizes[i]))
  }

  /** One receivedData call per size, in order. */
  function ReceivedCalls(sizes: seq<nat>): (es: seq<Event>)
    ensures |es| == |sizes|
  {
    seq(|sizes|, i requires 0 <= i < |sizes| => DataReceived(sizes[i]))
  }

  /** Every counter of `b` is at least the one of `a`, the bootstrap time aside. */
  predicate NoLess(a: Stats, b: Stats) {
    a.totalDataSent <= b.totalDataSent &&
    a.totalDataReceived <= b.totalDataReceived &&
    a.numDataSent <= b.numDataSent &&
    a.numDataReceived <= b.numDataReceived &&
    a.numContentLookups <= b.numContentLookups &&
    a.totalContentLookupTime <= b.totalContentLookupTime &&
    a.totalRouteLength <= b.totalRouteLength
  }

  /** After any calls, the sent-data counters have grown by the sum of the sizes sent
      and by the number of sentData calls. */
  lemma {:induction false} RunDataSent(s: Stats, es: seq<Event>)
    ensures Run(s, es).totalDataSent == s.totalDataSent + SumSent(es)
    ensures Run(s, es).numDataSent == s.numDataSent + CountSent(es)
    decreases |es|
  {
    if es != [] {
      RunDataSent(s, es[..|es| - 1]);
    }
  }

  /** After any calls, the received-data counters have grown by the sum of the sizes
      received and by the number of receivedData calls. */
  lemma {:induction false} RunDataReceived(s: Stats, es: seq<Event>)
    ensures Run(s, es).totalDataReceived == s.totalDataReceived + SumReceived(es)
    ensures Run(s, es).numDataReceived == s.numDataReceived + CountReceived(es)
    decreases |es|
  {
    if es != [] {
      RunDataReceived(s, es[..|es| - 1]);
    }
  }

  /** The bootstrap time is last-write-wins: after any calls it is the time of the last
      setBootstrapTime call among them, or unchanged when there is none. */
  lemma {:induction false} RunBootstrap(s: Stats, es: seq<Event>)
    ensures Run(s, es).bootstrapTime == LastBootstrap(es, s.bootstrapTime)
    decreases |es|
  {
    if es != [] {
      RunBootstrap(s, es[..|es| - 1]);
    }
  }

  /** After any calls, the lookup count has grown by the number of addContentLookup calls,
      and the lookup time and route length by the sums of the values those calls gave. */
  lemma {:induction false} RunContentLookups(s: Stats, es: seq<Event>)
    ensures Run(s, es).numContentLookups == s.numContentLookups + CountLookups(es)
    ensures Run(s, es).totalContentLookupTime == s.totalContentLookupTime + SumLookupTime(es)
    ensures Run(s, es).totalRouteLength == s.totalRouteLength + SumRouteLength(es)
    decreases |es|
  {
    if es != [] {
      RunContentLookups(s, es[..|es| - 1]);
    }
  }

  /** No call ever decreases a counter other than the bootstrap time. */
  lemma {:induction false} RunMonotone(s: Stats, es: seq<Event>)
    ensures NoLess(s, Run(s, es))
    decreases |es|
  {
    if es != [] {
      RunMonotone(s, es[..|es| - 1]);
    }
  }

  /** A history without addContentLookup calls adds no lookup time and no route length. */
  lemma {:induction false} NoLookupsNoLookupTotals(es: seq<Event>)
    requires CountLookups(es) == 0
    ensures SumLookupTime(es) == 0 && SumRouteLength(es) == 0
    decreases |es|
  {
    if es != [] {
      NoLookupsNoLookupTotals(es[..|es| - 1]);
    }
  }

  /** The lookup triple moves together: calls that leave the lookup count where it was
      leave the total lookup time and the total route length where they were too. */
  lemma LookupTripleMovesTogether(s: Stats, es: seq<Event>)
    ensures Run(s, es).numContentLookups == s.numContentLookups ==>
              Run(s, es).totalContentLookupTime == s.totalContentLookupTime &&
              Run(s, es).totalRouteLength == s.totalRouteLength
  {
    RunContentLookups(s, es);
    if CountLookups(es) == 0 {
      NoLookupsNoLookupTotals(es);
    }
  }

  /** N sentData calls with sizes s1..sN on a fresh instance leave the total sent equal to
      s1 + ... + sN, the send count equal to N and every other counter at zero. */
  lemma {:induction false} SentCallsFromFresh(sizes: seq<nat>)
    ensures Run(Initial(), SentCalls(sizes)) ==
              Initial().(totalDataSent := Sum(sizes), numDataSent := |sizes|)
    decreases |sizes|
  {
    if sizes != [] {
      var n := |sizes| - 1;
      assert SentCalls(sizes)[..n] == SentCalls(sizes[..n]);
      SentCallsFromFresh(sizes[..n]);
    }
  }

  /** N receivedData calls with sizes s1..sN on a fresh instance leave the total received
      equal to s1 + ... + sN, the receive count equal to N and every other counter at zero. */
  lemma {:induction false} ReceivedCallsFromFresh(sizes: seq<nat>)
    ensures Run(Initial(), ReceivedCalls(sizes)) ==
              Initial().(totalDataReceived := Sum(sizes), numDataReceived := |sizes|)
    decreases |sizes|
  {
    if sizes != [] {
      var n := |sizes| - 1;
      assert ReceivedCalls(sizes)[..n] == ReceivedCalls(sizes[..n]);
      ReceivedCallsFromFresh(sizes[..n]);
    }
  }
}

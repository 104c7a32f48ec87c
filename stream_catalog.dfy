/**
  The catalog of streams a filter's inputs may be bound to: the null stream,
  then every stream of every channel of every instrument in the session, then
  every stream of every filter instance (FilterPropertiesDialog::FindAllStreams).
  The session is given as stream counts: scopes[s][c] is the number of streams
  of channel c of instrument s, filters[f] that of filter instance f.
*/
module StreamCatalog {
  import opened Wrappers

  /** The object that owns a stream, identified by its position in the session. */
  datatype Producer =
    | Channel(scope: nat, channel: nat)
    | FilterInstance(instance: nat)

  /** A reference to stream `index` of `producer`; no producer is the null stream. */
  datatype StreamDescriptor = StreamDescriptor(producer: Option<Producer>, index: nat)

  const NullStream: StreamDescriptor := StreamDescriptor(None, 0)

  /** counts[0] + ... + counts[n-1] */
  function Sum(counts: seq<nat>, n: nat): nat
    requires n <= |counts|
  {
    if n == 0 then 0 else Sum(counts, n - 1) + counts[n - 1]
  }

  /** The stream count of every channel of instruments 0 .. n-1. */
  function SumAll(scopes: seq<seq<nat>>, n: nat): nat
    requires n <= |scopes|
  {
    if n == 0 then 0 else SumAll(scopes, n - 1) + Sum(scopes[n - 1], |scopes[n - 1]|)
  }

  /** x is an existing stream of a channel of one of the instruments 0 .. n-1. */
  predicate IsChannelStream(scopes: seq<seq<nat>>, n: nat, x: StreamDescriptor)
    requires n <= |scopes|
  {
    match x.producer
    case Some(Channel(s, c)) => s < n && c < |scopes[s]| && x.index < scopes[s][c]
    case _ => false
  }

  /** x is an existing stream of one of the filter instances 0 .. n-1. */
  predicate IsFilterStream(filters: seq<nat>, n: nat, x: StreamDescriptor)
    requires n <= |filters|
  {
    match x.producer
    case Some(FilterInstance(f)) => f < n && x.index < filters[f]
    case _ => false
  }

  /**
    The enumeration order: the null stream first, then channel streams by
    (instrument, channel, stream index), then filter streams by (instance,
    stream index).
  */
  predicate Precedes(a: StreamDescriptor, b: StreamDescriptor)
  {
    match (a.producer, b.producer)
    case (None, None) => a.index < b.index
    case (None, Some(_)) => true
    case (Some(Channel(s1, c1)), Some(Channel(s2, c2))) =>
      s1 < s2 || (s1 == s2 && (c1 < c2 || (c1 == c2 && a.index < b.index)))
    case (Some(Channel(_, _)), Some(FilterInstance(_))) => true
    case (Some(FilterInstance(f1)), Some(FilterInstance(f2))) =>
      f1 < f2 || (f1 == f2 && a.index < b.index)
    case _ => false
  }

  predicate Ordered(s: seq<StreamDescriptor>)
  {
    forall i, j :: 0 <= i < j < |s| ==> Precedes(s[i], s[j])
  }

  lemma OrderedConcat(a: seq<StreamDescriptor>, b: seq<StreamDescriptor>)
    requires Ordered(a) && Ordered(b)
    requires forall x, y :: x in a && y in b ==> Precedes(x, y)
    ensures Ordered(a + b)
  {
    forall i, j | 0 <= i < j < |a + b| ensures Precedes((a + b)[i], (a + b)[j]) {
      if j < |a| {
        assert (a + b)[i] == a[i] && (a + b)[j] == a[j];
      } else if i >= |a| {
        assert (a + b)[i] == b[i - |a|] && (a + b)[j] == b[j - |a|];
      } else {
        assert (a + b)[i] in a && (a + b)[j] in b;
      }
    }
  }

  /** Streams 0 .. count-1 of producer p, in index order. */
  function ProducerStreams(p: Producer, count: nat): (r: seq<StreamDescriptor>)
    ensures |r| == count
  {
    if count == 0 then [] else ProducerStreams(p, count - 1) + [StreamDescriptor(Some(p), count - 1)]
  }

  /** Streams of channels 0 .. n-1 of instrument s, channels in index order. */
  function ScopeStreams(s: nat, channels: seq<nat>, n: nat): (r: seq<StreamDescriptor>)
    requires n <= |channels|
    ensures |r| == Sum(channels, n)
  {
    if n == 0 then []
    else ScopeStreams(s, channels, n - 1) + ProducerStreams(Channel(s, n - 1), channels[n - 1])
  }

  /** Streams of every channel of instruments 0 .. n-1, instruments in session order. */
  function ChannelStreams(scopes: seq<seq<nat>>, n: nat): (r: seq<StreamDescriptor>)
    requires n <= |scopes|
    ensures |r| == SumAll(scopes, n)
  {
    if n == 0 then []
    else ChannelStreams(scopes, n - 1) + ScopeStreams(n - 1, scopes[n - 1], |scopes[n - 1]|)
  }

  /** Streams of filter instances 0 .. n-1, instances in registry order. */
  function FilterStreams(filters: seq<nat>, n: nat): (r: seq<StreamDescriptor>)
    requires n <= |filters|
    ensures |r| == Sum(filters, n)
  {
    if n == 0 then []
    else FilterStreams(filters, n - 1) + ProducerStreams(FilterInstance(n - 1), filters[n - 1])
  }

  /**
    The complete catalog: the null stream first, then the channel streams,
    then the filter streams; its length is one plus the stream count of every
    channel and every filter.
  */
  function AllStreams(scopes: seq<seq<nat>>, filters: seq<nat>): (r: seq<StreamDescriptor>)
    ensures |r| == 1 + SumAll(scopes, |scopes|) + Sum(filters, |filters|)
    ensures r[0] == NullStream
  {
    [NullStream] + (ChannelStreams(scopes, |scopes|) + FilterStreams(filters, |filters|))
  }

  lemma {:induction false} ProducerStreamsFacts(p: Producer, count: nat)
    ensures forall j :: 0 <= j < count ==> ProducerStreams(p, count)[j] == StreamDescriptor(Some(p), j)
    ensures forall x :: x in ProducerStreams(p, count) <==> x.producer == Some(p) && x.index < count
    ensures Ordered(ProducerStreams(p, count))
  {
    var r := ProducerStreams(p, count);
    if count > 0 {
      ProducerStreamsFacts(p, count - 1);
    }
    forall x: StreamDescriptor | x.producer == Some(p) && x.index < count ensures x in r {
      assert r[x.index] == x;
    }
  }

  lemma {:induction false} ScopeStreamsFacts(s: nat, channels: seq<nat>, n: nat)
    requires n <= |channels|
    ensures forall x :: x in ScopeStreams(s, channels, n) <==>
      (x.producer.Some? && x.producer.value.Channel? && x.producer.value.scope == s
       && x.producer.value.channel < n && x.index < channels[x.producer.value.channel])
    ensures Ordered(ScopeStreams(s, channels, n))
  {
    if n > 0 {
      ScopeStreamsFacts(s, channels, n - 1);
      ProducerStreamsFacts(Channel(s, n - 1), channels[n - 1]);
      OrderedConcat(ScopeStreams(s, channels, n - 1), ProducerStreams(Channel(s, n - 1), channels[n - 1]));
    }
  }

  lemma {:induction false} ChannelStreamsFacts(scopes: seq<seq<nat>>, n: nat)
    requires n <= |scopes|
    ensures forall x :: x in ChannelStreams(scopes, n) <==> IsChannelStream(scopes, n, x)
    ensures Ordered(ChannelStreams(scopes, n))
  {
    if n > 0 {
      ChannelStreamsFacts(scopes, n - 1);
      ScopeStreamsFacts(n - 1, scopes[n - 1], |scopes[n - 1]|);
      OrderedConcat(ChannelStreams(scopes, n - 1), ScopeStreams(n - 1, scopes[n - 1], |scopes[n - 1]|));
    }
  }

  lemma {:induction false} FilterStreamsFacts(filters: seq<nat>, n: nat)
    requires n <= |filters|
    ensures forall x :: x in FilterStreams(filters, n) <==> IsFilterStream(filters, n, x)
    ensures Ordered(FilterStreams(filters, n))
  {
    if n > 0 {
      FilterStreamsFacts(filters, n - 1);
      ProducerStreamsFacts(FilterInstance(n - 1), filters[n - 1]);
      OrderedConcat(FilterStreams(filters, n - 1), ProducerStreams(FilterInstance(n - 1), filters[n - 1]));
    }
  }

  /** The catalog holds the null stream and exactly the existing channel and filter streams. */
  lemma AllStreamsMembers(scopes: seq<seq<nat>>, filters: seq<nat>)
    ensures forall x :: x in AllStreams(scopes, filters) <==>
      x == NullStream || IsChannelStream(scopes, |scopes|, x) || IsFilterStream(filters, |filters|, x)
  {
    ChannelStreamsFacts(scopes, |scopes|);
    FilterStreamsFacts(filters, |filters|);
  }

  /**
    The catalog is listed in the enumeration order (so no stream appears
    twice): the null stream, then channels, then filters.
  */
  lemma AllStreamsOrdered(scopes: seq<seq<nat>>, filters: seq<nat>)
    ensures Ordered(AllStreams(scopes, filters))
  {
    var channels, others := ChannelStreams(scopes, |scopes|), FilterStreams(filters, |filters|);
    ChannelStreamsFacts(scopes, |scopes|);
    FilterStreamsFacts(filters, |filters|);
    OrderedConcat(channels, others);
    OrderedConcat([NullStream], channels + others);
  }

  /**
    Positions 1 .. SumAll of the catalog hold channel streams and the
    positions after them filter streams: every channel stream is listed
    before every filter stream.
  */
  lemma ChannelsBeforeFilters(scopes: seq<seq<nat>>, filters: seq<nat>)
    ensures forall i :: 1 <= i <= SumAll(scopes, |scopes|) ==>
      IsChannelStream(scopes, |scopes|, AllStreams(scopes, filters)[i])
    ensures forall i :: SumAll(scopes, |scopes|) < i < |AllStreams(scopes, filters)| ==>
      IsFilterStream(filters, |filters|, AllStreams(scopes, filters)[i])
  {
    var channels, others := ChannelStreams(scopes, |scopes|), FilterStreams(filters, |filters|);
    var r := AllStreams(scopes, filters);
    ChannelStreamsFacts(scopes, |scopes|);
    FilterStreamsFacts(filters, |filters|);
    forall i | 1 <= i <= |channels| ensures IsChannelStream(scopes, |scopes|, r[i]) {
      assert r[i] == channels[i - 1];
    }
    forall i | |channels| < i < |r| ensures IsFilterStream(filters, |filters|, r[i]) {
      assert r[i] == others[i - 1 - |channels|];
    }
  }

  /** Appends streams 0 .. count-1 of producer p (the innermost loops of FindAllStreams). */
  method AppendProducerStreams(streams: seq<StreamDescriptor>, p: Producer, count: nat)
    returns (r: seq<StreamDescriptor>)
    ensures r == streams + ProducerStreams(p, count)
  {
    r := streams;
    for j := 0 to count
      invariant r == streams + ProducerStreams(p, j)
    {
      r := r + [StreamDescriptor(Some(p), j)];
    }
  }

  /** Appends every stream of every channel of instrument s (the loop over its channels). */
  method AppendScopeStreams(streams: seq<StreamDescriptor>, s: nat, channels: seq<nat>)
    returns (r: seq<StreamDescriptor>)
    ensures r == streams + ScopeStreams(s, channels, |channels|)
  {
    r := streams;
    for c := 0 to |channels|
      invariant r == streams + ScopeStreams(s, channels, c)
    {
      r := AppendProducerStreams(r, Channel(s, c), channels[c]);
    }
  }

  /**
    Appends the catalog to `prefix`: the null stream, then the streams of
    every instrument's channels, then those of every filter instance (the
    dialog passes an empty vector).
  */
  method FindAllStreams(prefix: seq<StreamDescriptor>, scopes: seq<seq<nat>>, filters: seq<nat>)
    returns (streams: seq<StreamDescriptor>)
    ensures streams == prefix + AllStreams(scopes, filters)
  {
    streams := prefix + [NullStream];
    for s := 0 to |scopes|
      invariant streams == prefix + [NullStream] + ChannelStreams(scopes, s)
    {
      streams := AppendScopeStreams(streams, s, scopes[s]);
    }
    ghost var channelPart := streams;
    for f := 0 to |filters|
      invariant streams == channelPart + FilterStreams(filters, f)
    {
      streams := AppendProducerStreams(streams, FilterInstance(f), filters[f]);
    }
  }
}

/** KafkaConsumer of the newer revision (kproxy/kafka_consumer.cpp): the
    compound `work` state holds Init, Subscribe and Read, where Read
    re-enters itself after every completed poll; each reported offset is
    committed directly on the session.  `Handle` delivers one signal and
    returns what the entered states do. */
module KProxyKafkaConsumer {

  import opened Json
  import KProxyKafkaProxyV2
  import KProxyHttpClient
  import WireFraming

  datatype State = NotStarted | Init | Subscribe | Read | Success | Error

  predicate Working(s: State)
  {
    s == Init || s == Subscribe || s == Read
  }

  /** stopRequest of the consumer; failed, obtainedInstanceId, subscribed
      and readingComplete of the session. */
  datatype Signal = StopRequest | Failed | ObtainedInstanceId | Subscribed | ReadingComplete

  datatype Effect =
    | RequestInstanceId(group: string)
    | SubscribeTopics(topics: seq<string>)
    | GetRecords
    | CommitOffsetOf(topic: string, offset: int32)
    | DeleteInstanceId
    | EmitStopRequest

  function Transition(s: State, sig: Signal): (t: Option<State>)
    ensures Working(s) && sig == StopRequest ==> t == Some(Success)
    ensures Working(s) && sig == Failed ==> t == Some(Error)
    ensures t == Some(Subscribe) <==> s == Init && sig == ObtainedInstanceId
    ensures t == Some(Read) <==> (s == Subscribe && sig == Subscribed) || (s == Read && sig == ReadingComplete)
    ensures !Working(s) ==> t == None
  {
    if !Working(s) then None
    else if sig == StopRequest then Some(Success)
    else if sig == Failed then Some(Error)
    else match (s, sig)
      case (Init, ObtainedInstanceId) => Some(Subscribe)
      case (Subscribe, Subscribed) => Some(Read)
      case (Read, ReadingComplete) => Some(Read)
      case _ => None
  }

  function After(s: State, sig: Signal): State
  {
    match Transition(s, sig) case None => s case Some(t) => t
  }

  /** What entering a state does. */
  function Entry(s: State, group: string, topics: seq<string>): (r: seq<Effect>)
    ensures s == Success || s == Error ==> r == [DeleteInstanceId]
    ensures s == Read ==> r == [GetRecords]
  {
    match s
    case Init => [RequestInstanceId(group)]
    case Subscribe => [SubscribeTopics(topics)]
    case Read => [GetRecords]
    case Success => [DeleteInstanceId]
    case Error => [DeleteInstanceId]
    case NotStarted => []
  }

  /** The effects of a sequence of signals delivered one after the other. */
  function Effects(s: State, sigs: seq<Signal>, group: string, topics: seq<string>): seq<Effect>
    decreases |sigs|
  {
    if |sigs| == 0 then []
    else
      var t := Transition(s, sigs[0]);
      (if t.Some? then Entry(t.value, group, topics) else [])
      + Effects(After(s, sigs[0]), sigs[1..], group, topics)
  }

  function Repeat<T>(x: T, n: nat): (r: seq<T>)
    ensures |r| == n && forall i :: 0 <= i < n ==> r[i] == x
  {
    if n == 0 then [] else [x] + Repeat(x, n - 1)
  }

  /** The poll loop: n completed polls in Read issue exactly n new polls and
      leave the machine in Read. */
  lemma {:induction false} PollLoop(n: nat, group: string, topics: seq<string>)
    ensures Effects(Read, Repeat(ReadingComplete, n), group, topics) == Repeat(GetRecords, n)
    decreases n
  {
    if n > 0 {
      var sigs := Repeat(ReadingComplete, n);
      assert sigs[1..] == Repeat(ReadingComplete, n - 1);
      PollLoop(n - 1, group, topics);
      assert Repeat(GetRecords, n) == [GetRecords] + Repeat(GetRecords, n - 1);
    }
  }

  /** The offsets a poll reports become commits: one per offset other than
      -1, for that topic and offset, in order. */
  function CommitsFor(offsets: seq<(string, int32)>): (r: seq<Effect>)
    ensures |r| <= |offsets|
    ensures forall e :: e in r ==> e.CommitOffsetOf? && e.offset != -1 && (e.topic, e.offset) in offsets
  {
    if |offsets| == 0 then []
    else
      (if offsets[0].1 != -1 then [CommitOffsetOf(offsets[0].0, offsets[0].1)] else [])
      + CommitsFor(offsets[1..])
  }

  /** Commits distribute over consecutive runs of offsets. */
  lemma {:induction false} CommitsForAppend(a: seq<(string, int32)>, b: seq<(string, int32)>)
    ensures CommitsFor(a + b) == CommitsFor(a) + CommitsFor(b)
    decreases |a|
  {
    if |a| > 0 {
      var ab := a + b;
      CommitsForFirst(ab);
      CommitsForFirst(a);
      assert ab[0] == a[0] && ab[1..] == a[1..] + b;
      CommitsForAppend(a[1..], b);
    } else {
      assert a + b == b;
    }
  }

  /** Every offset other than -1 is committed exactly once, in its place:
      the commits are those of the offsets before it, then its own, then
      those of the offsets after it; an offset of -1 adds nothing. */
  lemma CommitsForAt(offsets: seq<(string, int32)>, i: nat)
    requires i < |offsets|
    ensures offsets[i].1 != -1 ==>
              CommitsFor(offsets) == CommitsFor(offsets[..i]) + [CommitOffsetOf(offsets[i].0, offsets[i].1)]
                                     + CommitsFor(offsets[i + 1..])
    ensures offsets[i].1 == -1 ==> CommitsFor(offsets) == CommitsFor(offsets[..i]) + CommitsFor(offsets[i + 1..])
  {
    CommitsForSplit(offsets, i);
    CommitsForFirst(offsets[i..]);
    assert offsets[i..][1..] == offsets[i + 1..];
  }

  lemma CommitsForSplit(offsets: seq<(string, int32)>, i: nat)
    requires i <= |offsets|
    ensures CommitsFor(offsets) == CommitsFor(offsets[..i]) + CommitsFor(offsets[i..])
  {
    assert offsets == offsets[..i] + offsets[i..];
    CommitsForAppend(offsets[..i], offsets[i..]);
  }

  lemma CommitsForFirst(offsets: seq<(string, int32)>)
    requires |offsets| > 0
    ensures offsets[0].1 != -1 ==>
              CommitsFor(offsets) == [CommitOffsetOf(offsets[0].0, offsets[0].1)] + CommitsFor(offsets[1..])
    ensures offsets[0].1 == -1 ==> CommitsFor(offsets) == CommitsFor(offsets[1..])
  {
  }

  /** The commits the consumer makes while a run of session events is
      delivered: OnReceivedOffset for each receivedOffset, nothing for the
      other events. */
  function EventCommits(events: seq<KProxyKafkaProxyV2.Event>): seq<Effect>
  {
    if |events| == 0 then []
    else
      EventCommits(events[..|events| - 1])
      + (var e := events[|events| - 1]; if e.ReceivedOffset? then CommitsFor([(e.topic, e.offset)]) else [])
  }

  lemma {:induction false} EventCommitsOfOffsets(events: seq<KProxyKafkaProxyV2.Event>)
    ensures EventCommits(events) == CommitsFor(KProxyKafkaProxyV2.Offsets(events))
    decreases |events|
  {
    if |events| > 0 {
      var n := |events| - 1;
      var e := events[n];
      EventCommitsOfOffsets(events[..n]);
      var last := if e.ReceivedOffset? then [(e.topic, e.offset)] else [];
      assert KProxyKafkaProxyV2.Offsets(events) == KProxyKafkaProxyV2.Offsets(events[..n]) + last;
      CommitsForAppend(KProxyKafkaProxyV2.Offsets(events[..n]), last);
    }
  }

  /** What one poll reply leads to: for a known media type, a commit of
      every record whose offset is not -1, in record order; for any other
      media type, no commit. */
  lemma PollCommits(items: seq<Json>, mediaType: string, decode: string -> seq<WireFraming.byte>)
    ensures mediaType == KProxyHttpClient.MediaProtobuf || mediaType == KProxyHttpClient.MediaBinary ==>
              EventCommits(KProxyKafkaProxyV2.PollEvents(items, mediaType, decode))
              == CommitsFor(KProxyKafkaProxyV2.RecordOffsets(items))
    ensures mediaType != KProxyHttpClient.MediaProtobuf && mediaType != KProxyHttpClient.MediaBinary ==>
              EventCommits(KProxyKafkaProxyV2.PollEvents(items, mediaType, decode)) == []
  {
    EventCommitsOfOffsets(KProxyKafkaProxyV2.PollEvents(items, mediaType, decode));
    KProxyKafkaProxyV2.PollOffsets(items, mediaType, decode);
  }

  class Consumer {
    const group: string
    const topics: seq<string>
    const proxy: KProxyKafkaProxyV2.Session
    var state: State

    constructor (proxy: KProxyKafkaProxyV2.Session, group: string, topics: seq<string>)
      ensures this.proxy == proxy && this.group == group && this.topics == topics && state == NotStarted
    {
      this.proxy := proxy;
      this.group := group;
      this.topics := topics;
      state := NotStarted;
    }

    method Start() returns (out: seq<Effect>)
      requires state == NotStarted
      modifies this`state
      ensures state == Init && out == [RequestInstanceId(group)]
    {
      state := Init;
      out := Entry(Init, group, topics);
    }

    /** stop: abort the pending poll first, then signal stopRequest. */
    method Stop() returns (out: seq<Effect>)
      modifies proxy`pendingRead
      ensures !proxy.pendingRead && out == [EmitStopRequest]
    {
      var _ := proxy.StopReading();
      out := [EmitStopRequest];
    }

    /** The session's receivedOffset: commit it unless it is -1. */
    method OnReceivedOffset(topic: string, offset: int32) returns (out: seq<Effect>)
      ensures offset != -1 ==> out == [CommitOffsetOf(topic, offset)]
      ensures offset == -1 ==> out == []
      ensures out == CommitsFor([(topic, offset)])
    {
      out := [];
      if offset != -1 {
        out := [CommitOffsetOf(topic, offset)];
      }
    }

    method Handle(sig: Signal) returns (out: seq<Effect>)
      modifies this`state
      ensures state == After(old(state), sig)
      ensures Transition(old(state), sig).None? ==> out == []
      ensures Transition(old(state), sig).Some? ==> out == Entry(state, group, topics)
    {
      var t := Transition(state, sig);
      out := [];
      if t.Some? {
        state := t.value;
        out := Entry(state, group, topics);
      }
    }
  }
}

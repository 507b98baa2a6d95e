/** KafkaConsumer of the older revision (proxy/kafka_consumer.cpp): a Qt
    state machine with a compound `work` state (Init, Subscribe, Read,
    Commit) and two final states, Success and Error.  `Handle` delivers one
    signal and returns what the entered states do: calls on the v2 session
    and signals the consumer emits, which the caller feeds back. */
module ProxyKafkaConsumer {

  import opened Json

  datatype State = NotStarted | Init | Subscribe | Read | Commit | Success | Error

  /** The substates of `work`. */
  predicate Working(s: State)
  {
    s == Init || s == Subscribe || s == Read || s == Commit
  }

  /** stopRequest, commitOffset and readAgain of the consumer; failed,
      obtainedInstanceId, subscribed and offsetCommitted of the session. */
  datatype Signal = StopRequest | Failed | ObtainedInstanceId | Subscribed | CommitOffset | ReadAgain | OffsetCommitted

  datatype Effect =
    | RequestInstanceId(group: string)
    | SubscribeTopic(topic: string)
    | GetRecords
    | CommitOffsetOf(topic: string, offset: int32)
    | DeleteInstanceId
    | EmitCommitOffset
    | EmitReadAgain
    | EmitStopRequest

  /** The transitions wired in the constructor; the two on `work` apply in
      every substate. */
  function Transition(s: State, sig: Signal): (t: Option<State>)
    ensures Working(s) && sig == StopRequest ==> t == Some(Success)
    ensures Working(s) && sig == Failed ==> t == Some(Error)
    ensures t == Some(Subscribe) <==> s == Init && sig == ObtainedInstanceId
    ensures t == Some(Commit) <==> s == Read && sig == CommitOffset
    ensures t == Some(Read) <==> (s == Subscribe && sig == Subscribed) || (s == Read && sig == ReadAgain)
                                 || (s == Commit && sig == OffsetCommitted)
    ensures !Working(s) ==> t == None
  {
    if !Working(s) then None
    else if sig == StopRequest then Some(Success)
    else if sig == Failed then Some(Error)
    else match (s, sig)
      case (Init, ObtainedInstanceId) => Some(Subscribe)
      case (Subscribe, Subscribed) => Some(Read)
      case (Read, CommitOffset) => Some(Commit)
      case (Read, ReadAgain) => Some(Read)
      case (Commit, OffsetCommitted) => Some(Read)
      case _ => None
  }

  function After(s: State, sig: Signal): State
  {
    match Transition(s, sig) case None => s case Some(t) => t
  }

  /** What entering a state does. */
  function Entry(s: State, topic: string, group: string, lastOffset: int32): (r: seq<Effect>)
    ensures s == Success || s == Error ==> r == [DeleteInstanceId]
    ensures s == Commit ==> r == [CommitOffsetOf(topic, lastOffset)]
  {
    match s
    case Init => [RequestInstanceId(group)]
    case Subscribe => [SubscribeTopic(topic)]
    case Read => [GetRecords]
    case Commit => [CommitOffsetOf(topic, lastOffset)]
    case Success => [DeleteInstanceId]
    case Error => [DeleteInstanceId]
    case NotStarted => []
  }

  function Run(s: State, sigs: seq<Signal>): State
    decreases |sigs|
  {
    if |sigs| == 0 then s else Run(After(s, sigs[0]), sigs[1..])
  }

  /** Read is not reached before the session has confirmed the
      subscription. */
  lemma {:induction false} NoReadBeforeSubscribed(s: State, sigs: seq<Signal>)
    requires s == Init || s == Subscribe
    requires forall i :: 0 <= i < |sigs| ==> sigs[i] != Subscribed
    ensures Run(s, sigs) in {Init, Subscribe, Success, Error}
    decreases |sigs|
  {
    if |sigs| > 0 {
      var t := After(s, sigs[0]);
      if t == Success || t == Error {
        FinalStays(t, sigs[1..]);
      } else {
        NoReadBeforeSubscribed(t, sigs[1..]);
      }
    }
  }

  /** Success and Error are final: nothing leaves them. */
  lemma {:induction false} FinalStays(s: State, sigs: seq<Signal>)
    requires s == Success || s == Error
    ensures Run(s, sigs) == s
    decreases |sigs|
  {
    if |sigs| > 0 {
      FinalStays(s, sigs[1..]);
    }
  }

  /** Commit waits for offsetCommitted (or the end of the session): no
      other signal takes it back to reading. */
  lemma {:induction false} CommitAwaitsConfirmation(sigs: seq<Signal>)
    requires forall i :: 0 <= i < |sigs| ==> sigs[i] != OffsetCommitted && sigs[i] != StopRequest && sigs[i] != Failed
    ensures Run(Commit, sigs) == Commit
    decreases |sigs|
  {
    if |sigs| > 0 {
      CommitAwaitsConfirmation(sigs[1..]);
    }
  }

  class Consumer {
    const topic: string
    const group: string
    var state: State
    var lastOffset: int32

    constructor (group: string, topic: string)
      ensures this.group == group && this.topic == topic && state == NotStarted
    {
      this.group := group;
      this.topic := topic;
      state := NotStarted;
      lastOffset := -1;
    }

    /** start: the machine enters `work` and its initial substate, Init,
        which asks for an instance id. */
    method Start() returns (out: seq<Effect>)
      requires state == NotStarted
      modifies this`state
      ensures state == Init && out == [RequestInstanceId(group)]
    {
      state := Init;
      out := Entry(Init, topic, group, lastOffset);
    }

    /** stop: only signals stopRequest. */
    method Stop() returns (out: seq<Effect>)
      ensures out == [EmitStopRequest]
    {
      out := [EmitStopRequest];
    }

    /** The session's receivedOffset: remember the offset, then commit it,
        or read again when nothing was read (-1). */
    method OnReceivedOffset(offset: int32) returns (out: seq<Effect>)
      modifies this`lastOffset
      ensures lastOffset == offset
      ensures offset != -1 ==> out == [EmitCommitOffset]
      ensures offset == -1 ==> out == [EmitReadAgain]
    {
      lastOffset := offset;
      if offset != -1 {
        out := [EmitCommitOffset];
      } else {
        out := [EmitReadAgain];
      }
    }

    /** One signal delivered to the machine. */
    method Handle(sig: Signal) returns (out: seq<Effect>)
      modifies this`state
      ensures state == After(old(state), sig)
      ensures Transition(old(state), sig).None? ==> out == []
      ensures Transition(old(state), sig).Some? ==> out == Entry(state, topic, group, lastOffset)
    {
      var t := Transition(state, sig);
      out := [];
      if t.Some? {
        state := t.value;
        out := Entry(state, topic, group, lastOffset);
      }
    }
  }
}

/** KafkaProducer (kproxy/kafka_producer.cpp): a two-state Qt machine,
    WaitForData and Send, over an in-memory FIFO of JSON messages that go out
    one at a time through the v3 proxy's sendMessage.  As in the protobuf
    producer, `Handle` delivers one signal and returns the effects caused,
    in order; emitted signals are fed back by the caller. */
module KafkaProducer {

  import opened Json

  /** OutputMessage: key, topic and the JSON value. */
  datatype Message = Message(key: string, topic: string, value: Json)

  datatype State = NotStarted | WaitForData | Send | Stopped

  /** newData of the producer, messageSent and failed of the proxy; error
      drives no transition. */
  datatype Signal = NewData | MessageSent | Failed | Error

  datatype Effect =
    | SendMessage(key: string, topic: string, value: Json)
    | EmitNewData
    | EmitError

  function Transition(s: State, sig: Signal): (t: Option<State>)
    ensures t == Some(Send) <==> s == WaitForData && sig == NewData
    ensures t == Some(WaitForData) <==> s == Send && (sig == MessageSent || sig == Failed)
  {
    match (s, sig)
    case (WaitForData, NewData) => Some(Send)
    case (Send, MessageSent) => Some(WaitForData)
    case (Send, Failed) => Some(WaitForData)
    case _ => None
  }

  /** What entering WaitForData does: newData exactly when the queue is not
      empty, so messages queued during a send are picked up. */
  function WaitEffects(queue: seq<Message>): (r: seq<Effect>)
    ensures r == [EmitNewData] <==> |queue| > 0
    ensures r == [] <==> |queue| == 0
  {
    if |queue| > 0 then [EmitNewData] else []
  }

  /** What entering Send does: the front message goes to the proxy, or error
      when the queue is empty. */
  function SendEffects(queue: seq<Message>): (r: seq<Effect>)
    ensures |r| == 1
    ensures r[0].SendMessage? <==> |queue| > 0
    ensures |queue| > 0 ==> r[0] == SendMessage(queue[0].key, queue[0].topic, queue[0].value)
    ensures |queue| == 0 ==> r == [EmitError]
  {
    if |queue| == 0 then [EmitError] else [SendMessage(queue[0].key, queue[0].topic, queue[0].value)]
  }

  /** The resting state after a sequence of signals. */
  function Run(s: State, sigs: seq<Signal>): State
    decreases |sigs|
  {
    if |sigs| == 0 then s
    else Run(match Transition(s, sigs[0]) case None => s case Some(t) => t, sigs[1..])
  }

  /** From Send the machine only ever goes back to WaitForData, on the
      proxy's reply: without messageSent or failed it stays in Send, so a
      second message cannot go out before the first is answered. */
  lemma {:induction false} SendAwaitsReply(sigs: seq<Signal>)
    requires forall i :: 0 <= i < |sigs| ==> sigs[i] != MessageSent && sigs[i] != Failed
    ensures Run(Send, sigs) == Send
    decreases |sigs|
  {
    if |sigs| > 0 {
      SendAwaitsReply(sigs[1..]);
    }
  }

  class Producer {
    var state: State
    var queue: seq<Message>
    /** Every message ever queued, and every message handed to the proxy, in
        order. */
    ghost var appended: seq<Message>
    ghost var sent: seq<Message>
    /** A sendMessage has been issued and not yet answered. */
    ghost var awaiting: bool

    ghost predicate Valid()
      reads this
    {
      && appended == sent + queue
      && (awaiting ==> state == Send)
    }

    constructor ()
      ensures Valid() && state == NotStarted && queue == [] && appended == [] && sent == [] && !awaiting
    {
      state := NotStarted;
      queue := [];
      appended := [];
      sent := [];
      awaiting := false;
    }

    /** The machine enters its initial state, WaitForData. */
    method Start() returns (out: seq<Effect>)
      requires Valid() && state == NotStarted
      modifies this`state
      ensures Valid() && state == WaitForData && out == WaitEffects(queue)
    {
      state := WaitForData;
      out := OnWaitForData();
    }

    /** send: the message joins the back of the queue and newData is
        signalled. */
    method Enqueue(m: Message) returns (out: seq<Effect>)
      requires Valid()
      modifies this`queue, this`appended
      ensures Valid()
      ensures queue == old(queue) + [m] && appended == old(appended) + [m]
      ensures out == [EmitNewData]
    {
      queue := queue + [m];
      appended := appended + [m];
      out := [EmitNewData];
    }

    method OnWaitForData() returns (out: seq<Effect>)
      ensures out == WaitEffects(queue)
    {
      out := [];
      if |queue| > 0 {
        out := [EmitNewData];
      }
    }

    /** onSend: dequeue the front message and hand it to the proxy. */
    method OnSend() returns (out: seq<Effect>)
      requires Valid() && state == Send && !awaiting
      modifies this`queue, this`sent, this`awaiting
      ensures Valid()
      ensures out == SendEffects(old(queue))
      ensures |old(queue)| == 0 ==> queue == old(queue) && sent == old(sent) && !awaiting
      ensures |old(queue)| > 0 ==> queue == old(queue)[1..] && sent == old(sent) + [old(queue)[0]] && awaiting
    {
      if |queue| == 0 {
        out := [EmitError];
        return;
      }
      var data := queue[0];
      queue := queue[1..];
      sent := sent + [data];
      awaiting := true;
      out := [SendMessage(data.key, data.topic, data.value)];
    }

    /** One signal delivered to the machine.  The message that goes out is
        always the oldest one not yet sent (FIFO), and a message whose send
        failed is not queued again. */
    method Handle(sig: Signal) returns (out: seq<Effect>)
      requires Valid()
      modifies this`state, this`queue, this`sent, this`awaiting
      ensures Valid() && appended == old(appended)
      ensures state == match Transition(old(state), sig) case None => old(state) case Some(t) => t
      ensures Transition(old(state), sig) == None ==> out == [] && queue == old(queue) && sent == old(sent)
      ensures old(state) == WaitForData && sig == NewData ==> out == SendEffects(old(queue))
      ensures old(state) == WaitForData && sig == NewData && |old(queue)| > 0 ==>
                queue == old(queue)[1..] && sent == old(sent) + [appended[|old(sent)|]]
      ensures old(state) == Send && (sig == MessageSent || sig == Failed) ==>
                queue == old(queue) && sent == old(sent) && !awaiting && out == WaitEffects(queue)
      ensures (exists e :: e in out && e.SendMessage?) ==> !old(awaiting) && awaiting
    {
      var t := Transition(state, sig);
      out := [];
      if t.None? {
        return;
      }
      state := t.value;
      if state == Send {
        out := OnSend();
      } else {
        awaiting := false;
        out := OnWaitForData();
      }
    }

    method Stop()
      requires Valid()
      modifies this`state, this`awaiting
      ensures Valid() && state == Stopped && queue == old(queue) && !awaiting
    {
      state := Stopped;
      awaiting := false;
    }
  }
}

/** Flex-up requests on their way to the scheduler: the validation of src/httpserver/RestServer.cpp, the message
    queue, and the receiving side of src/scheduler/EventLoop.cpp. */
module FlexUp {
  import opened Text

  /** The body of a request that is well-formed JSON, and its length in bytes. */
  datatype Request = Request(instances: int, profile: string, size: nat)

  const MAX_INSTANCES := 1024
  const MAX_MESSAGE_SIZE := 256

  predicate Acceptable(r: Request) {
    1 <= r.instances <= MAX_INSTANCES && (r.profile == "osd" || r.profile == "mon")
  }

  /** Acceptable, and no longer than the queue takes. */
  predicate Sendable(r: Request) {
    Acceptable(r) && r.size <= MAX_MESSAGE_SIZE
  }

  /** The OSD instances that a request asks for. */
  function OsdShare(r: Request): int {
    if r.profile == "osd" then r.instances else 0
  }

  function OsdInstances(queue: seq<Request>): int {
    if queue == [] then 0 else OsdShare(queue[0]) + OsdInstances(queue[1..])
  }

  /** All instances that the requests in the queue ask for. */
  function Instances(queue: seq<Request>): int {
    if queue == [] then 0 else queue[0].instances + Instances(queue[1..])
  }

  function Sum(counts: seq<int>): int {
    if counts == [] then 0 else counts[0] + Sum(counts[1..])
  }

  predicate AllPositive(counts: seq<int>) {
    forall i :: 0 <= i < |counts| ==> counts[i] >= 1
  }

  /** The list after a message from the queue was processed. */
  function AfterMessage(pending: seq<int>, message: Request): seq<int> {
    if message.profile == "osd" then pending + [message.instances] else pending
  }

  /** The list after one instance was taken from its first entry. */
  function AfterTake(pending: seq<int>): seq<int>
    requires pending != []
  {
    if pending[0] - 1 == 0 then pending[1..] else pending[0 := pending[0] - 1]
  }

  class MessageQueue {
    var messages: seq<Request>

    constructor ()
      ensures messages == []
    {
      messages := [];
    }

    /** message_queue::send, which throws on a message longer than the queue was created for. */
    method Send(message: Request) returns (sent: bool)
      modifies this
      ensures sent <==> message.size <= MAX_MESSAGE_SIZE
      ensures messages == if sent then old(messages) + [message] else old(messages)
    {
      sent := message.size <= MAX_MESSAGE_SIZE;
      if sent {
        messages := messages + [message];
      }
    }

    /** RestServer::jsonCheck; a `body` of None is not JSON, an `answer` of None is the exception that `send` throws.
        Exactly the acceptable requests that fit are queued; the longer ones are neither queued nor answered. */
    method JsonCheck(body: Option<Request>) returns (answer: Option<string>)
      modifies this
      ensures answer == Some("[success]") <==> body.Some? && Sendable(body.value)
      ensures messages == if body.Some? && Sendable(body.value) then old(messages) + [body.value] else old(messages)
      ensures answer == None <==> body.Some? && Acceptable(body.value) && body.value.size > MAX_MESSAGE_SIZE
      ensures answer == Some("[error]:json") <==> body == None
      ensures answer == Some("[error]:instances") <==> body.Some? && !(1 <= body.value.instances <= MAX_INSTANCES)
      ensures answer == Some("[error]:profile") <==>
                body.Some? && 1 <= body.value.instances <= MAX_INSTANCES
                && body.value.profile != "osd" && body.value.profile != "mon"
    {
      if body == None {
        return Some("[error]:json");
      }
      var instances := body.value.instances;
      if instances < 1 || instances > MAX_INSTANCES {
        return Some("[error]:instances");
      }
      var profile := body.value.profile;
      if !(profile == "osd" || profile == "mon") {
        return Some("[error]:profile");
      }
      var sent := Send(body.value);
      answer := if sent then Some("[success]") else None;
    }
  }

  class EventLoop {
    var pendingOSD: seq<int>

    constructor ()
      ensures pendingOSD == []
    {
      pendingOSD := [];
    }

    method ProcessData(message: Request)
      modifies this
      ensures pendingOSD == AfterMessage(old(pendingOSD), message)
    {
      if "osd" == message.profile {
        pendingOSD := pendingOSD + [message.instances];
      }
    }

    /** fetchPendingRESTfulRequest of the scheduler, which works on this list through a pointer. */
    method FetchPending() returns (found: bool)
      modifies this
      ensures found <==> old(pendingOSD) != []
      ensures pendingOSD == if old(pendingOSD) == [] then [] else AfterTake(old(pendingOSD))
    {
      if pendingOSD == [] {
        return false;
      }
      var count := pendingOSD[0];
      count := count - 1;
      if 0 == count {
        pendingOSD := pendingOSD[1..];
      } else {
        pendingOSD := pendingOSD[0 := count];
      }
      found := true;
    }
  }

  /** The limits of a request: 1 to 1024 instances, of OSDs or MONs, in at most 256 bytes. */
  lemma Limits(r: Request)
    ensures Sendable(r) <==> 1 <= r.instances <= 1024 && r.profile in ["osd", "mon"] && r.size <= 256
  {
  }

  lemma {:induction false} SumAppend(a: seq<int>, x: int)
    ensures Sum(a + [x]) == Sum(a) + x
  {
    if a == [] {
      assert Sum([] + [x]) == x + Sum(([] + [x])[1..]);
    } else {
      SumAppend(a[1..], x);
      assert (a + [x])[1..] == a[1..] + [x];
    }
  }

  lemma {:induction false} InstancesAppend(queue: seq<Request>, r: Request)
    ensures OsdInstances(queue + [r]) == OsdInstances(queue) + OsdShare(r)
  {
    if queue == [] {
      assert (queue + [r])[1..] == [];
    } else {
      InstancesAppend(queue[1..], r);
      assert (queue + [r])[1..] == queue[1..] + [r];
    }
  }

  /** Processing a message moves its OSD instances into the list. */
  lemma MessageMovesInstances(pending: seq<int>, message: Request)
    ensures Sum(AfterMessage(pending, message)) == Sum(pending) + OsdShare(message)
    ensures AllPositive(pending) && Acceptable(message) ==> AllPositive(AfterMessage(pending, message))
  {
    SumAppend(pending, message.instances);
  }

  /** Taking removes exactly one instance and leaves no empty entry behind. */
  lemma TakeOne(pending: seq<int>)
    requires pending != [] && AllPositive(pending)
    ensures Sum(AfterTake(pending)) == Sum(pending) - 1
    ensures AllPositive(AfterTake(pending))
  {
    if pending[0] != 1 {
      assert AfterTake(pending)[1..] == pending[1..];
    }
  }

  /** A request that was answered with success reaches the list with all its instances exactly if it is for OSDs; one
      for MONs is dropped whole. */
  lemma AcceptedIsKeptOnlyForOsds(pending: seq<int>, message: Request)
    requires Acceptable(message)
    ensures Sum(AfterMessage(pending, message)) == Sum(pending) + message.instances <==> message.profile == "osd"
    ensures message.profile != "osd" ==> AfterMessage(pending, message) == pending
  {
    MessageMovesInstances(pending, message);
  }

  lemma {:induction false} AllInstancesAppend(queue: seq<Request>, r: Request)
    ensures Instances(queue + [r]) == Instances(queue) + r.instances
  {
    if queue == [] {
      assert (queue + [r])[1..] == [];
    } else {
      AllInstancesAppend(queue[1..], r);
      assert (queue + [r])[1..] == queue[1..] + [r];
    }
  }
}

/**
  What a handler does on the message bus, as a trace: each awaited `SendAsync`
  that succeeds is a `Send`, and `context.CompleteAsync()` is `Complete`.
  A send that throws ends the handler, so nothing after it happens; which send
  throws is an input (`failAt`, counted from 0 within one handler run).
*/
module Bus {
  import opened Wrappers
  import opened Messages

  /**
    A typed send hands a record to the connector, which builds the envelope
    itself; an event send hands over a complete CloudEvent.
  */
  datatype Message = Event(event: CloudEvent) | Record(payload: Payload)

  datatype Action = Send(channel: string, message: Message) | Complete

  const ProposalsChannel := "travel.proposals"

  predicate AllSends(sends: seq<Action>)
  {
    forall i :: 0 <= i < |sends| ==> sends[i].Send?
  }

  /** True when no send among the first `n` throws. */
  predicate AllSucceed(failAt: Option<nat>, n: nat)
  {
    failAt.None? || failAt.value >= n
  }

  /** The sends of `sends` that happen when they are awaited one after the other. */
  function Published(sends: seq<Action>, failAt: Option<nat>): (acts: seq<Action>)
    ensures AllSucceed(failAt, |sends|) ==> acts == sends
    ensures !AllSucceed(failAt, |sends|) ==> |acts| == failAt.value < |sends|
    ensures acts == sends[..|acts|]
  {
    if AllSucceed(failAt, |sends|) then sends else sends[..failAt.value]
  }

  /**
    A transactional handler: it awaits each send of `sends` in turn and then
    acknowledges. The acknowledgement is the last action, comes after every
    send, and is missing exactly when some send throws.
  */
  function Transact(sends: seq<Action>, failAt: Option<nat>): (acts: seq<Action>)
    requires AllSends(sends)
    ensures Complete in acts <==> AllSucceed(failAt, |sends|)
    ensures Complete in acts ==> acts == sends + [Complete]
    ensures Complete !in acts ==> |acts| < |sends| && acts == sends[..|acts|]
    ensures !AllSucceed(failAt, |sends|) ==> |acts| == failAt.value
  {
    var done := Published(sends, failAt);
    assert AllSends(done);
    if AllSucceed(failAt, |sends|) then done + [Complete] else done
  }

  /** A transaction is its published sends, followed by the acknowledgement when none throws. */
  lemma TransactIsPublishedThenComplete(sends: seq<Action>, failAt: Option<nat>)
    requires AllSends(sends)
    ensures AllSucceed(failAt, |sends|) ==> Transact(sends, failAt) == Published(sends, failAt) + [Complete]
    ensures !AllSucceed(failAt, |sends|) ==> Transact(sends, failAt) == Published(sends, failAt)
  {
  }

  /** The number of sends to `channel` in a trace. */
  function SendsTo(acts: seq<Action>, channel: string): nat
  {
    if acts == [] then 0
    else (if acts[0].Send? && acts[0].channel == channel then 1 else 0) + SendsTo(acts[1..], channel)
  }

  lemma SendsToOne(a: Action, channel: string)
    ensures SendsTo([a], channel) == if a.Send? && a.channel == channel then 1 else 0
  {
    assert [a][1..] == [];
  }

  lemma {:induction false} SendsToAppend(a: seq<Action>, b: seq<Action>, channel: string)
    ensures SendsTo(a + b, channel) == SendsTo(a, channel) + SendsTo(b, channel)
  {
    if a != [] {
      assert (a + b)[1..] == a[1..] + b;
      SendsToAppend(a[1..], b, channel);
    } else {
      assert a + b == b;
    }
  }
}

/** The outbound side of the dispatcher: mobile push messages, their symbolic
    text, and the mobile notification service that accepts them.  The
    service's transport (encryption, network) is not modelled: a send either
    delivers or fails, and which one happens is not under the caller's
    control. */
module Notifications {

  datatype Option<T> = None | Some(value: T)

  /** A peer's network address; two addresses are equal when host and port are. */
  datatype NodeAddress = NodeAddress(hostName: string, port: int)

  /** A localisation key with its arguments; resolving it to display text
      happens elsewhere, so the model keeps it symbolic. */
  datatype Text = Text(key: string, args: seq<string>)

  /** The category tag of a mobile message.  This core only ever produces the
      dispute category; every other category of the app is folded into
      OtherMessage. */
  datatype MobileMessageType = DisputeMessage | OtherMessage

  datatype MobileMessage = MobileMessage(title: Text, body: Text, shortId: string, msgType: MobileMessageType)

  /** One call of the service's send operation and whether it went through. */
  datatype Attempt = Attempt(message: MobileMessage, delivered: bool)

  /** The messages handed to the service, in call order. */
  function Sent(log: seq<Attempt>): seq<MobileMessage>
  {
    seq(|log|, i requires 0 <= i < |log| => log[i].message)
  }

  /** The messages the service actually delivered, in call order. */
  function Delivered(log: seq<Attempt>): (r: seq<MobileMessage>)
    ensures |r| <= |log|
  {
    if log == [] then []
    else Delivered(log[..|log| - 1]) + (if log[|log| - 1].delivered then [log[|log| - 1].message] else [])
  }

  /** `after` is `before` followed by one attempt for each of `msgs`, in order,
      each of which may have been delivered or not. */
  ghost predicate Extends(after: seq<Attempt>, before: seq<Attempt>, msgs: seq<MobileMessage>)
  {
    |after| == |before| + |msgs| && after[..|before|] == before && Sent(after[|before|..]) == msgs
  }

  lemma ExtendsNothing(log: seq<Attempt>)
    ensures Extends(log, log, [])
  {
    assert log[..|log|] == log;
  }

  /** Two extensions in a row are one extension by both batches. */
  lemma ExtendsTrans(a: seq<Attempt>, b: seq<Attempt>, c: seq<Attempt>, x: seq<MobileMessage>, y: seq<MobileMessage>)
    requires Extends(b, a, x) && Extends(c, b, y)
    ensures Extends(c, a, x + y)
  {
    assert c[..|a|] == c[..|b|][..|a|];
    forall k | 0 <= k < |x| + |y|
      ensures Sent(c[|a|..])[k] == (x + y)[k]
    {
      if k < |x| {
        assert c[|a| + k] == b[|a| + k];
        assert Sent(b[|a|..])[k] == b[|a| + k].message;
      } else {
        assert Sent(c[|b|..])[k - |x|] == c[|a| + k].message;
      }
    }
  }

  /** Seen through the messages handed over, an extension appends `msgs`. */
  lemma SentOfExtension(after: seq<Attempt>, before: seq<Attempt>, msgs: seq<MobileMessage>)
    requires Extends(after, before, msgs)
    ensures Sent(after) == Sent(before) + msgs
  {
    assert after == after[..|before|] + after[|before|..];
  }

  /** A failed send leaves no trace in the delivered messages: delivery over
      a concatenated log is the concatenation of deliveries. */
  lemma {:induction false} DeliveredAppend(a: seq<Attempt>, b: seq<Attempt>)
    ensures Delivered(a + b) == Delivered(a) + Delivered(b)
    decreases |b|
  {
    if b == [] {
      assert a + b == a;
    } else {
      var b' := b[..|b| - 1];
      assert (a + b)[..|a + b| - 1] == a + b';
      DeliveredAppend(a, b');
    }
  }

  /** Every delivered message was handed to the service, and each delivered
      copy is matched by a call: delivery never invents or duplicates. */
  lemma {:induction false} DeliveredWereSent(log: seq<Attempt>)
    ensures multiset(Delivered(log)) <= multiset(Sent(log))
    decreases |log|
  {
    if log != [] {
      var p := log[..|log| - 1];
      DeliveredWereSent(p);
      assert Sent(log) == Sent(p) + [log[|log| - 1].message];
    }
  }

  /** When no send fails, every message handed over is delivered. */
  lemma {:induction false} NoFailureDeliversAll(log: seq<Attempt>)
    requires forall i :: 0 <= i < |log| ==> log[i].delivered
    ensures Delivered(log) == Sent(log)
    decreases |log|
  {
    if log != [] {
      var p := log[..|log| - 1];
      NoFailureDeliversAll(p);
      assert Sent(log) == Sent(p) + [log[|log| - 1].message];
    }
  }

  /** The P2P network service, reduced to the node's own address: unknown
      until the node's onion address is published, known from then on. */
  class P2PService {
    var address: Option<NodeAddress>

    constructor (address: Option<NodeAddress>)
      ensures this.address == address
    {
      this.address := address;
    }

    method PublishAddress(a: NodeAddress)
      modifies this
      ensures address == Some(a)
    {
      address := Some(a);
    }
  }

  /** The mobile notification service, seen from its caller: every send is
      recorded in `log` together with whether it was delivered.  A failed
      send is the model of the exception the real transport may throw. */
  class MobileNotificationService {
    var log: seq<Attempt>

    constructor ()
      ensures log == []
    {
      log := [];
    }

    method SendMessage(message: MobileMessage) returns (delivered: bool)
      modifies this
      ensures log == old(log) + [Attempt(message, delivered)]
    {
      delivered :| true;
      log := log + [Attempt(message, delivered)];
    }
  }
}

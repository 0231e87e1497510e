/** Dispute-chat notifications: which chat messages of which disputes are
    turned into mobile notifications, and the dispatcher that watches the
    dispute list and each dispute's chat log. */
module DisputeMsgEvents {
  import opened Notifications
  import opened ListChanges

  type DisputeId = string

  /** A chat message of a dispute; `shortId` is its short display id. */
  datatype ChatMessage = ChatMessage(tradeId: string, sender: NodeAddress, shortId: string)

  /** A dispute, with its chat history as it stands when the dispute is handed over. */
  datatype Dispute = Dispute(id: DisputeId, tradeId: string, chatMessages: seq<ChatMessage>)

  const TitleKey: string := "account.notifications.dispute.message.title"
  const MsgKey: string := "account.notifications.dispute.message.msg"

  // ---------------------------------------------------------------------
  // The per-message decision

  /** A message is notified unless the local node sent it.  While the local
      address is still unknown, no sender equals it. */
  predicate Accept(m: ChatMessage, localAddr: Option<NodeAddress>): (r: bool)
    ensures localAddr.None? ==> r
    ensures localAddr.Some? ==> (r <==> m.sender != localAddr.value)
  {
    localAddr != Some(m.sender)
  }

  /** The notification for a dispute chat message with the given short id. */
  function MakeNotification(shortId: string): (r: MobileMessage)
    ensures r.title == Text(TitleKey, [])
    ensures r.body == Text(MsgKey, [shortId])
    ensures r.shortId == shortId
    ensures r.msgType == DisputeMessage
  {
    MobileMessage(Text(TitleKey, []), Text(MsgKey, [shortId]), shortId, DisputeMessage)
  }

  /** A notification tells which short id it is about. */
  lemma NotificationDeterminesShortId(a: string, b: string)
    ensures MakeNotification(a) == MakeNotification(b) <==> a == b
  {
  }

  /** The sends that evaluating one chat message attempts. */
  function ChatMessageAttempts(m: ChatMessage, localAddr: Option<NodeAddress>): (r: seq<MobileMessage>)
    ensures |r| <= 1
    ensures r != [] <==> Accept(m, localAddr)
    ensures r != [] ==> r[0].shortId == m.shortId && r[0].msgType == DisputeMessage
  {
    if Accept(m, localAddr) then [MakeNotification(m.shortId)] else []
  }

  /** The diagnostic notification; `token` is the freshly generated random
      unique id in its string form, of which the first 8 characters are used. */
  function GetTestMsg(token: string): (r: MobileMessage)
    requires |token| >= 8
    ensures r.shortId == token[..8] && |r.shortId| == 8
    ensures r.msgType == DisputeMessage
    ensures r.title == Text(TitleKey, []) && r.body == Text(MsgKey, [token[..8]])
  {
    MakeNotification(token[..8])
  }

  /** Two test messages differ exactly when their tokens' 8-character
      prefixes differ; everything else about them is the same. */
  lemma TestMsgsDifferOnlyInShortId(t1: string, t2: string)
    requires |t1| >= 8 && |t2| >= 8
    ensures GetTestMsg(t1) == GetTestMsg(t2) <==> t1[..8] == t2[..8]
    ensures GetTestMsg(t1).(shortId := "", body := Text(MsgKey, [])) == GetTestMsg(t2).(shortId := "", body := Text(MsgKey, []))
  {
    NotificationDeterminesShortId(t1[..8], t2[..8]);
  }

  // ---------------------------------------------------------------------
  // A batch of appended chat messages

  /** The sends a batch of appended chat messages causes, in batch order. */
  function BatchAttempts(batch: seq<ChatMessage>, localAddr: Option<NodeAddress>): (r: seq<MobileMessage>)
    ensures |r| <= |batch|
    ensures forall n :: n in r ==>
      exists i :: 0 <= i < |batch| && Accept(batch[i], localAddr) && n == MakeNotification(batch[i].shortId)
    decreases |batch|
  {
    if batch == [] then []
    else
      var prefix := batch[..|batch| - 1];
      var r := BatchAttempts(prefix, localAddr) + ChatMessageAttempts(batch[|batch| - 1], localAddr);
      assert forall i :: 0 <= i < |prefix| ==> prefix[i] == batch[i];
      r
  }

  /** Reference definition: the messages of a batch that pass the sender filter, in order. */
  function Accepted(batch: seq<ChatMessage>, localAddr: Option<NodeAddress>): (r: seq<ChatMessage>)
    decreases |batch|
  {
    if batch == [] then []
    else (if Accept(batch[0], localAddr) then [batch[0]] else []) + Accepted(batch[1..], localAddr)
  }

  /** One notification per message, in order. */
  function Alerts(ms: seq<ChatMessage>): seq<MobileMessage>
  {
    seq(|ms|, i requires 0 <= i < |ms| => MakeNotification(ms[i].shortId))
  }

  lemma {:induction false} AcceptedAppend(a: seq<ChatMessage>, b: seq<ChatMessage>, localAddr: Option<NodeAddress>)
    ensures Accepted(a + b, localAddr) == Accepted(a, localAddr) + Accepted(b, localAddr)
    decreases |a|
  {
    if a == [] {
      assert a + b == b;
    } else {
      assert (a + b)[1..] == a[1..] + b;
      AcceptedAppend(a[1..], b, localAddr);
    }
  }

  lemma {:induction false} BatchAttemptsAppend(a: seq<ChatMessage>, b: seq<ChatMessage>, localAddr: Option<NodeAddress>)
    ensures BatchAttempts(a + b, localAddr) == BatchAttempts(a, localAddr) + BatchAttempts(b, localAddr)
    decreases |b|
  {
    if b == [] {
      assert a + b == a;
    } else {
      var b' := b[..|b| - 1];
      assert (a + b)[..|a + b| - 1] == a + b';
      BatchAttemptsAppend(a, b', localAddr);
    }
  }

  /** The sends of a batch are exactly one dispute notification for each
      message from another sender, in the batch's order. */
  lemma {:induction false} BatchAttemptsAreAcceptedAlerts(batch: seq<ChatMessage>, localAddr: Option<NodeAddress>)
    ensures BatchAttempts(batch, localAddr) == Alerts(Accepted(batch, localAddr))
    decreases |batch|
  {
    if batch != [] {
      var prefix := batch[..|batch| - 1];
      var last := batch[|batch| - 1];
      assert batch == prefix + [last];
      BatchAttemptsAreAcceptedAlerts(prefix, localAddr);
      AcceptedAppend(prefix, [last], localAddr);
      assert Accepted([last], localAddr) == (if Accept(last, localAddr) then [last] else []) + Accepted([], localAddr);
      var p := Accepted(prefix, localAddr);
      var q := Accepted([last], localAddr);
      assert Alerts(p + q) == Alerts(p) + Alerts(q);
    }
  }

  /** A message the local node sent causes no send, wherever it sits in a batch. */
  lemma SelfSentCausesNoSend(a: seq<ChatMessage>, m: ChatMessage, b: seq<ChatMessage>, localAddr: Option<NodeAddress>)
    requires !Accept(m, localAddr)
    ensures BatchAttempts(a + [m] + b, localAddr) == BatchAttempts(a + b, localAddr)
  {
    var am := a + [m];
    assert am[..|am| - 1] == a;
    assert BatchAttempts(am, localAddr) == BatchAttempts(a, localAddr) + ChatMessageAttempts(m, localAddr);
    BatchAttemptsAppend(am, b, localAddr);
    BatchAttemptsAppend(a, b, localAddr);
  }

  /** A message from another sender causes exactly one send, placed between
      the sends of the messages before it and those after it. */
  lemma OtherSentCausesOneSend(a: seq<ChatMessage>, m: ChatMessage, b: seq<ChatMessage>, localAddr: Option<NodeAddress>)
    requires Accept(m, localAddr)
    ensures BatchAttempts(a + [m] + b, localAddr)
         == BatchAttempts(a, localAddr) + [MakeNotification(m.shortId)] + BatchAttempts(b, localAddr)
  {
    var am := a + [m];
    assert am[..|am| - 1] == a;
    assert BatchAttempts(am, localAddr) == BatchAttempts(a, localAddr) + ChatMessageAttempts(m, localAddr);
    BatchAttemptsAppend(am, b, localAddr);
  }

  /** A batch written only by the local node causes no send at all. */
  lemma {:induction false} OnlySelfSentNoSends(batch: seq<ChatMessage>, localAddr: Option<NodeAddress>)
    requires forall i :: 0 <= i < |batch| ==> !Accept(batch[i], localAddr)
    ensures BatchAttempts(batch, localAddr) == []
    decreases |batch|
  {
    if batch != [] {
      OnlySelfSentNoSends(batch[..|batch| - 1], localAddr);
    }
  }

  // ---------------------------------------------------------------------
  // Attaching a dispute

  /** The sends that attaching a dispute causes: of a non-empty history only
      the message at index 0 is evaluated. */
  function AttachAttempts(d: Dispute, localAddr: Option<NodeAddress>): (r: seq<MobileMessage>)
    ensures |r| <= 1
    ensures d.chatMessages == [] ==> r == []
    ensures r != [] ==> Accept(d.chatMessages[0], localAddr) && r == [MakeNotification(d.chatMessages[0].shortId)]
    ensures d.chatMessages != [] && Accept(d.chatMessages[0], localAddr) ==> r != []
  {
    if d.chatMessages == [] then [] else ChatMessageAttempts(d.chatMessages[0], localAddr)
  }

  /** Messages at indices 1..N-1 of the history are never evaluated when
      attaching: replacing them by anything leaves the sends unchanged. */
  lemma AttachIgnoresLaterHistory(d: Dispute, later: seq<ChatMessage>, localAddr: Option<NodeAddress>)
    requires d.chatMessages != []
    ensures AttachAttempts(d.(chatMessages := [d.chatMessages[0]] + later), localAddr) == AttachAttempts(d, localAddr)
  {
  }

  /** The sends that attaching each dispute of a batch causes, in order. */
  function AttachAll(ds: seq<Dispute>, localAddr: Option<NodeAddress>): (r: seq<MobileMessage>)
    ensures |r| <= |ds|
    ensures forall n :: n in r ==>
      exists i :: 0 <= i < |ds| && ds[i].chatMessages != [] && Accept(ds[i].chatMessages[0], localAddr)
               && n == MakeNotification(ds[i].chatMessages[0].shortId)
    decreases |ds|
  {
    if ds == [] then []
    else
      var prefix := ds[..|ds| - 1];
      var r := AttachAll(prefix, localAddr) + AttachAttempts(ds[|ds| - 1], localAddr);
      assert forall i :: 0 <= i < |prefix| ==> prefix[i] == ds[i];
      r
  }

  /** Message 0 of each dispute whose history is not empty, in dispute order. */
  function FirstMessages(ds: seq<Dispute>): (r: seq<ChatMessage>)
    decreases |ds|
  {
    if ds == [] then []
    else
      var d := ds[|ds| - 1];
      FirstMessages(ds[..|ds| - 1]) + (if d.chatMessages == [] then [] else [d.chatMessages[0]])
  }

  /** Attaching a batch of disputes sends exactly what appending their
      messages 0 as one chat batch would: one notification per dispute whose
      message 0 passes the filter, none for the others, in dispute order. */
  lemma {:induction false} AttachAllIsFirstMessagesBatch(ds: seq<Dispute>, localAddr: Option<NodeAddress>)
    ensures AttachAll(ds, localAddr) == BatchAttempts(FirstMessages(ds), localAddr)
    decreases |ds|
  {
    if ds != [] {
      var prefix := ds[..|ds| - 1];
      var d := ds[|ds| - 1];
      AttachAllIsFirstMessagesBatch(prefix, localAddr);
      assert ds == prefix + [d];
      if d.chatMessages == [] {
        assert FirstMessages(ds) == FirstMessages(prefix);
      } else {
        var m := d.chatMessages[0];
        assert FirstMessages(ds) == FirstMessages(prefix) + [m];
        BatchAttemptsAppend(FirstMessages(prefix), [m], localAddr);
        assert [m][..0] == [];
        assert BatchAttempts([m], localAddr) == ChatMessageAttempts(m, localAddr);
      }
    }
  }

  /** Attaching a batch of disputes one after the other sends the first
      part's attach-time notifications and then the second part's. */
  lemma {:induction false} AttachAllAppend(a: seq<Dispute>, b: seq<Dispute>, localAddr: Option<NodeAddress>)
    ensures AttachAll(a + b, localAddr) == AttachAll(a, localAddr) + AttachAll(b, localAddr)
    decreases |b|
  {
    if b == [] {
      assert a + b == a;
    } else {
      var b' := b[..|b| - 1];
      assert (a + b)[..|a + b| - 1] == a + b';
      AttachAllAppend(a, b', localAddr);
    }
  }

  /** Disputes that arrive with empty chat histories cause no send. */
  lemma {:induction false} EmptyHistoriesNoSends(ds: seq<Dispute>, localAddr: Option<NodeAddress>)
    requires forall i :: 0 <= i < |ds| ==> ds[i].chatMessages == []
    ensures AttachAll(ds, localAddr) == []
    decreases |ds|
  {
    if ds != [] {
      EmptyHistoriesNoSends(ds[..|ds| - 1], localAddr);
    }
  }

  /** The ids of a batch of disputes, in order. */
  function Ids(ds: seq<Dispute>): seq<DisputeId>
  {
    seq(|ds|, i requires 0 <= i < |ds| => ds[i].id)
  }

  /** Attaching one more dispute of a list extends both the sends and the ids by that dispute's. */
  lemma AttachStep(ds: seq<Dispute>, i: nat, localAddr: Option<NodeAddress>)
    requires i < |ds|
    ensures AttachAll(ds[..i + 1], localAddr) == AttachAll(ds[..i], localAddr) + AttachAttempts(ds[i], localAddr)
    ensures Ids(ds[..i + 1]) == Ids(ds[..i]) + [ds[i].id]
  {
    assert ds[..i + 1][..i] == ds[..i];
  }

  /** `s` repeated `n` times: what `n` listeners on the same chat log do. */
  function Repeat<T>(s: seq<T>, n: nat): (r: seq<T>)
  {
    if n == 0 then [] else Repeat(s, n - 1) + s
  }

  // ---------------------------------------------------------------------
  // Listener counts

  /** Every watched dispute carries exactly one chat listener. */
  ghost predicate OnceEach(w: multiset<DisputeId>)
  {
    forall id :: id in w ==> w[id] == 1
  }

  ghost predicate Distinct(ids: seq<DisputeId>)
  {
    forall i, j :: 0 <= i < j < |ids| ==> ids[i] != ids[j]
  }

  /** Adding disputes whose ids are new and pairwise distinct keeps one
      listener per dispute. */
  lemma {:induction false} AddDistinctKeepsOnceEach(w: multiset<DisputeId>, ids: seq<DisputeId>)
    requires OnceEach(w) && Distinct(ids)
    requires forall i :: 0 <= i < |ids| ==> ids[i] !in w
    ensures OnceEach(w + multiset(ids))
    decreases |ids|
  {
    if ids != [] {
      var p := ids[..|ids| - 1];
      var x := ids[|ids| - 1];
      assert ids == p + [x];
      AddDistinctKeepsOnceEach(w, p);
      assert forall j :: 0 <= j < |p| ==> p[j] != x;
      assert x !in p;
      assert w + multiset(ids) == (w + multiset(p)) + multiset{x};
    }
  }

  // ---------------------------------------------------------------------
  // The dispatcher

  /** The dispute message event handler.  `watched` counts, per dispute id,
      the chat listeners attached to that dispute; `service` receives the
      notifications; the local address is read from `p2pService` each time a
      message is evaluated. */
  class Dispatcher {
    const p2pService: P2PService
    const service: MobileNotificationService
    var watched: multiset<DisputeId>

    /** Registers for dispute additions, then attaches every dispute already present. */
    constructor (existing: seq<Dispute>, p2pService: P2PService, service: MobileNotificationService)
      modifies service
      ensures this.p2pService == p2pService && this.service == service
      ensures watched == multiset(Ids(existing))
      ensures Extends(service.log, old(service.log), AttachAll(existing, p2pService.address))
    {
      this.p2pService := p2pService;
      this.service := service;
      watched := multiset{};
      new;
      AttachEach(existing);
    }

    /** A change of the dispute list: only an addition in its first
        sub-change attaches anything. */
    method OnDisputesChanged(change: ListChange<Dispute>)
      modifies this, service
      ensures watched == old(watched) + multiset(Ids(AddedOfFirst(change)))
      ensures Extends(service.log, old(service.log), AttachAll(AddedOfFirst(change), p2pService.address))
    {
      var added := AddedOfFirst(change);
      AttachEach(added);
    }

    /** A change of the chat log of dispute `id`: each listener attached to
        that dispute evaluates every added message, in order. */
    method OnChatMessagesChanged(id: DisputeId, change: ListChange<ChatMessage>)
      modifies service
      ensures Extends(service.log, old(service.log), Repeat(BatchAttempts(AddedOfFirst(change), p2pService.address), watched[id]))
    {
      var added := AddedOfFirst(change);
      ExtendsNothing(service.log);
      var k := 0;
      while k < watched[id]
        invariant 0 <= k <= watched[id]
        invariant Extends(service.log, old(service.log), Repeat(BatchAttempts(added, p2pService.address), k))
      {
        ghost var before := service.log;
        SetChatMessages(added);
        ExtendsTrans(old(service.log), before, service.log, Repeat(BatchAttempts(added, p2pService.address), k), BatchAttempts(added, p2pService.address));
        k := k + 1;
      }
    }

    /** Attaches each dispute of `ds`, in order. */
    method AttachEach(ds: seq<Dispute>)
      modifies this, service
      ensures watched == old(watched) + multiset(Ids(ds))
      ensures Extends(service.log, old(service.log), AttachAll(ds, p2pService.address))
    {
      ghost var addr := p2pService.address;
      ExtendsNothing(service.log);
      var i := 0;
      while i < |ds|
        invariant 0 <= i <= |ds|
        invariant watched == old(watched) + multiset(Ids(ds[..i]))
        invariant Extends(service.log, old(service.log), AttachAll(ds[..i], addr))
      {
        ghost var before := service.log;
        ghost var done := AttachAll(ds[..i], addr);
        SetDisputeListener(ds[i]);
        ExtendsTrans(old(service.log), before, service.log, done, AttachAttempts(ds[i], addr));
        AttachStep(ds, i, addr);
        i := i + 1;
      }
      assert ds[..|ds|] == ds;
    }

    /** Attaches a chat listener to `d`, then evaluates message 0 of a
        non-empty history. */
    method SetDisputeListener(d: Dispute)
      modifies this, service
      ensures watched == old(watched) + multiset{d.id}
      ensures Extends(service.log, old(service.log), AttachAttempts(d, p2pService.address))
    {
      watched := watched + multiset{d.id};
      if d.chatMessages != [] {
        SetChatMessage(d.chatMessages[0]);
      } else {
        ExtendsNothing(service.log);
      }
    }

    /** Evaluates each message of `batch`, in order. */
    method SetChatMessages(batch: seq<ChatMessage>)
      modifies service
      ensures Extends(service.log, old(service.log), BatchAttempts(batch, p2pService.address))
    {
      ExtendsNothing(service.log);
      var i := 0;
      while i < |batch|
        invariant 0 <= i <= |batch|
        invariant Extends(service.log, old(service.log), BatchAttempts(batch[..i], p2pService.address))
      {
        ghost var before := service.log;
        SetChatMessage(batch[i]);
        ExtendsTrans(old(service.log), before, service.log, BatchAttempts(batch[..i], p2pService.address), ChatMessageAttempts(batch[i], p2pService.address));
        assert batch[..i + 1][..i] == batch[..i];
        i := i + 1;
      }
      assert batch[..|batch|] == batch;
    }

    /** Sends the notification for a message from another sender; a failed
        send is swallowed and changes nothing else. */
    method SetChatMessage(m: ChatMessage)
      modifies service
      ensures Extends(service.log, old(service.log), ChatMessageAttempts(m, p2pService.address))
    {
      if Accept(m, p2pService.address) {
        var shortId := m.shortId;
        var message := MakeNotification(shortId);
        // The outcome is deliberately not inspected: a failure is caught and dropped.
        var delivered := service.SendMessage(message);
        assert service.log[|old(service.log)|..] == [Attempt(message, delivered)];
      } else {
        ExtendsNothing(service.log);
      }
    }
  }
}

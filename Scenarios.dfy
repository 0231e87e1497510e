/** Clients of the dispatcher that use only its contracts: end-to-end
    behaviours of the dispatcher. */
module DisputeMsgScenarios {
  import opened Notifications
  import opened ListChanges
  import opened DisputeMsgEvents

  function Added<T>(xs: seq<T>): ListChange<T>
  {
    ListChange(Replace([], xs), [])
  }

  /** No disputes at start; dispute d1 arrives with no chat; a remote peer
      writes to it, then the local node does.  Exactly one notification is
      handed over, for the remote message. */
  method RemoteThenLocalMessage() returns (sent: seq<MobileMessage>)
    ensures sent == [MakeNotification("abc12345")]
  {
    var local := NodeAddress("local.onion", 9999);
    var remote := NodeAddress("remote.onion", 9999);
    var p2p := new P2PService(Some(local));
    var service := new MobileNotificationService();
    var dispatcher := new Dispatcher([], p2p, service);
    assert Sent(service.log) == [];

    dispatcher.OnDisputesChanged(Added([Dispute("d1", "t1", [])]));
    assert dispatcher.watched["d1"] == 1;
    assert Sent(service.log) == [];

    var fromRemote := ChatMessage("t1", remote, "abc12345");
    ghost var before := service.log;
    dispatcher.OnChatMessagesChanged("d1", Added([fromRemote]));
    assert BatchAttempts([fromRemote], Some(local)) == [MakeNotification("abc12345")] by {
      assert [fromRemote][..0] == [];
    }
    SentOfExtension(service.log, before, Repeat([MakeNotification("abc12345")], 1));
    assert Sent(service.log) == [MakeNotification("abc12345")];

    var fromLocal := ChatMessage("t1", local, "abc12345");
    before := service.log;
    dispatcher.OnChatMessagesChanged("d1", Added([fromLocal]));
    assert BatchAttempts([fromLocal], Some(local)) == [] by {
      assert [fromLocal][..0] == [];
    }
    SentOfExtension(service.log, before, Repeat([], 1));
    sent := Sent(service.log);
  }

  /** A failed send does not stop the watcher: the next eligible message is
      still handed over, whatever became of the first. */
  method WatcherSurvivesFailedSend() returns (sent: seq<MobileMessage>)
    ensures sent == [MakeNotification("m1"), MakeNotification("m2")]
  {
    var local := NodeAddress("local.onion", 9999);
    var remote := NodeAddress("remote.onion", 9999);
    var p2p := new P2PService(Some(local));
    var service := new MobileNotificationService();
    var d1 := Dispute("d1", "t1", []);
    var dispatcher := new Dispatcher([d1], p2p, service);
    assert [d1][..0] == [];
    assert Ids([d1]) == ["d1"];
    assert Sent(service.log) == [];

    var m1 := ChatMessage("t1", remote, "m1");
    ghost var before := service.log;
    dispatcher.OnChatMessagesChanged("d1", Added([m1]));
    assert [m1][..0] == [];
    SentOfExtension(service.log, before, Repeat([MakeNotification("m1")], 1));

    var m2 := ChatMessage("t1", remote, "m2");
    before := service.log;
    dispatcher.OnChatMessagesChanged("d1", Added([m2]));
    assert [m2][..0] == [];
    SentOfExtension(service.log, before, Repeat([MakeNotification("m2")], 1));
    sent := Sent(service.log);
  }

  /** A dispute present at start whose history already has two remote
      messages: only the first is notified. */
  method OnlyFirstOfExistingHistory() returns (sent: seq<MobileMessage>)
    ensures sent == [MakeNotification("h0")]
  {
    var local := NodeAddress("local.onion", 9999);
    var remote := NodeAddress("remote.onion", 9999);
    var history := [ChatMessage("t1", remote, "h0"), ChatMessage("t1", remote, "h1")];
    var p2p := new P2PService(Some(local));
    var service := new MobileNotificationService();
    var dispatcher := new Dispatcher([Dispute("d1", "t1", history)], p2p, service);
    sent := Sent(service.log);
  }

  /** Nothing stops the same dispute from being attached twice: it then has
      two chat listeners, and one remote message is handed over twice. */
  method ReAddedDisputeNotifiesTwice() returns (sent: seq<MobileMessage>)
    ensures sent == [MakeNotification("x1"), MakeNotification("x1")]
  {
    var local := NodeAddress("local.onion", 9999);
    var remote := NodeAddress("remote.onion", 9999);
    var p2p := new P2PService(Some(local));
    var service := new MobileNotificationService();
    var d1 := Dispute("d1", "t1", []);
    var dispatcher := new Dispatcher([d1], p2p, service);
    assert [d1][..0] == [];
    assert Ids([d1]) == ["d1"];
    dispatcher.OnDisputesChanged(Added([d1]));
    assert dispatcher.watched["d1"] == 2;
    assert Sent(service.log) == [];

    var x1 := ChatMessage("t1", remote, "x1");
    ghost var before := service.log;
    dispatcher.OnChatMessagesChanged("d1", Added([x1]));
    assert BatchAttempts([x1], Some(local)) == [MakeNotification("x1")] by {
      assert [x1][..0] == [];
    }
    assert Repeat([MakeNotification("x1")], 2) == [MakeNotification("x1"), MakeNotification("x1")];
    SentOfExtension(service.log, before, Repeat([MakeNotification("x1")], 2));
    sent := Sent(service.log);
  }

  /** The local address is read for every message: while it is unknown the
      node's own message is handed over, once it is published the node's own
      messages are filtered out. */
  method AddressPublishedLater() returns (sent: seq<MobileMessage>)
    ensures sent == [MakeNotification("own1")]
  {
    var local := NodeAddress("local.onion", 9999);
    var p2p := new P2PService(None);
    var service := new MobileNotificationService();
    var d1 := Dispute("d1", "t1", []);
    var dispatcher := new Dispatcher([d1], p2p, service);
    assert [d1][..0] == [];
    assert Ids([d1]) == ["d1"];
    assert Sent(service.log) == [];

    var own1 := ChatMessage("t1", local, "own1");
    ghost var before := service.log;
    dispatcher.OnChatMessagesChanged("d1", Added([own1]));
    assert BatchAttempts([own1], None) == [MakeNotification("own1")] by {
      assert [own1][..0] == [];
    }
    SentOfExtension(service.log, before, Repeat([MakeNotification("own1")], 1));

    p2p.PublishAddress(local);
    var own2 := ChatMessage("t1", local, "own2");
    before := service.log;
    dispatcher.OnChatMessagesChanged("d1", Added([own2]));
    assert BatchAttempts([own2], Some(local)) == [] by {
      assert [own2][..0] == [];
    }
    SentOfExtension(service.log, before, Repeat([], 1));
    sent := Sent(service.log);
  }

  /** Disputes with pairwise distinct ids, present at start or added later,
      each end up with exactly one chat listener. */
  method DistinctDisputesWatchedOnce(existing: seq<Dispute>, added: seq<Dispute>, p2p: P2PService)
    returns (watched: multiset<DisputeId>)
    requires Distinct(Ids(existing + added))
    ensures OnceEach(watched)
    ensures forall i :: 0 <= i < |existing + added| ==> watched[(existing + added)[i].id] == 1
  {
    var service := new MobileNotificationService();
    var dispatcher := new Dispatcher(existing, p2p, service);
    dispatcher.OnDisputesChanged(Added(added));
    watched := dispatcher.watched;

    var all := existing + added;
    assert Ids(all) == Ids(existing) + Ids(added);
    assert AddedOfFirst(Added(added)) == added;
    assert watched == multiset(Ids(existing)) + multiset(Ids(added));
    assert watched == multiset(Ids(all));
    AddDistinctKeepsOnceEach(multiset{}, Ids(all));
    assert multiset{} + multiset(Ids(all)) == watched;
    forall i | 0 <= i < |all| ensures watched[all[i].id] == 1 {
      assert Ids(all)[i] == all[i].id;
      assert all[i].id in multiset(Ids(all));
    }
  }
}

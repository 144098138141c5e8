/** Whoever a request can be routed to has a consumer for it. */
module ProtocolRouting {
  import opened Bytes
  import opened Cluster
  import opened EventBus
  import opened Protocol

  // ---------------------------------------------------------------- routing

  /** The node has a consumer for the key. */
  ghost predicate Handles(s: System, at: ServerID, key: Str) {
    at in s.nodes && Lookup(s.nodes[at].bus.consumers, key).Some?
  }

  ghost predicate Named(s: System, sub: Sub) {
    UserKey(sub.key) && Handles(s, sub.node.server, sub.key) && s.nodes[sub.node.server].info == sub.node
  }

  ghost predicate NodeRouted(s: System, at: ServerID, node: Node) {
    && node.info.server == at && node.bus.self == at
    && (forall key | key in node.bus.consumers :: node.bus.consumers[key].Some?)
    && (forall key, server | server in Queued(node.endpoints, key) :: Handles(s, server, key))
    && (forall sub | sub in node.localSubs :: Named(s, sub) && sub.node == node.info)
  }

  /** Whoever is named for a key, in the multimap, in a pending event, in a queue or as an own
      subscription, has a consumer for it; and no lookup has ever left an empty function behind. */
  ghost predicate Routed(s: System) {
    && (forall at | at in s.nodes :: NodeRouted(s, at, s.nodes[at]))
    && (forall sub | sub in s.store.entries :: Named(s, sub))
    && (forall i | 0 <= i < |s.store.log| && s.store.log[i].Added? :: Named(s, s.store.log[i].sub))
  }

  // ---------------------------------------------------------------- consumers never go away

  ghost predicate Extends(s: System, later: System) {
    forall at | at in s.nodes ::
      && at in later.nodes && later.nodes[at].info == s.nodes[at].info
      && forall key | Lookup(s.nodes[at].bus.consumers, key).Some? :: Lookup(later.nodes[at].bus.consumers, key).Some?
  }

  lemma NodeRoutedExtends(s: System, later: System, at: ServerID, node: Node)
    requires Extends(s, later) && NodeRouted(s, at, node)
    ensures NodeRouted(later, at, node)
  {
    assert forall server, key | Handles(s, server, key) :: Handles(later, server, key);
  }

  /** One node changed, whose named servers still have consumers; the multimap may have grown by its
      own subscriptions. */
  lemma RoutedAfter(s: System, later: System, at: ServerID)
    requires Routed(s) && Extends(s, later)
    requires forall d | d in later.nodes && d != at :: d in s.nodes && later.nodes[d] == s.nodes[d]
    requires at in later.nodes ==> NodeRouted(later, at, later.nodes[at])
    requires forall sub | sub in later.store.entries :: sub in s.store.entries || Named(later, sub)
    requires forall i | 0 <= i < |later.store.log| && later.store.log[i].Added? ::
               (i < |s.store.log| && later.store.log[i] == s.store.log[i]) || Named(later, later.store.log[i].sub)
    ensures Routed(later)
  {
    hide NodeRouted, Named, Extends, Handles;
    forall d | d in later.nodes && d != at ensures NodeRouted(later, d, later.nodes[d]) {
      NodeRoutedExtends(s, later, d, s.nodes[d]);
    }
    forall sub | sub in later.store.entries ensures Named(later, sub) {
      if sub in s.store.entries {
        NamedExtends(s, later, sub);
      }
    }
    forall i | 0 <= i < |later.store.log| && later.store.log[i].Added? ensures Named(later, later.store.log[i].sub) {
      if i < |s.store.log| && later.store.log[i] == s.store.log[i] {
        NamedExtends(s, later, s.store.log[i].sub);
      }
    }
  }

  lemma NamedExtends(s: System, later: System, sub: Sub)
    requires Extends(s, later) && Named(s, sub)
    ensures Named(later, sub)
  {
  }

  lemma RoutedJoin(s: System, info: NodeInfo, order: seq<Sub>)
    requires Routed(s) && Enabled(s, Join(info, order))
    ensures Routed(SetNode(s, info.server, Joined(info, s.store, order)))
  {
    var node := Joined(info, s.store, order);
    var later := SetNode(s, info.server, node);
    PushAllEffect(map[], order);
    forall key, server | server in Queued(node.endpoints, key) ensures Handles(later, server, key) {
      assert Queued(node.endpoints, key) == Queued(map[], key) + ServersOf(SetOf(order), key);
      var sub :| sub in s.store.entries && sub.key == key && sub.node.server == server;
      assert Named(s, sub);
    }
    RoutedAfter(s, later, info.server);
  }

  lemma ConsumeExtends(s: System, at: ServerID, key: Str, func: nat)
    requires at in s.nodes
    ensures Extends(s, Consumed(s, at, key, func))
  {
  }

  lemma RoutedConsume(s: System, at: ServerID, key: Str, func: nat)
    requires Routed(s) && at in s.nodes && UserKey(key)
    ensures Routed(Consumed(s, at, key, func)) && Extends(s, Consumed(s, at, key, func))
  {
    var later, node := Consumed(s, at, key, func), s.nodes[at];
    ConsumeExtends(s, at, key, func);
    assert NodeRouted(s, at, node);
    NodeRoutedExtends(s, later, at, node);
    assert Named(later, Sub(key, node.info));
    hide UserKey, Extends, Named;
    RoutedAfter(s, later, at);
  }

  /** A changed bus with the same consumers, and a queue of servers that were queued before. */
  lemma RoutedSameConsumers(s: System, later: System, at: ServerID)
    requires Routed(s) && at in s.nodes && later.nodes.Keys == s.nodes.Keys && later.store == s.store
    requires forall d | d in s.nodes && d != at :: later.nodes[d] == s.nodes[d]
    requires var old', new' := s.nodes[at], later.nodes[at];
             && new'.info == old'.info && new'.localSubs == old'.localSubs
             && new'.bus.self == old'.bus.self && new'.bus.consumers == old'.bus.consumers
             && forall key :: Queued(new'.endpoints, key) <= Queued(old'.endpoints, key)
    ensures Routed(later) && Extends(s, later)
  {
    assert NodeRouted(s, at, s.nodes[at]);
    NodeRoutedExtends(s, later, at, s.nodes[at]);
    var new' := later.nodes[at];
    forall key, server | server in Queued(new'.endpoints, key) ensures Handles(later, server, key) {
      assert server in Queued(s.nodes[at].endpoints, key);
    }
    RoutedAfter(s, later, at);
  }

  lemma RoutedAdded(s: System, at: ServerID)
    requires Routed(s) && Enabled(s, HandleAdded(at))
    ensures Routed(AfterAdded(s, at)) && Extends(s, AfterAdded(s, at))
  {
    hide UserKey, NoEmptyQueue, Lookup;
    var later, node, sub := AfterAdded(s, at), s.nodes[at], NextEvent(s, at).value.sub;
    assert Named(s, sub);
    assert NodeRouted(s, at, node);
    NodeRoutedExtends(s, later, at, node);
    assert forall key :: Queued(Push(node.endpoints, sub), key) ==
                         Queued(node.endpoints, key) + if key == sub.key then {sub.node.server} else {};
    forall key, server | server in Queued(later.nodes[at].endpoints, key) ensures Handles(later, server, key) {
      assert server in Queued(node.endpoints, key) || (key == sub.key && server == sub.node.server);
    }
    RoutedAfter(s, later, at);
  }

  lemma RoutedRemoved(s: System, at: ServerID, order: seq<Sub>)
    requires Routed(s) && Enabled(s, HandleRemoved(at, order))
    ensures Routed(AfterRemoved(s, at, order)) && Extends(s, AfterRemoved(s, at, order))
  {
    var later, node, removed := AfterRemoved(s, at, order), s.nodes[at], NextEvent(s, at).value.key;
    assert NodeRouted(s, at, node);
    NodeRoutedExtends(s, later, at, node);
    RebuildEffect(node.endpoints, removed, s.store.entries, order);
    PutAllEffect(s.store, node.localSubs);
    forall key, server | server in Queued(later.nodes[at].endpoints, key) ensures Handles(later, server, key) {
      if key == removed {
        var sub :| sub in s.store.entries && sub.key == key && sub.node.server == server;
        assert Named(s, sub);
      } else {
        assert server in Queued(node.endpoints, key);
      }
    }
    assert forall i | 0 <= i < |s.store.log| :: later.store.log[i] == later.store.log[..|s.store.log|][i];
    RoutedAfter(s, later, at);
  }
}

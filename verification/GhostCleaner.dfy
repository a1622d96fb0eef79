/** The periodic scan that removes listeners whose session key is gone, and hashes left with no listener. */
module GhostCleaner {
  import opened CompositeKeys
  import opened SubscriptionStore

  const SUBS := "subs"

  /**
   * EXISTS ws:session:{owner}. The key is a session, or, for an owner read back as `{client}:subs`, the tracking
   * set of that client, which lives under the same prefix.
   */
  predicate KeyExists(s: Store, owner: string) {
    owner in s.sessions || exists row :: row in s.subs && owner == Composite(row.0, SUBS)
  }

  /** A listener is a ghost when the key of its owner is gone. One without a colon is only logged. */
  predicate Ghost(s: Store, member: string) {
    RSplit(member).Parts? && !KeyExists(s, Owner(member))
  }

  /** The rows that stay when the hashes in `hs` are checked against `sessions`. */
  function Kept(s: Store, hs: set<string>): set<(string, string)> {
    set row | row in s.listeners && !(row.0 in hs && Ghost(s, row.1))
  }

  /** The store after the hashes in `hs` have been cleaned. */
  function Scanned(s: Store, hs: set<string>): Store {
    var kept := Kept(s, hs);
    var dead := set h | h in hs && !Heard(kept, h);
    s.(listeners := kept, registry := s.registry - dead, active := s.active - dead)
  }

  /** Cleaning hash by hash is cleaning them all at once. */
  lemma ScanOneMore(s: Store, hs: set<string>, h: string)
    requires h !in hs
    ensures Scanned(Scanned(s, hs), {h}) == Scanned(s, hs + {h})
  {}

  // ---- What one full scan achieves ----

  predicate Indexed(s: Store) {
    && s.registry.Keys <= s.active
    && forall row :: row in s.listeners ==> row.0 in s.active
  }

  predicate Live(s: Store, row: (string, string)) {
    row in s.listeners && !Ghost(s, row.1)
  }

  /**
   * A full scan against fixed sessions never removes a live listener, leaves exactly the indexed hashes
   * that still have a listener, and a second scan changes nothing. It removes every ghost exactly when
   * no ghost sits under a hash that has fallen out of the index, which the scan does not visit.
   */
  lemma FullScanHeals(s: Store)
    ensures var t := Scanned(s, s.active);
            && (forall row :: Live(s, row) ==> row in t.listeners)
            && (forall h :: h in t.active <==> h in s.active && Heard(t.listeners, h))
            && (forall h :: h in t.registry <==> h in s.registry && (h in s.active ==> h in t.active))
            && (forall h :: h in t.registry ==> t.registry[h] == s.registry[h])
            && t.sessions == s.sessions && t.subs == s.subs
            && Scanned(t, t.active) == t
            && ((forall row :: row in t.listeners <==> Live(s, row)) <==>
                (forall row :: row in s.listeners && Ghost(s, row.1) ==> row.0 in s.active))
  {
    var t := Scanned(s, s.active);
    assert forall row :: row in t.listeners ==> Heard(t.listeners, row.0);
    assert Kept(t, t.active) == t.listeners;
    assert (set h | h in t.active && !Heard(t.listeners, h)) == {};
    if row :| row in s.listeners && Ghost(s, row.1) && row.0 !in s.active {
      assert row in t.listeners && !Live(s, row);
    }
  }

  /**
   * A full scan removes a listener if and only if its hash is in the index, it holds a colon, and what stands before the
   * last one is neither a session nor a client with something tracked followed by `:subs`.
   */
  lemma RemovedIff(s: Store, row: (string, string))
    requires row in s.listeners
    ensures row !in Scanned(s, s.active).listeners
            <==> && row.0 in s.active
                 && exists p, q :: row.1 == p + ":" + q && ':' !in q
                      && p !in s.sessions && forall tracked :: tracked in s.subs ==> p != tracked.0 + ":" + "subs"
  {
    if ':' in row.1 {
      var p, q := Owner(row.1), Suffix(row.1);
      assert row.1 == p + ":" + q && ':' !in q;
      forall p', q' | row.1 == p' + ":" + q' && ':' !in q' ensures p' == p {
        CutIsUnique(p, q, p', q');
      }
    } else {
      forall p: string, q: string ensures row.1 != p + ":" + q {
        assert (p + ":" + q)[|p|] == ':';
      }
    }
  }

  /** With everything indexed, registry and index end as exactly the hashes with a live listener. */
  lemma IndexedScanIsExact(s: Store)
    requires Indexed(s)
    ensures var t := Scanned(s, s.active);
            && Indexed(t)
            && (forall row :: row in t.listeners <==> Live(s, row))
            && (forall h :: h in t.active <==> exists row :: Live(s, row) && row.0 == h)
            && (s.registry.Keys == s.active ==> t.registry.Keys == t.active)
  {}

  // ---- Which listeners of a client without a session stay ----

  /** Client ids are free of colons. */
  predicate PlainClients(s: Store) {
    (forall c :: c in s.sessions ==> ':' !in c) && forall row :: row in s.subs ==> ':' !in row.0
  }

  lemma KeyOfClient(s: Store, c: string)
    requires ':' !in c
    ensures KeyExists(s, c) <==> c in s.sessions
  {
    forall row | row in s.subs ensures c != Composite(row.0, SUBS) {
      assert Composite(row.0, SUBS)[|row.0|] == ':';
    }
  }

  predicate HasTracked(s: Store, c: string) { exists row :: row in s.subs && row.0 == c }

  /** An id of the form `subs:x`, cut off at its last colon. */
  predicate NamesTheTrackingSet(id: string) { RSplit(id).Parts? && RSplit(id).prefix == SUBS }

  lemma OwnerOfNested(c: string, id: string)
    requires RSplit(id).Parts?
    ensures RSplit(Composite(c, id)) == Parts(Composite(c, RSplit(id).prefix), RSplit(id).suffix)
  {
    var p, q := RSplit(id).prefix, RSplit(id).suffix;
    assert Composite(c, id) == Composite(Composite(c, p), q);
    RSplitUndoesComposite(Composite(c, p), q);
  }

  /** What the cleaner takes for alive, for an entry that subscribe wrote. */
  lemma GhostOfClient(s: Store, c: string, id: string)
    requires PlainClients(s) && ':' !in c
    ensures !Ghost(s, Composite(c, id)) <==>
            if RSplit(id).NoColon? then c in s.sessions else NamesTheTrackingSet(id) && HasTracked(s, c)
  {
    if RSplit(id).NoColon? {
      RSplitUndoesComposite(c, id);
      KeyOfClient(s, c);
    } else {
      OwnerOfNested(c, id);
      var owner := Composite(c, RSplit(id).prefix);
      assert owner[|c|] == ':';
      assert owner !in s.sessions;
      forall row | row in s.subs && owner == Composite(row.0, SUBS) ensures row.0 == c && NamesTheTrackingSet(id) {
        CompositeInjective(c, RSplit(id).prefix, row.0, SUBS);
      }
    }
  }

  /**
   * Under an indexed hash, a listener whose client has no session survives a scan if and only if its id is cut to
   * the name of the client's tracking set and that set is not empty.
   */
  lemma LapsedListenerStays(s: Store, h: string, c: string, id: string)
    requires PlainClients(s) && ':' !in c && c !in s.sessions
    requires (h, Composite(c, id)) in s.listeners && h in s.active
    ensures (h, Composite(c, id)) in Scanned(s, s.active).listeners <==> NamesTheTrackingSet(id) && HasTracked(s, c)
  {
    GhostOfClient(s, c, id);
  }

  lemma StaleGone(s: Store, hash: string, stale: set<string>)
    requires forall m :: m in stale <==> (hash, m) in s.listeners && Ghost(s, m)
    ensures (set row | row in s.listeners && !(row.0 == hash && row.1 in stale)) == Kept(s, {hash})
    ensures stale == {} ==> Kept(s, {hash}) == s.listeners
  {}

  lemma ScannedOne(s: Store, hash: string)
    ensures Heard(Kept(s, {hash}), hash) ==> Scanned(s, {hash}) == s.(listeners := Kept(s, {hash}))
    ensures !Heard(Kept(s, {hash}), hash) ==>
              Scanned(s, {hash}) == s.(listeners := Kept(s, {hash}), registry := s.registry - {hash},
                                       active := s.active - {hash})
    ensures !Heard(s.listeners, hash) ==> Kept(s, {hash}) == s.listeners && !Heard(Kept(s, {hash}), hash)
  {}

  class Cleaner {
    const redis: Redis

    constructor (redis: Redis)
      ensures this.redis == redis
    {
      this.redis := redis;
    }

    method ScanAndClean()
      modifies redis
      ensures redis.View() == Scanned(old(redis.View()), old(redis.active))
    {
      ghost var start := redis.View();
      var activeHashes := redis.active;
      var todo := activeHashes;
      assert Scanned(start, {}) == start;
      while todo != {}
        invariant todo <= activeHashes
        invariant redis.View() == Scanned(start, activeHashes - todo)
        decreases todo
      {
        var hash :| hash in todo;
        ScanOneMore(start, activeHashes - todo, hash);
        assert activeHashes - (todo - {hash}) == (activeHashes - todo) + {hash};
        CleanSubscription(hash);
        todo := todo - {hash};
      }
      assert activeHashes - todo == activeHashes;
    }

    /** Groups the members by client, one EXISTS per client, then SREM of all the stale ones. */
    method CleanSubscription(hash: string)
      modifies redis
      ensures redis.View() == Scanned(old(redis.View()), {hash})
    {
      ghost var start := redis.View();
      MembersAreRows(start, hash);
      ScannedOne(start, hash);
      var listeners := redis.View().Members(hash);
      if listeners == {} {
        CleanupEmpty(hash);
        return;
      }
      var stale := FindStale(listeners);
      StaleGone(start, hash, stale);
      if stale != {} {
        redis.listeners := set row | row in redis.listeners && !(row.0 == hash && row.1 in stale);
      }
      var remaining := redis.Scard(hash);
      if remaining == 0 {
        CleanupEmpty(hash);
      }
    }

    method FindStale(listeners: set<string>) returns (stale: set<string>)
      ensures forall m :: m in stale <==> m in listeners && Ghost(redis.View(), m)
    {
      var groups := GroupByClient(listeners);
      stale := StaleMembers(groups, listeners);
    }

    static method GroupByClient(listeners: set<string>) returns (groups: map<string, set<string>>)
      ensures forall c, m :: c in groups && m in groups[c] <==> m in listeners && RSplit(m).Parts? && Owner(m) == c
    {
      groups := map[];
      var todo := listeners;
      while todo != {}
        invariant todo <= listeners
        invariant forall c, m :: c in groups && m in groups[c] <==>
                    m in listeners - todo && RSplit(m).Parts? && Owner(m) == c
        decreases todo
      {
        var m :| m in todo;
        match RSplit(m) {
          case NoColon =>
          case Parts(client, _) =>
            groups := groups[client := (if client in groups then groups[client] else {}) + {m}];
        }
        todo := todo - {m};
      }
    }

    method StaleMembers(groups: map<string, set<string>>, ghost listeners: set<string>) returns (stale: set<string>)
      requires forall c, m :: c in groups && m in groups[c] <==> m in listeners && RSplit(m).Parts? && Owner(m) == c
      ensures forall m :: m in stale <==> m in listeners && Ghost(redis.View(), m)
    {
      stale := {};
      var todo := groups.Keys;
      while todo != {}
        invariant todo <= groups.Keys
        invariant forall m :: m in stale <==> m in listeners && Ghost(redis.View(), m) && Owner(m) !in todo
        decreases todo
      {
        var client :| client in todo;
        var found := KeyExists(redis.View(), client);
        if !found {
          stale := stale + groups[client];
        }
        todo := todo - {client};
      }
    }

    method CleanupEmpty(hash: string)
      requires !Heard(redis.listeners, hash)
      modifies redis
      ensures var s := old(redis.View());
              redis.View() == s.(registry := s.registry - {hash}, active := s.active - {hash})
    {
      ghost var rows := redis.listeners;
      redis.DropSubscription(hash);
      assert redis.listeners == rows;
    }
  }
}

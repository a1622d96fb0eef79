/** Sessions, subscribe / unsubscribe, disconnect garbage collection, and the server that drives them. */
module SubscriptionService {
  import opened CompositeKeys
  import opened SubscriptionContract
  import opened SubscriptionStore

  // ---- What each whole operation does to the store ----

  function Created(s: Store, client: string): Store {
    s.(sessions := s.sessions + {client}, subs := set row | row in s.subs && row.0 != client)
  }

  function Destroyed(s: Store, client: string): Store {
    s.(sessions := s.sessions - {client}, subs := set row | row in s.subs && row.0 != client)
  }

  function Subscribed(s: Store, d: Digest, client: string, r: Request): Store {
    var hash := d(KeyOf(r));
    Store(
      if hash in s.registry then s.registry else s.registry[hash := r],
      s.listeners + {(hash, Composite(client, r.id))},
      s.active + {hash},
      s.sessions,
      s.subs + {(client, Composite(hash, r.id))})
  }

  function Unsubscribed(s: Store, d: Digest, client: string, r: Request): Store {
    var hash := d(KeyOf(r));
    RemoveListener(s, hash, Composite(client, r.id)).(subs := s.subs - {(client, Composite(hash, r.id))})
  }

  /** The (hash, sub_id) pairs in the tracking set of a client. */
  function TrackedPairs(s: Store, client: string): set<(string, string)> {
    set row | row in s.subs && row.0 == client && RSplit(row.1).Parts?
      :: (RSplit(row.1).prefix, RSplit(row.1).suffix)
  }

  function ListenerRows(client: string, pairs: set<(string, string)>): set<(string, string)> {
    set pair | pair in pairs :: (pair.0, Composite(client, pair.1))
  }

  predicate Parseable(s: Store, client: string) {
    forall row :: row in s.subs && row.0 == client ==> RSplit(row.1).Parts?
  }

  /** A tracking entry without a colon aborts the clean-up while it is still parsing. */
  function Collected(s: Store, client: string): Store {
    if Parseable(s, client) then RemoveRows(s, ListenerRows(client, TrackedPairs(s, client))) else s
  }

  /** Two subscribes to queries not yet registered make one entry if they are for the same query, else two. */
  lemma SharedIffSameQuery(s: Store, d: Digest, c: string, r: Request, c': string, r': Request)
    requires GoodDigest(d) && d(KeyOf(r)) !in s.registry && d(KeyOf(r')) !in s.registry
    ensures var t := Subscribed(Subscribed(s, d, c, r), d, c', r');
            && |t.registry| == |s.registry| + (if SameQuery(r, r') then 1 else 2)
            && (exists h :: (h, Composite(c, r.id)) in t.listeners && h in t.registry && t.registry[h] == r)
            && (exists h :: (h, Composite(c', r'.id)) in t.listeners && h in t.registry && SameQuery(t.registry[h], r'))
  {
    KeyIsTheQuery(r, r');
    KeyIsTheQuery(r', r');
    var one, t := Subscribed(s, d, c, r), Subscribed(Subscribed(s, d, c, r), d, c', r');
    var h, h' := d(KeyOf(r)), d(KeyOf(r'));
    assert one.registry == s.registry[h := r] && one.registry.Keys == s.registry.Keys + {h};
    assert t.registry.Keys == one.registry.Keys + {h'};
    assert (h, Composite(c, r.id)) in t.listeners && t.registry[h] == r;
    assert (h', Composite(c', r'.id)) in t.listeners && SameQuery(t.registry[h'], r');
    assert h != h' ==> t.registry[h'] == r';
  }

  lemma PairsAreCut(s: Store, client: string, h: string, id: string)
    requires ':' !in id
    ensures (h, id) in TrackedPairs(s, client) <==> (client, h + ":" + id) in s.subs
  {
    if (client, h + ":" + id) in s.subs {
      var row := (client, Composite(h, id));
      assert row in s.subs && RSplit(row.1).Parts?;
      CutIsUnique(h, id, RSplit(row.1).prefix, RSplit(row.1).suffix);
    }
  }

  /**
   * The clean-up of a client stops before it starts if one of its entries has no colon; otherwise it removes exactly the
   * listeners that its entries, cut at their last colons, name.
   */
  lemma CollectedIs(s: Store, client: string)
    ensures (exists entry :: (client, entry) in s.subs && ':' !in entry) ==> Collected(s, client) == s
    ensures (forall entry :: (client, entry) in s.subs ==> ':' in entry) ==>
              forall row :: row in Collected(s, client).listeners
                <==> row in s.listeners
                     && !exists id :: ':' !in id && row.1 == client + ":" + id && (client, row.0 + ":" + id) in s.subs
  {
    if entry :| (client, entry) in s.subs && ':' !in entry {
      assert (client, entry) in s.subs && !RSplit((client, entry).1).Parts?;
    } else {
      var gone := ListenerRows(client, TrackedPairs(s, client));
      forall row ensures row in gone <==>
                           exists id :: ':' !in id && row.1 == client + ":" + id && (client, row.0 + ":" + id) in s.subs
      {
        if row in gone {
          var pair :| pair in TrackedPairs(s, client) && row == (pair.0, Composite(client, pair.1));
          assert ':' !in pair.1;
          PairsAreCut(s, client, pair.0, pair.1);
        }
        if id :| ':' !in id && row.1 == client + ":" + id && (client, row.0 + ":" + id) in s.subs {
          PairsAreCut(s, client, row.0, id);
          assert (row.0, id) in TrackedPairs(s, client) && row == (row.0, Composite(client, id));
        }
      }
    }
  }

  // ---- The classes ----

  class Session {
    const redis: Redis
    const clientId: string
    const channelId: string

    constructor (redis: Redis, clientId: string, channelId: string)
      ensures this.redis == redis && this.clientId == clientId && this.channelId == channelId
    {
      this.redis, this.clientId, this.channelId := redis, clientId, channelId;
    }

    method Create()
      modifies redis
      ensures redis.View() == Created(old(redis.View()), clientId)
      ensures clientId in redis.sessions && forall row :: row in redis.subs ==> row.0 != clientId
      ensures forall c :: c != clientId ==> (c in redis.sessions <==> c in old(redis.sessions))
      ensures forall row: (string, string) :: row.0 != clientId ==> (row in redis.subs <==> row in old(redis.subs))
      ensures redis.registry == old(redis.registry) && redis.listeners == old(redis.listeners)
      ensures redis.active == old(redis.active)
    {
      redis.sessions := redis.sessions + {clientId};
      redis.subs := set row | row in redis.subs && row.0 != clientId;
    }

    method Destroy()
      modifies redis
      ensures redis.View() == Destroyed(old(redis.View()), clientId)
      ensures clientId !in redis.sessions && forall row :: row in redis.subs ==> row.0 != clientId
      ensures forall c :: c != clientId ==> (c in redis.sessions <==> c in old(redis.sessions))
      ensures forall row: (string, string) :: row.0 != clientId ==> (row in redis.subs <==> row in old(redis.subs))
      ensures redis.registry == old(redis.registry) && redis.listeners == old(redis.listeners)
      ensures redis.active == old(redis.active)
    {
      redis.sessions := redis.sessions - {clientId};
      redis.subs := set row | row in redis.subs && row.0 != clientId;
    }

    method AddSubscription(hash: string, subId: string)
      modifies redis`subs
      ensures redis.subs == old(redis.subs) + {(clientId, Composite(hash, subId))}
    {
      redis.subs := redis.subs + {(clientId, Composite(hash, subId))};
    }

    method RemoveSubscription(hash: string, subId: string)
      modifies redis`subs
      ensures redis.subs == old(redis.subs) - {(clientId, Composite(hash, subId))}
    {
      redis.subs := redis.subs - {(clientId, Composite(hash, subId))};
    }
  }

  class SubscriptionManager {
    const redis: Redis
    const digest: Digest

    constructor (redis: Redis, digest: Digest)
      ensures this.redis == redis && this.digest == digest
    {
      this.redis, this.digest := redis, digest;
    }

    method Subscribe(session: Session, r: Request) returns (hash: string)
      requires session.redis == redis
      modifies redis
      ensures hash == digest(KeyOf(r))
      ensures redis.View() == Subscribed(old(redis.View()), digest, session.clientId, r)
    {
      hash := digest(KeyOf(r));
      if hash !in redis.registry {                                          // SET NX
        redis.registry := redis.registry[hash := r];
      }
      redis.listeners := redis.listeners + {(hash, Composite(session.clientId, r.id))};
      redis.active := redis.active + {hash};
      session.AddSubscription(hash, r.id);
    }

    method Unsubscribe(session: Session, r: Request) returns (hash: string)
      requires session.redis == redis
      modifies redis
      ensures hash == digest(KeyOf(r))
      ensures redis.View() == Unsubscribed(old(redis.View()), digest, session.clientId, r)
    {
      hash := digest(KeyOf(r));
      redis.listeners := redis.listeners - {(hash, Composite(session.clientId, r.id))};
      var count := redis.Scard(hash);
      if count == 0 {
        ghost var rows := redis.listeners;
        redis.DropSubscription(hash);
        assert redis.listeners == rows;
      }
      session.RemoveSubscription(hash, r.id);
    }
  }

  class GarbageCollector {
    const redis: Redis

    constructor (redis: Redis)
      ensures this.redis == redis
    {
      this.redis := redis;
    }

    /** SMEMBERS of the tracking set and its parsing; fails on an entry without a colon. */
    method ReadPairs(client: string) returns (ok: bool, pairs: set<(string, string)>)
      ensures ok == Parseable(redis.View(), client)
      ensures ok ==> pairs == TrackedPairs(redis.View(), client)
    {
      pairs := {};
      var todo := set row | row in redis.subs && row.0 == client;
      ghost var all := todo;
      while todo != {}
        invariant todo <= all
        invariant forall row :: row in all - todo ==> RSplit(row.1).Parts?
        invariant pairs == set row | row in all - todo :: (RSplit(row.1).prefix, RSplit(row.1).suffix)
        decreases todo
      {
        var row :| row in todo;
        match RSplit(row.1)
        case NoColon =>
          return false, pairs;
        case Parts(hash, subId) =>
          pairs := pairs + {(hash, subId)};
          todo := todo - {row};
      }
      ok := true;
    }

    method Cleanup(client: string)
      modifies redis
      ensures redis.View() == Collected(old(redis.View()), client)
    {
      ghost var start := redis.View();
      var ok, pairs := ReadPairs(client);
      if !ok { return; }
      var todo := pairs;
      assert RemoveRows(start, ListenerRows(client, {})) == start;
      while todo != {}
        invariant todo <= pairs
        invariant redis.View() == RemoveRows(start, ListenerRows(client, pairs - todo))
        decreases todo
      {
        var pair :| pair in todo;
        ghost var done := ListenerRows(client, pairs - todo);
        ghost var row := (pair.0, Composite(client, pair.1));
        assert pairs - (todo - {pair}) == (pairs - todo) + {pair};
        assert ListenerRows(client, pairs - (todo - {pair})) == done + {row};
        RemoveOneMore(start, done, row);
        CleanupSubscription(client, pair.0, pair.1);
        todo := todo - {pair};
      }
      assert pairs - todo == pairs;
    }

    method CleanupSubscription(client: string, hash: string, subId: string)
      modifies redis
      ensures var s := old(redis.View()); var row := (hash, Composite(client, subId));
              redis.View() == if row in s.listeners then RemoveListener(s, row.0, row.1) else s
    {
      var member := Composite(client, subId);
      var removed := (hash, member) in redis.listeners;                     // the reply of SREM
      redis.listeners := redis.listeners - {(hash, member)};
      if !removed { return; }
      var count := redis.Scard(hash);
      if count == 0 {
        ghost var rows := redis.listeners;
        redis.DropSubscription(hash);
        assert redis.listeners == rows;
      }
    }
  }
}

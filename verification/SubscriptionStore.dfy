/** The Redis keys shared by the WebSocket service and the reporting worker. */
module SubscriptionStore {
  import opened CompositeKeys
  import opened SubscriptionContract

  /**
   * One value per key family. A Redis set with no members does not exist, so the families of sets
   * `sub:listeners:{hash}` and `ws:session:{client}:subs` are kept as their (key, member) rows.
   */
  datatype Store = Store(
    registry: map<string, Request>,
    listeners: set<(string, string)>,
    active: set<string>,
    sessions: set<string>,
    subs: set<(string, string)>)
  {
    /** SMEMBERS sub:listeners:{hash} */
    function Members(hash: string): set<string> {
      set row | row in listeners && row.0 == hash :: row.1
    }
  }

  predicate Heard(rows: set<(string, string)>, hash: string) {
    exists row :: row in rows && row.0 == hash
  }

  lemma MembersAreRows(s: Store, hash: string)
    ensures forall m :: m in s.Members(hash) <==> (hash, m) in s.listeners
    ensures s.Members(hash) == {} <==> !Heard(s.listeners, hash)
  {}

  /** SREM of one listener, then the clean-up pipeline if SCARD has become zero. */
  function RemoveListener(s: Store, hash: string, member: string): Store {
    var rest := s.listeners - {(hash, member)};
    if Heard(rest, hash)
    then s.(listeners := rest)
    else s.(listeners := rest, registry := s.registry - {hash}, active := s.active - {hash})
  }

  /** Removes the rows in `gone`, and every hash for which this took away the last listener. */
  function RemoveRows(s: Store, gone: set<(string, string)>): Store {
    var rest := s.listeners - gone;
    var dead := set row | row in gone && row in s.listeners && !Heard(rest, row.0) :: row.0;
    s.(listeners := rest, registry := s.registry - dead, active := s.active - dead)
  }

  /** One more row: nothing if it was not there, otherwise the single-listener removal. */
  lemma RemoveOneMore(s: Store, gone: set<(string, string)>, row: (string, string))
    ensures var before := RemoveRows(s, gone);
            RemoveRows(s, gone + {row}) ==
              if row in before.listeners then RemoveListener(before, row.0, row.1) else before
  {}

  /** The live Redis instance: the fields are reassigned by the commands of the services. */
  class Redis {
    var registry: map<string, Request>
    var listeners: set<(string, string)>
    var active: set<string>
    var sessions: set<string>
    var subs: set<(string, string)>

    function View(): Store
      reads this
    {
      Store(registry, listeners, active, sessions, subs)
    }

    constructor ()
      ensures View() == Store(map[], {}, {}, {}, {})
    {
      registry, listeners, active, sessions, subs := map[], {}, {}, {}, {};
    }

    method Scard(hash: string) returns (n: nat)
      ensures n == |View().Members(hash)|
      ensures n == 0 <==> !Heard(listeners, hash)
    {
      MembersAreRows(View(), hash);
      n := |View().Members(hash)|;
    }

    /** The pipeline DEL registry, DEL listeners, SREM active. */
    method DropSubscription(hash: string)
      modifies this
      ensures registry == old(registry) - {hash}
      ensures listeners == set row | row in old(listeners) && row.0 != hash
      ensures active == old(active) - {hash}
      ensures sessions == old(sessions) && subs == old(subs)
    {
      registry := registry - {hash};
      listeners := set row | row in listeners && row.0 != hash;
      active := active - {hash};
    }
  }
}

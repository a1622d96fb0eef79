/** The control message of the WebSocket API and the digest that makes equal queries share one entry. */
module SubscriptionContract {

  datatype Action = Subscribe | Unsubscribe

  /** Parameter names to the JSON text of their values; extra names are allowed. */
  type Params = map<string, string>

  datatype Request = Request(action: Action, id: string, channelId: string, target: string, params: Params)

  /** What is hashed: everything but the action, the client's id and a parameter called `id`. */
  datatype QueryKey = QueryKey(channelId: string, target: string, params: Params)

  function KeyOf(r: Request): QueryKey {
    QueryKey(r.channelId, r.target, r.params - {"id"})
  }

  /** Field by field: the same channel and target, and the same value, or none, for every parameter but `id`. */
  ghost predicate SameQuery(r: Request, r': Request) {
    && r.channelId == r'.channelId && r.target == r'.target
    && forall name: string :: name != "id" ==>
         (name in r.params <==> name in r'.params) && (name in r.params ==> r.params[name] == r'.params[name])
  }

  /** What is hashed tells queries apart by exactly these fields; action, id and a parameter `id` make no difference. */
  lemma KeyIsTheQuery(r: Request, r': Request)
    ensures KeyOf(r) == KeyOf(r') <==> SameQuery(r, r')
    ensures KeyOf(r).channelId == r.channelId && KeyOf(r).target == r.target
  {
    var p, p' := r.params - {"id"}, r'.params - {"id"};
    if p == p' {
      forall name: string | name != "id"
        ensures (name in r.params <==> name in r'.params) && (name in r.params ==> r.params[name] == r'.params[name])
      {
        assert (name in p <==> name in p') && (name in p ==> p[name] == p'[name]);
      }
    }
    if SameQuery(r, r') {
      assert forall name :: name in p <==> name in p';
    }
  }

  /** The truncated SHA-256 hex digest, taken to have no collisions; hex has no colon. */
  type Digest = QueryKey -> string

  ghost predicate GoodDigest(d: Digest) {
    && (forall k: QueryKey :: ':' !in d(k))
    && (forall k: QueryKey, k': QueryKey :: d(k) == d(k') ==> k == k')
  }
}

/**
 * The split operations of `Interleaving` against the whole ones: a process that nobody disturbs does to the store exactly
 * what its operation does in one piece, whatever the order of its loops; and some order lets it finish.
 */
module Undisturbed {
  import opened CompositeKeys
  import opened SubscriptionContract
  import opened SubscriptionStore
  import opened SubscriptionService
  import opened GhostCleaner
  import opened Interleaving

  type Pick = (string, string)

  /** The process p alone, with these picks. */
  function Left(g: State, d: Digest, p: Proc, picks: seq<Pick>): State
    decreases |picks|
  {
    if picks == [] then g else Left(Next(g, d, Advance(p, picks[0].0, picks[0].1)), d, p, picks[1..])
  }

  function Alone(s: Store, pc: Pc, picks: seq<Pick>): (Store, Pc)
    decreases |picks|
  {
    if picks == [] then (s, pc) else
    var (s', pc') := Advanced(s, pc, picks[0].0, picks[0].1);
    Alone(s', pc', picks[1..])
  }

  lemma {:induction false} LeftIsAlone(g: State, d: Digest, p: Proc, picks: seq<Pick>)
    requires p in g.pcs
    ensures var h := Left(g, d, p, picks);
            p in h.pcs && (h.store, h.pcs[p]) == Alone(g.store, g.pcs[p], picks)
    decreases |picks|
  {
    if picks == [] {
    } else {
      LeftIsAlone(Next(g, d, Advance(p, picks[0].0, picks[0].1)), d, p, picks[1..]);
    }
  }

  // ---- Some picks finish ----

  function ToGo(loop: Loop): nat {
    match loop
    case Untracking(_, _) => 0
    case Collecting(_, pairs) => |pairs|
    case Scanning(todo) => |todo|
  }

  function Rounds(pc: Pc): nat {
    match pc
    case Tracking(_, _) => 0
    case Counting(_, loop) => ToGo(loop)
    case Dropping(_, loop) => ToGo(loop)
    case Checking(_, _, _, todo) => |todo|
    case In(loop) => ToGo(loop)
    case Done => 0
  }

  function Rank(pc: Pc): nat {
    match pc
    case Done => 0
    case Tracking(_, _) => 1
    case In(_) => 1
    case Dropping(_, _) => 2
    case Counting(_, _) => 3
    case Checking(_, _, _, _) => 4
  }

  function Unchecked(pc: Pc): nat { if pc.Checking? then |pc.unchecked| else 0 }

  predicate IsCloser(pc: Pc, after: Pc) {
    || Rounds(after) < Rounds(pc)
    || (Rounds(after) == Rounds(pc) && (Rank(after) < Rank(pc) || (Rank(after) == Rank(pc) && Unchecked(after) < Unchecked(pc))))
  }

  lemma Smaller<T>(all: set<T>, some: set<T>)
    requires some <= all && some != {}
    ensures |all - some| < |all|
  {
    var x :| x in some;
    assert all - some <= all - {x};
    SubsetIsNoLarger(all - some, all - {x});
  }

  lemma {:induction false} SubsetIsNoLarger<T>(a: set<T>, b: set<T>)
    requires a <= b
    ensures |a| <= |b|
    decreases a
  {
    if a != {} {
      var x :| x in a;
      SubsetIsNoLarger(a - {x}, b - {x});
    }
  }

  lemma LoopGoesOn(s: Store, loop: Loop) returns (pick: Pick)
    ensures IsCloser(In(loop), Looped(s, loop, pick.0, pick.1).1)
  {
    pick := ("", "");
    if loop.Collecting? && loop.pairs != {} {
      pick :| pick in loop.pairs;
      assert (pick.0, pick.1) == pick;
      Smaller(loop.pairs, {pick});
    } else if loop.Scanning? && loop.todo != {} {
      var h :| h in loop.todo;
      pick := (h, "");
      Smaller(loop.todo, {h});
    }
  }

  lemma GoesOn(s: Store, pc: Pc) returns (pick: Pick)
    requires !pc.Done?
    ensures IsCloser(pc, Advanced(s, pc, pick.0, pick.1).1)
  {
    pick := ("", "");
    match pc
    case In(loop) => pick := LoopGoesOn(s, loop);
    case Checking(_, unchecked, _, _) =>
      if unchecked != {} {
        var m :| m in unchecked;
        pick := (Owner(m), "");
        var mine := set x | x in unchecked && Owner(x) == pick.0;
        assert m in mine;
        Smaller(unchecked, mine);
      }
    case _ =>
  }

  lemma {:induction false} Finishes(s: Store, pc: Pc) returns (picks: seq<Pick>)
    ensures Alone(s, pc, picks).1 == Done
    decreases Rounds(pc), Rank(pc), Unchecked(pc)
  {
    if pc.Done? {
      picks := [];
    } else {
      var pick := GoesOn(s, pc);
      var next := Advanced(s, pc, pick.0, pick.1);
      var rest := Finishes(next.0, next.1);
      picks := [pick] + rest;
      assert picks[1..] == rest;
    }
  }

  // ---- Unsubscribe ----

  predicate Unsubscribing(s: Store, hash: string, member: string, c: string, entry: string, t: Store, pc: Pc) {
    var removed := s.(listeners := s.listeners - {(hash, member)});
    match pc
    case Counting(h, loop) => h == hash && loop == Untracking(c, entry) && t == removed
    case Dropping(h, loop) => h == hash && loop == Untracking(c, entry) && t == removed && !Heard(t.listeners, hash)
    case In(loop) => loop == Untracking(c, entry) && t == RemoveListener(s, hash, member)
    case Done => t == RemoveListener(s, hash, member).(subs := s.subs - {(c, entry)})
    case _ => false
  }

  lemma {:induction false} UnsubscribesOn(s: Store, hash: string, member: string, c: string, entry: string, t: Store, pc: Pc,
                                          picks: seq<Pick>)
    requires Unsubscribing(s, hash, member, c, entry, t, pc)
    ensures var after := Alone(t, pc, picks); Unsubscribing(s, hash, member, c, entry, after.0, after.1)
    decreases |picks|
  {
    if picks == [] {
    } else {
      var next := Advanced(t, pc, picks[0].0, picks[0].1);
      assert pc.Dropping? ==> (set row | row in t.listeners && row.0 != hash) == t.listeners;
      UnsubscribesOn(s, hash, member, c, entry, next.0, next.1, picks[1..]);
    }
  }

  // ---- Disconnect ----

  predicate Collects(s: Store, c: string, done: set<(string, string)>, pairs: set<(string, string)>) {
    done !! pairs && done + pairs == TrackedPairs(s, c)
  }

  function SoFar(s: Store, c: string, done: set<(string, string)>): Store { RemoveRows(s, ListenerRows(c, done)) }

  /** `done` are the pairs dealt with; in the middle of one, `now` is that pair. */
  predicate Clearing(s: Store, c: string, done: set<(string, string)>, now: (string, string), t: Store, pc: Pc) {
    match pc
    case Counting(h, loop) => loop.Collecting? && loop.client == c && Midway(s, c, done, now, h, loop.pairs, t)
    case Dropping(h, loop) => loop.Collecting? && loop.client == c && Midway(s, c, done, now, h, loop.pairs, t)
                              && !Heard(t.listeners, h)
    case In(loop) => loop.Collecting? && loop.client == c && Collects(s, c, done, loop.pairs) && t == SoFar(s, c, done)
    case Done => t == SoFar(s, c, TrackedPairs(s, c))
    case _ => false
  }

  predicate Midway(s: Store, c: string, done: set<(string, string)>, now: (string, string), h: string,
                   pairs: set<(string, string)>, t: Store)
  {
    var before, row := SoFar(s, c, done), (now.0, Composite(c, now.1));
    && now.0 == h && now !in done && Collects(s, c, done + {now}, pairs)
    && row in before.listeners && t == before.(listeners := before.listeners - {row})
  }

  lemma OnePairMore(s: Store, c: string, done: set<(string, string)>, now: (string, string))
    ensures var before, row := SoFar(s, c, done), (now.0, Composite(c, now.1));
            SoFar(s, c, done + {now}) == if row in before.listeners then RemoveListener(before, row.0, row.1) else before
  {
    var row := (now.0, Composite(c, now.1));
    assert ListenerRows(c, done + {now}) == ListenerRows(c, done) + {row};
    RemoveOneMore(s, ListenerRows(c, done), row);
  }

  lemma CollectStep(s: Store, c: string, done: set<(string, string)>, now: (string, string), t: Store, pc: Pc, pick: Pick)
    returns (done': set<(string, string)>, now': (string, string))
    requires Clearing(s, c, done, now, t, pc)
    ensures var next := Advanced(t, pc, pick.0, pick.1); Clearing(s, c, done', now', next.0, next.1)
  {
    done', now' := done, now;
    match pc
    case In(loop) =>
      if loop.pairs == {} {
        assert done == TrackedPairs(s, c);
      } else if (pick.0, pick.1) in loop.pairs {
        now' := (pick.0, pick.1);
        OnePairMore(s, c, done, now');
        assert Collects(s, c, done + {now'}, loop.pairs - {now'});
        if (now'.0, Composite(c, now'.1)) !in t.listeners {
          done' := done + {now'};
        }
      }
    case Counting(h, loop) =>
      if Heard(t.listeners, h) {
        OnePairMore(s, c, done, now);
        done' := done + {now};
      }
    case Dropping(h, loop) =>
      OnePairMore(s, c, done, now);
      assert (set row | row in t.listeners && row.0 != h) == t.listeners;
      done' := done + {now};
    case _ =>
  }

  lemma {:induction false} CollectsOn(s: Store, c: string, done: set<(string, string)>, now: (string, string), t: Store, pc: Pc,
                                      picks: seq<Pick>)
    requires Clearing(s, c, done, now, t, pc)
    ensures Alone(t, pc, picks).1 == Done ==> Alone(t, pc, picks).0 == SoFar(s, c, TrackedPairs(s, c))
    decreases |picks|
  {
    if picks == [] {
    } else {
      var done', now' := CollectStep(s, c, done, now, t, pc, picks[0]);
      var next := Advanced(t, pc, picks[0].0, picks[0].1);
      CollectsOn(s, c, done', now', next.0, next.1, picks[1..]);
    }
  }

  // ---- Scan ----

  predicate IsPart(s: Store, done: set<string>, todo: set<string>) { done !! todo && done + todo == s.active }

  predicate Cleaning(s: Store, done: set<string>, h: string, todo: set<string>) { h !in done && IsPart(s, done + {h}, todo) }

  function Thinned(s: Store, h: string): Store { s.(listeners := Kept(s, {h})) }

  predicate Sweeping(s: Store, done: set<string>, t: Store, pc: Pc) {
    var before := Scanned(s, done);
    match pc
    case Counting(h, loop) => loop.Scanning? && Cleaning(s, done, h, loop.todo) && t == Thinned(before, h)
    case Dropping(h, loop) => loop.Scanning? && Cleaning(s, done, h, loop.todo) && t == Thinned(before, h)
                              && !Heard(t.listeners, h)
    case Checking(h, unchecked, stale, todo) =>
      && Cleaning(s, done, h, todo) && t == before
      && (forall m :: m in unchecked ==> (h, m) in t.listeners && RSplit(m).Parts?)
      && stale == set m | m in t.Members(h) && m !in unchecked && Ghost(t, m)
    case In(loop) => loop.Scanning? && IsPart(s, done, loop.todo) && t == before
    case Done => t == Scanned(s, s.active)
    case _ => false
  }

  lemma OneHashMore(s: Store, done: set<string>, h: string)
    requires h !in done
    ensures var thin := Thinned(Scanned(s, done), h);
            Scanned(s, done + {h}) == if Heard(thin.listeners, h) then thin else Dropped(thin, h)
  {
    ScanOneMore(s, done, h);
    var before := Scanned(s, done);
    var kept := Kept(before, {h});
    var dead := set x | x in {h} && !Heard(kept, x);
    if Heard(kept, h) {
      assert dead == {};
    } else {
      assert dead == {h};
      assert (set row | row in kept && row.0 != h) == kept;
    }
  }

  lemma CheckStep(s: Store, done: set<string>, t: Store, pc: Pc, pick: Pick)
    requires pc.Checking? && Sweeping(s, done, t, pc)
    ensures var next := Advanced(t, pc, pick.0, pick.1); Sweeping(s, done, next.0, next.1)
  {
    var h, unchecked, stale := pc.hash, pc.unchecked, pc.stale;
    if unchecked == {} {
      assert (set row | row in t.listeners && !(row.0 == h && row.1 in stale)) == Kept(t, {h}) by {
        forall row | row in t.listeners ensures row.0 == h ==> (row.1 in stale <==> Ghost(t, row.1)) {
          if row.0 == h {
            assert row == (h, row.1) && row.1 in t.Members(h);
          }
        }
      }
    } else {
      var mine := set m | m in unchecked && Owner(m) == pick.0;
      var stale' := if KeyExists(t, pick.0) then stale else stale + mine;
      forall m ensures m in stale' <==> m in t.Members(h) && m !in unchecked - mine && Ghost(t, m) {
        if m in mine {
          assert m in t.Members(h);
        }
      }
    }
  }

  lemma ScanStep(s: Store, done: set<string>, t: Store, pc: Pc, pick: Pick) returns (done': set<string>)
    requires Sweeping(s, done, t, pc)
    ensures var next := Advanced(t, pc, pick.0, pick.1); Sweeping(s, done', next.0, next.1)
  {
    done' := done;
    match pc
    case In(loop) =>
      if loop.todo == {} {
        assert done == s.active;
      } else if pick.0 in loop.todo {
        assert IsPart(s, done + {pick.0}, loop.todo - {pick.0});
        if !Heard(t.listeners, pick.0) {
          assert Kept(t, {pick.0}) == t.listeners;
        }
      }
    case Counting(h, loop) =>
      OneHashMore(s, done, h);
      if Heard(t.listeners, h) {
        done' := done + {h};
      }
    case Dropping(h, loop) =>
      OneHashMore(s, done, h);
      done' := done + {h};
    case Checking(_, _, _, _) => CheckStep(s, done, t, pc, pick);
    case _ =>
  }

  lemma {:induction false} ScansOn(s: Store, done: set<string>, t: Store, pc: Pc, picks: seq<Pick>)
    requires Sweeping(s, done, t, pc)
    ensures Alone(t, pc, picks).1 == Done ==> Alone(t, pc, picks).0 == Scanned(s, s.active)
    decreases |picks|
  {
    if picks == [] {
    } else {
      var done' := ScanStep(s, done, t, pc, picks[0]);
      var next := Advanced(t, pc, picks[0].0, picks[0].1);
      ScansOn(s, done', next.0, next.1, picks[1..]);
    }
  }

  // ---- The theorems ----

  lemma SubscribeUndisturbed(g: State, d: Digest, p: Proc, c: string, r: Request, pick: Pick)
    ensures var h := Left(Next(g, d, Step.Subscribe(p, c, r)), d, p, [pick]);
            p in h.pcs && h.pcs[p] == Done && h.store == Subscribed(g.store, d, c, r)
  {
    var one := Next(g, d, Step.Subscribe(p, c, r));
    assert [pick][1..] == [] && Left(one, d, p, [pick]) == Next(one, d, Advance(p, pick.0, pick.1));
  }

  /** An unsubscribe left alone, once done. */
  lemma UnsubscribeUndisturbed(g: State, d: Digest, p: Proc, c: string, r: Request, picks: seq<Pick>)
    ensures var h := Left(Next(g, d, Step.Unsubscribe(p, c, r)), d, p, picks);
            p in h.pcs && (h.pcs[p] == Done ==> h.store == Unsubscribed(g.store, d, c, r))
  {
    var one, hash := Next(g, d, Step.Unsubscribe(p, c, r)), d(KeyOf(r));
    LeftIsAlone(one, d, p, picks);
    UnsubscribesOn(g.store, hash, Composite(c, r.id), c, Composite(hash, r.id), one.store, one.pcs[p], picks);
  }

  /** A disconnect's clean-up left alone, in any order of its pairs. */
  lemma CollectUndisturbed(g: State, d: Digest, p: Proc, c: string, picks: seq<Pick>)
    ensures var h := Left(Next(g, d, Collect(p, c)), d, p, picks);
            p in h.pcs && (h.pcs[p] == Done ==> h.store == Collected(g.store, c))
  {
    var one := Next(g, d, Collect(p, c));
    LeftIsAlone(one, d, p, picks);
    if Parseable(g.store, c) {
      NothingCollected(g.store, c);
      assert Collects(g.store, c, {}, TrackedPairs(g.store, c));
      CollectsOn(g.store, c, {}, ("", ""), one.store, one.pcs[p], picks);
    } else {
      DoneStays(one.store, picks);
    }
  }

  lemma NothingCollected(s: Store, c: string)
    ensures SoFar(s, c, {}) == s
  {
    assert ListenerRows(c, {}) == {};
  }

  lemma {:induction false} DoneStays(s: Store, picks: seq<Pick>)
    ensures Alone(s, Done, picks) == (s, Done)
    decreases |picks|
  {
    if picks == [] {
    } else {
      DoneStays(s, picks[1..]);
    }
  }

  /** A scan left alone, in any order of its hashes and clients. */
  lemma ScanUndisturbed(g: State, d: Digest, p: Proc, picks: seq<Pick>)
    ensures var h := Left(Next(g, d, Scan(p)), d, p, picks);
            p in h.pcs && (h.pcs[p] == Done ==> h.store == Scanned(g.store, g.store.active))
  {
    var one := Next(g, d, Scan(p));
    LeftIsAlone(one, d, p, picks);
    assert Scanned(g.store, {}) == g.store by {
      assert Kept(g.store, {}) == g.store.listeners;
    }
    assert IsPart(g.store, {}, g.store.active);
    ScansOn(g.store, {}, one.store, one.pcs[p], picks);
  }

  /** The sessions' steps are whole operations as they stand, and a crash takes a process and nothing else. */
  lemma SessionsAreWhole(g: State, d: Digest, c: string, p: Proc)
    ensures Next(g, d, SessionBorn(c)) == g.(store := Created(g.store, c))
    ensures Next(g, d, SessionDestroyed(c)) == g.(store := Destroyed(g.store, c))
    ensures Next(g, d, SessionLapsed(c)) == g.(store := g.store.(sessions := g.store.sessions - {c}))
    ensures Next(g, d, Step.Crash(p)) == g.(pcs := g.pcs - {p})
  {}

  /** Any process, wherever it stands, is done after some picks. */
  lemma SomePicksFinish(g: State, d: Digest, p: Proc) returns (picks: seq<Pick>)
    requires p in g.pcs
    ensures var h := Left(g, d, p, picks); p in h.pcs && h.pcs[p] == Done
  {
    picks := Finishes(g.store, g.pcs[p]);
    LeftIsAlone(g, d, p, picks);
  }
}
